/**
 * The agent's query pipeline: the news tool the model may call, the heuristics that take
 * over when the chat-completion service misbehaves (HTTP 500, or tool syntax leaking into
 * the message text), the Markdown rendering of stories, and the tool-call round trip.
 *
 * The chat-completion service is a function `llm` from the request sent to the reply
 * received; the MediaCloud search is a function `news` from the search string and the
 * collection ids to the script of pages the pagination loop receives; `json.loads` is a
 * function `decode`. The globals `news_bridge`, `cultural_bridge` and
 * `philosophical_framework` are parameters (a null bridge is a missing MEDIACLOUD_API_KEY).
 */
module Agent {
  import opened Wrappers
  import opened Text
  import opened Values
  import opened News
  import Serialization
  import CB = CulturalBridge
  import PF = PhilosophicalFramework

  // ---------------------------------------------------------------- format_error_response

  const ErrorOpening: string := "\U{26A0}\U{FE0F} An error occurred while processing your request:\n\n"
  const ErrorAdvice: string :=
    "\n\nYou can try:\n1. Waiting a few moments and trying again\n2. Checking your internet connection\n3. Verifying the request parameters"

  /** `format_error_response(error)`, given `str(error)`. */
  function FormatErrorResponse(error: string): string {
    ErrorOpening + error + ErrorAdvice
  }

  /** The error text inside a formatted error response, if `response` has that shape. */
  function ReportedError(response: string): (r: Option<string>)
    ensures r.Some? ==> FormatErrorResponse(r.value) == response
  {
    if |response| >= |ErrorOpening| + |ErrorAdvice|
       && response[..|ErrorOpening|] == ErrorOpening
       && response[|response| - |ErrorAdvice|..] == ErrorAdvice
    then
      var error := response[|ErrorOpening|..|response| - |ErrorAdvice|];
      assert response == response[..|ErrorOpening|] + error + response[|response| - |ErrorAdvice|..];
      Some(error)
    else None
  }

  /** The formatted response carries the error text unchanged: it can be read back. */
  lemma ReportedErrorOfFormat(error: string)
    ensures ReportedError(FormatErrorResponse(error)) == Some(error)
  {
    var response := FormatErrorResponse(error);
    assert response[..|ErrorOpening|] == ErrorOpening;
    assert response[|response| - |ErrorAdvice|..] == ErrorAdvice;
    assert response[|ErrorOpening|..|response| - |ErrorAdvice|] == error;
  }

  // ---------------------------------------------------------------- call_news_tool

  const FetchFailed: string := "Failed to fetch news data: "
  const NotConfigured: string :=
    "MediaCloud API key not configured. Please set MEDIACLOUD_API_KEY in your environment."
  const NewsToolName: string := "search_news"
  /** The cap on `max_stories` and the final `result[:5]`. */
  const MaxToolStories: int := 5

  /** The pages the search receives, by search string, date window (start, end) and collection ids. */
  type NewsSource = (string, Date, Date, Value) -> seq<Result<Page>>

  /** `type(v).__name__` as Python's error messages spell it. */
  function TypeName(v: Value): string {
    match v
    case VNone => "NoneType"
    case VBool(_) => "bool"
    case VInt(_) => "int"
    case VStr(_) => "str"
    case VDate(_) => "datetime.date"
    case VDateTime(_) => "datetime.datetime"
    case VList(_) => "list"
    case VTuple(_) => "tuple"
    case VDict(_) => "dict"
    case VObject(name, _) => name
  }

  /** The `TypeError` of `min(v, 5)` when `5 < v` is not defined. */
  function NotComparable(v: Value): string {
    "'<' not supported between instances of 'int' and '" + TypeName(v) + "'"
  }

  /** The `TypeError` of `timedelta(days=v)` for a value that is not a number. */
  function NotADuration(v: Value): string {
    "unsupported type for timedelta days component: " + TypeName(v)
  }

  /** `min(v, 5)`: a number (a `bool` counts as 0 or 1) is capped at 5; anything else cannot be compared. */
  function MaxStoriesArg(v: Value): (r: Result<int>)
    ensures r.Ok? <==> v.VInt? || v.VBool?
    ensures r.Ok? ==> r.value <= MaxToolStories
    ensures v.VInt? ==> r == Ok(Min(v.i, MaxToolStories))
  {
    match v
    case VInt(n) => Ok(if MaxToolStories < n then MaxToolStories else n)
    case VBool(b) => Ok(if b then 1 else 0)
    case _ => Err(NotComparable(v))
  }

  /** `timedelta(days=v)`: only a number is accepted. */
  function DaysBackArg(v: Value): (r: Result<int>)
    ensures r.Ok? <==> v.VInt? || v.VBool?
    ensures v.VInt? ==> r == Ok(v.i)
  {
    match v
    case VInt(n) => Ok(n)
    case VBool(b) => Ok(if b then 1 else 0)
    case _ => Err(NotADuration(v))
  }

  /** The `query` argument: absent or `None` selects the default search; anything else is its `str()`. */
  function QueryArg(v: Option<Value>, cal: Calendar): (r: Option<string>)
    ensures r.None? <==> v.None? || v.value == VNone
  {
    match v
    case None => None
    case Some(VNone) => None
    case Some(q) => Some(PyStr(q, cal))
  }

  /** The collection ids a search runs with: a truthy `collection_ids` argument overrides the bridge's. */
  function SearchIds(current: Value, argument: Option<Value>): Value {
    if argument.Some? && Truthy(argument.value) then argument.value else current
  }

  /**
   * The `search_news` branch of `call_news_tool` for a dict of arguments: at most five
   * stories of the nuanced search, serialized, or the text of the exception raised on the way.
   */
  function SearchNews(ids: Value, args: seq<(string, Value)>, today: Date, news: NewsSource, cal: Calendar): (r: Result<Value>)
    ensures r.Ok? ==> r.value.VList? && |r.value.items| <= MaxToolStories && Serialization.Clean(r.value)
  {
    var query := QueryArg(Get(args, "query"), cal);
    match MaxStoriesArg(GetOr(args, "max_stories", VInt(MaxToolStories)))
    case Err(e) => Err(e)
    case Ok(maxStories) =>
      var searchIds := SearchIds(ids, Get(args, "collection_ids"));
      match Searched(searchIds, query, GetOr(args, "days_back", VInt(7)), maxStories, today, news)
      case Err(e) => Err(e)
      case Ok(stories) => Ok(Found(stories, cal))
  }

  /**
   * `search_nuanced_news(query, days_back, max_stories)` on a bridge whose ids are `ids`: the
   * pages of the window that ends `today` and starts `days_back` days earlier.
   */
  function Searched(ids: Value, query: Option<string>, daysBack: Value, maxStories: int, today: Date, news: NewsSource)
    : Result<seq<Value>>
  {
    match DaysBackArg(daysBack)
    case Err(e) => Err(e)
    case Ok(d) => Collected(news(NuancedQuery(query), StartDate(today, d), today, ids), maxStories)
  }

  /** The tool's successful result: the first five stories, serialized. */
  function Found(stories: seq<Value>, cal: Calendar): (r: Value)
    ensures r.VList? && |r.items| == Min(|stories|, MaxToolStories) && Serialization.Clean(r)
    ensures forall i :: 0 <= i < |r.items| ==> r.items[i] == Serialization.Serialize(stories[i], cal)
  {
    var found := VList(Take(stories, MaxToolStories));
    Serialization.SerializeClean(found, cal);
    Serialization.Serialize(found, cal)
  }

  /**
   * What `call_news_tool` returns or raises, for a bridge (if `configured`) whose
   * `collection_ids` is `ids`: the serialized list of at most five stories, or the text of
   * the `ValueError` it raises.
   */
  function NewsToolResult(configured: bool, ids: Value, funcName: string, args: Value, today: Date,
                          news: NewsSource, cal: Calendar): (r: Result<Value>)
    ensures !configured ==> r == Err(FetchFailed + NotConfigured)
    ensures configured && funcName != NewsToolName ==> r == Err(FetchFailed + ("Unsupported function call: " + funcName))
    ensures r.Err? ==> StartsWith(r.error, FetchFailed)
    ensures r.Ok? ==> configured && funcName == NewsToolName && args.VDict?
    ensures r.Ok? ==> r.value.VList? && |r.value.items| <= MaxToolStories && Serialization.Clean(r.value)
  {
    var result :=
      if !configured then Err(NotConfigured)
      else if funcName != NewsToolName then Err("Unsupported function call: " + funcName)
      else if !args.VDict? then Err("'" + TypeName(args) + "' object has no attribute 'get'")
      else SearchNews(ids, args.entries, today, news, cal);
    match result
    case Err(e) =>
      assert (FetchFailed + e)[..|FetchFailed|] == FetchFailed;
      Err(FetchFailed + e)
    case Ok(v) => Ok(v)
  }

  /** A request covers the window a usable `days_back` sets: from that many days before `today` up to `today`. */
  predicate InWindow(request: StoryRequest, today: Date, daysBack: Value) {
    && DaysBackArg(daysBack).Ok?
    && request.startDate == StartDate(today, DaysBackArg(daysBack).value)
    && request.endDate == today
  }

  /** The search `call_news_tool` runs: `search_nuanced_news(query, days_back, max_stories)` on the bridge as it stands. */
  method RunSearch(bridge: NewsBridge, query: Option<string>, daysBack: Value, maxStories: int, today: Date, news: NewsSource)
    returns (r: Result<seq<Value>>, sent: seq<StoryRequest>)
    ensures r == Searched(bridge.collectionIds, query, daysBack, maxStories, today, news)
    ensures DaysBackArg(daysBack).Err? ==> sent == []
    ensures forall j :: 0 <= j < |sent| ==> sent[j].query == NuancedQuery(query) && sent[j].collectionIds == bridge.collectionIds
    ensures forall j :: 0 <= j < |sent| ==>
      InWindow(sent[j], today, daysBack)
  {
    var days := DaysBackArg(daysBack);
    if days.Err? {
      return Err(days.error), [];
    }
    r, sent := bridge.SearchNuancedNews(query, days.value, maxStories, today, news(NuancedQuery(query), StartDate(today, days.value), today, bridge.collectionIds));
  }

  /**
   * A truthy `collection_ids` argument replaces the bridge's ids for this one search and is
   * put back afterwards, whether the search returns or raises; every request the search
   * sends carries the ids in force.
   */
  method SearchWithIds(bridge: NewsBridge, collectionIds: Option<Value>, query: Option<string>, daysBack: Value,
                       maxStories: int, today: Date, news: NewsSource)
    returns (r: Result<seq<Value>>, sent: seq<StoryRequest>)
    modifies bridge
    ensures bridge.collectionIds == old(bridge.collectionIds) && bridge.apiKey == old(bridge.apiKey)
    ensures r == Searched(SearchIds(old(bridge.collectionIds), collectionIds), query, daysBack, maxStories, today, news)
    ensures forall j :: 0 <= j < |sent| ==> sent[j].collectionIds == SearchIds(old(bridge.collectionIds), collectionIds)
    ensures forall j :: 0 <= j < |sent| ==>
      InWindow(sent[j], today, daysBack)
  {
    if collectionIds.Some? && Truthy(collectionIds.value) {
      var originalIds := bridge.collectionIds;
      bridge.collectionIds := collectionIds.value;
      r, sent := RunSearch(bridge, query, daysBack, maxStories, today, news);
      bridge.collectionIds := originalIds;
    } else {
      r, sent := RunSearch(bridge, query, daysBack, maxStories, today, news);
    }
  }

  /** The body of `call_news_tool` once the arguments are a dict. */
  method SearchWithArguments(bridge: NewsBridge, args: seq<(string, Value)>, today: Date, news: NewsSource, cal: Calendar)
    returns (r: Result<Value>, sent: seq<StoryRequest>)
    modifies bridge
    ensures bridge.collectionIds == old(bridge.collectionIds) && bridge.apiKey == old(bridge.apiKey)
    ensures r == SearchNews(old(bridge.collectionIds), args, today, news, cal)
    ensures forall j :: 0 <= j < |sent| ==>
      sent[j].collectionIds == SearchIds(old(bridge.collectionIds), Get(args, "collection_ids"))
    ensures forall j :: 0 <= j < |sent| ==>
      InWindow(sent[j], today, GetOr(args, "days_back", VInt(7)))
  {
    var query := QueryArg(Get(args, "query"), cal);
    var daysBack := GetOr(args, "days_back", VInt(7));
    var maxStories := MaxStoriesArg(GetOr(args, "max_stories", VInt(MaxToolStories)));
    if maxStories.Err? {
      return Err(maxStories.error), [];
    }
    var result;
    result, sent := SearchWithIds(bridge, Get(args, "collection_ids"), query, daysBack, maxStories.value, today, news);
    r := if result.Err? then Err(result.error) else Ok(Found(result.value, cal));
  }

  /** `call_news_tool(func_name, args)`; a missing bridge stands for an unset API key. */
  method CallNewsTool(bridge: NewsBridge?, funcName: string, args: Value, today: Date, news: NewsSource, cal: Calendar)
    returns (r: Result<Value>, sent: seq<StoryRequest>)
    modifies bridge
    ensures bridge != null ==> bridge.collectionIds == old(bridge.collectionIds) && bridge.apiKey == old(bridge.apiKey)
    ensures r == NewsToolResult(bridge != null, if bridge != null then old(bridge.collectionIds) else VNone,
                                funcName, args, today, news, cal)
    ensures sent != [] ==> bridge != null && funcName == NewsToolName && args.VDict?
    ensures forall j :: 0 <= j < |sent| ==>
      sent[j].collectionIds == SearchIds(old(bridge.collectionIds), Get(args.entries, "collection_ids"))
    ensures forall j :: 0 <= j < |sent| ==>
      InWindow(sent[j], today, GetOr(args.entries, "days_back", VInt(7)))
  {
    if bridge == null {
      return Err(FetchFailed + NotConfigured), [];
    }
    if funcName != NewsToolName {
      return Err(FetchFailed + ("Unsupported function call: " + funcName)), [];
    }
    if !args.VDict? {
      return Err(FetchFailed + ("'" + TypeName(args) + "' object has no attribute 'get'")), [];
    }
    var result;
    result, sent := SearchWithArguments(bridge, args.entries, today, news, cal);
    r := if result.Err? then Err(FetchFailed + result.error) else result;
  }

  // ---------------------------------------------------------------- process_query: heuristics

  /** The words that make a query a news request, on the HTTP 500 path and on the raw-tool-syntax path. */
  const FallbackKeywords: seq<string> := ["search", "find", "news", "stories", "article", "media", "latest", "recent"]
  const MarkerKeywords: seq<string> := FallbackKeywords + ["china", "usa", "latam"]

  /** The phrases removed from the query, in order, on each path. */
  const FallbackPhrases: seq<string> := ["search news about", "find stories about", "search", "news"]
  const MarkerPhrases: seq<string> :=
    ["please search news about", "search news about", "find stories about", "search", "news", "about"]

  /** No marker-path phrase is empty, so each can be removed from a query. */
  lemma MarkerPhrasesNonEmpty()
    ensures NonEmptyPhrases(MarkerPhrases)
  {
    assert MarkerPhrases[5] == "about";
  }

  /** The fragments of tool-call syntax that must not appear in a model's text. */
  const RawToolMarkers: seq<string> := [
    "tool\U{2581}calls\U{2581}begin", "tool_calls_begin", "\U{FF5C}tool\U{2581}call\U{2581}begin\U{FF5C}",
    "tool_call_begin", "<\U{FF5C}tool", "tool\U{2581}sep\U{FF5C}"]

  /** `any(keyword in query.lower() for keyword in keywords)`. */
  predicate AsksForNews(query: string, keywords: seq<string>) {
    ContainsAny(Lower(query), keywords)
  }

  /** `any(marker in content for marker in markers)`. */
  predicate HasRawToolSyntax(content: string) {
    ContainsAny(content, RawToolMarkers)
  }

  /** The raw-tool-syntax path recognises every query the HTTP 500 path recognises, and more. */
  lemma MarkerKeywordsExtendFallback(query: string)
    requires AsksForNews(query, FallbackKeywords)
    ensures AsksForNews(query, MarkerKeywords)
  {
    var k :| k in FallbackKeywords && Contains(Lower(query), k);
    assert k in MarkerKeywords;
  }

  /** The two keyword lists differ: "China" is a news request on the raw-tool-syntax path only. */
  lemma KeywordListsDiffer()
    ensures AsksForNews("China", MarkerKeywords) && !AsksForNews("China", FallbackKeywords)
  {
    assert Lower("China") == "china";
    ContainsSelf("china");
    assert "china" in MarkerKeywords;
    forall k | k in FallbackKeywords
      ensures !Contains("china", k)
    {
      ContainsIff("china", k);
    }
  }

  predicate NonEmptyPhrases(phrases: seq<string>) {
    forall i :: 0 <= i < |phrases| ==> phrases[i] != []
  }

  /**
   * The search query the manual search uses: the lower-cased query with the phrases removed
   * in order and the whitespace stripped, or the query itself when nothing is left.
   */
  function CleanQuery(query: string, phrases: seq<string>): (r: string)
    requires NonEmptyPhrases(phrases)
    ensures query != [] ==> r != []
    ensures Strip(RemoveEach(Lower(query), phrases)) == [] ==> r == query
    ensures r != query ==> r != [] && IsLowercase(r) && Strip(r) == r
  {
    var cleaned := Strip(RemoveEach(Lower(query), phrases));
    if cleaned == [] then query
    else
      LowerIsLowercase(query);
      RemoveEachLowercase(Lower(query), phrases);
      StripLowercase(RemoveEach(Lower(query), phrases));
      StripIdempotent(RemoveEach(Lower(query), phrases));
      cleaned
  }

  /** A query already in its cleaned form (lower case, no surrounding space, none of the phrases) is kept. */
  lemma CleanQueryKeepsClean(query: string, phrases: seq<string>)
    requires NonEmptyPhrases(phrases)
    requires query != [] && IsLowercase(query) && !IsSpace(query[0]) && !IsSpace(query[|query| - 1])
    requires forall i :: 0 <= i < |phrases| ==> !Contains(query, phrases[i])
    ensures CleanQuery(query, phrases) == query
  {
    LowerFixedIff(query);
    RemoveEachAbsent(query, phrases);
    StripUnpadded(query);
  }

  /** A query made of the first phrase, a space and a clean subject cleans to that subject. */
  lemma CleanQueryDropsLeadingPhrase(subject: string, phrases: seq<string>)
    requires NonEmptyPhrases(phrases) && phrases != [] && IsLowercase(phrases[0])
    requires forall i :: 0 <= i < |phrases| ==> phrases[i][0] != ' ' && !Contains(subject, phrases[i])
    requires subject != [] && IsLowercase(subject) && !IsSpace(subject[0]) && !IsSpace(subject[|subject| - 1])
    ensures CleanQuery(phrases[0] + " " + subject, phrases) == subject
  {
    LeadingPhraseRemoved(subject, phrases);
    CleanQueryCleaned(phrases[0] + " " + subject, phrases);
  }

  lemma {:induction false} LeadingPhraseRemoved(subject: string, phrases: seq<string>)
    requires NonEmptyPhrases(phrases) && phrases != [] && IsLowercase(phrases[0])
    requires forall i :: 0 <= i < |phrases| ==> phrases[i][0] != ' ' && !Contains(subject, phrases[i])
    requires subject != [] && IsLowercase(subject) && !IsSpace(subject[0]) && !IsSpace(subject[|subject| - 1])
    ensures Strip(RemoveEach(Lower(phrases[0] + " " + subject), phrases)) == subject
  {
    var q := phrases[0] + " " + subject;
    var t := " " + subject;
    LowercaseSpaced(phrases[0], subject);
    LowerFixedIff(q);
    SpacedAbsentAll(subject, phrases);
    RemoveLeading(phrases[0], t);
    assert q == phrases[0] + t;
    RemoveAllAbsent(t, phrases[0]);
    RemoveEachAbsent(t, phrases[1..]);
    StripSpaced(subject);
  }

  lemma SpacedAbsentAll(subject: string, phrases: seq<string>)
    requires NonEmptyPhrases(phrases) && phrases != []
    requires forall i :: 0 <= i < |phrases| ==> phrases[i][0] != ' ' && !Contains(subject, phrases[i])
    ensures !Contains(" " + subject, phrases[0])
    ensures forall i :: 0 <= i < |phrases[1..]| ==> phrases[1..][i] != [] && !Contains(" " + subject, phrases[1..][i])
  {
    forall i | 0 <= i < |phrases| ensures !Contains(" " + subject, phrases[i]) {
      SpacedAbsent(subject, phrases[i]);
    }
    forall i | 0 <= i < |phrases[1..]| ensures phrases[1..][i] == phrases[i + 1] {
    }
  }

  /** When anything is left after the removals, the search query is what is left. */
  lemma CleanQueryCleaned(query: string, phrases: seq<string>)
    requires NonEmptyPhrases(phrases) && Strip(RemoveEach(Lower(query), phrases)) != []
    ensures CleanQuery(query, phrases) == Strip(RemoveEach(Lower(query), phrases))
  {
  }

  lemma LowercaseSpaced(p: string, subject: string)
    requires IsLowercase(p) && IsLowercase(subject)
    ensures IsLowercase(p + " " + subject)
  {
    var q := p + " " + subject;
    forall i | 0 <= i < |q| ensures !IsUpper(q[i]) {
      if i >= |p| + 1 {
        assert q[i] == subject[i - |p| - 1];
      } else if i < |p| {
        assert q[i] == p[i];
      }
    }
  }

  /** A phrase that does not start with a space and is absent from `subject` is absent from `" " + subject`. */
  lemma SpacedAbsent(subject: string, p: string)
    requires p != [] && p[0] != ' ' && !Contains(subject, p)
    ensures !Contains(" " + subject, p)
  {
    var t := " " + subject;
    assert t[1..] == subject;
    assert t[0] != p[0];
  }

  /** A leading occurrence of `p` is removed first. */
  lemma RemoveLeading(p: string, t: string)
    requires p != []
    ensures RemoveAll(p + t, p) == RemoveAll(t, p)
  {
    var q := p + t;
    assert q[..|p|] == p && q[|p|..] == t;
  }

  lemma StripSpaced(subject: string)
    requires subject != [] && !IsSpace(subject[0]) && !IsSpace(subject[|subject| - 1])
    ensures Strip(" " + subject) == subject
  {
    var t := " " + subject;
    assert t[1..] == subject;
    assert TrimStart(t) == TrimStart(subject);
    StripUnpadded(subject);
  }

  /**
   * Each phrase is removed in one left-to-right pass, as `str.replace` does, so a removal can
   * bring a phrase together again: "newnewss" cleans to "news".
   */
  lemma {:induction false} CleanQueryCanKeepPhrase(query: string)
    requires query == "newnewss"
    ensures NonEmptyPhrases(FallbackPhrases)
    ensures CleanQuery(query, FallbackPhrases) == "news"
    ensures Contains(CleanQuery(query, FallbackPhrases), FallbackPhrases[3])
  {
    NewsPhrasesRemoved(query);
    var left := RemoveEach(Lower(query), FallbackPhrases);
    assert left[0] == 'n' && left[|left| - 1] == 's';
    StripUnpadded(left);
    CleanQueryCleaned(query, FallbackPhrases);
    assert FallbackPhrases[3] == left;
    ContainsSelf(left);
  }

  lemma {:induction false} NewsPhrasesRemoved(q: string)
    requires q == "newnewss"
    ensures RemoveEach(Lower(q), FallbackPhrases) == "news"
  {
    LowerFixedIff(q);
    assert Lower(q) == q;
    var f := FallbackPhrases;
    assert f[3] == "news";
    LeadingPhrasesAbsent(q);
    RemoveAllAbsent(q, f[0]);
    RemoveAllAbsent(q, f[1]);
    RemoveAllAbsent(q, f[2]);
    assert RemoveEach(q, f) == RemoveAll(q, f[3]);
    RemoveNewsStep(q);
  }

  /** None of the first three fallback phrases occurs in "newnewss". */
  lemma {:induction false} LeadingPhrasesAbsent(q: string)
    requires q == "newnewss"
    ensures !Contains(q, FallbackPhrases[0]) && !Contains(q, FallbackPhrases[1]) && !Contains(q, FallbackPhrases[2])
  {
    var f := FallbackPhrases;
    assert |f[0]| > |q| && |f[1]| > |q| && f[2] == "search";
    ContainsIff(q, f[0]);
    ContainsIff(q, f[1]);
    ContainsIff(q, f[2]);
    assert q[0] == 'n' && q[1] == 'e' && q[2] == 'w' && f[2][0] == 's';
    forall i | 0 <= i <= |q| - |f[2]| ensures !OccursAt(q, f[2], i) {
      assert q[i..i + |f[2]|][0] == q[i];
    }
  }

  /** The one-pass removal of "news" from "newnewss", character by character. */
  lemma {:induction false} RemoveNewsStep(q: string)
    requires q == "newnewss"
    ensures RemoveAll(q, "news") == "news"
  {
    var p := "news";
    assert RemoveAll(q[7..], p) == "s";
    assert StartsWith(q[3..], p);
    assert RemoveAll(q[3..], p) == "s";
    assert RemoveAll(q[2..], p) == "ws";
    assert RemoveAll(q[1..], p) == "ews";
  }

  // ---------------------------------------------------------------- process_query: story listing

  const FoundHeader: string := "I found these relevant news stories for you:\n\n"
  const NothingFound: string :=
    "I searched for news but couldn't find relevant stories at this time. Please try again with different keywords."

  /** `f"{story.get(key, default)}"`. */
  function Field(story: seq<(string, Value)>, key: string, default: string, cal: Calendar): string {
    PyStr(GetOr(story, key, VStr(default)), cal)
  }

  function TitleLine(n: int, story: seq<(string, Value)>, cal: Calendar): string {
    "**" + IntToString(n) + ". " + Field(story, "title", "No Title", cal) + "**\n"
  }

  function SourceLine(story: seq<(string, Value)>, cal: Calendar): string {
    "- **Source:** " + Field(story, "media_name", "Unknown source", cal) + "\n"
  }

  function DateLine(story: seq<(string, Value)>, cal: Calendar): string {
    "- **Date:** " + Field(story, "publish_date", "Unknown date", cal) + "\n"
  }

  function LinkLine(story: seq<(string, Value)>, cal: Calendar): string {
    "- **Link:** " + Field(story, "url", "No URL", cal) + "\n\n"
  }

  /** The Markdown block of the story numbered `n`. */
  function StoryBlock(n: int, story: seq<(string, Value)>, cal: Calendar): string {
    TitleLine(n, story, cal) + SourceLine(story, cal) + DateLine(story, cal) + LinkLine(story, cal)
  }

  /** What the `i`-th result (0-based) adds: a block numbered `i + 1` for a dict, nothing otherwise. */
  function Entry(i: int, v: Value, cal: Calendar): string {
    if v.VDict? then StoryBlock(i + 1, v.entries, cal) else ""
  }

  /** The header followed by the entries of `stories`, in order. */
  function Listing(stories: seq<Value>, cal: Calendar): string
    decreases |stories|
  {
    if stories == [] then FoundHeader
    else Listing(stories[..|stories| - 1], cal) + Entry(|stories| - 1, stories[|stories| - 1], cal)
  }

  /** The reply to a successful manual search. */
  function StoriesAnswer(stories: seq<Value>, cal: Calendar): string {
    if stories == [] then NothingFound else Listing(stories, cal)
  }

  lemma AppendFour(s: string, a: string, b: string, c: string, d: string)
    ensures s + a + b + c + d == s + (a + b + c + d)
  {
  }

  /** The four `response +=` lines of one story. */
  method AppendStory(response: string, n: int, story: seq<(string, Value)>, cal: Calendar) returns (r: string)
    ensures r == response + StoryBlock(n, story, cal)
  {
    var title := TitleLine(n, story, cal);
    var source := SourceLine(story, cal);
    var date := DateLine(story, cal);
    var link := LinkLine(story, cal);
    r := response + title;
    r := r + source;
    r := r + date;
    r := r + link;
    AppendFour(response, title, source, date, link);
  }

  /** One more result extends the listing by its entry. */
  lemma ListingStep(stories: seq<Value>, i: int, cal: Calendar)
    requires 0 <= i < |stories|
    ensures Listing(stories[..i + 1], cal) == Listing(stories[..i], cal) + Entry(i, stories[i], cal)
  {
    assert stories[..i + 1][..i] == stories[..i];
  }

  /** The `if manual_result: ... for i, story in enumerate(manual_result, 1)` rendering. */
  method FormatStories(stories: seq<Value>, cal: Calendar) returns (response: string)
    ensures response == StoriesAnswer(stories, cal)
  {
    if stories == [] {
      return NothingFound;
    }
    response := FoundHeader;
    for i := 0 to |stories|
      invariant response == Listing(stories[..i], cal)
    {
      ListingStep(stories, i, cal);
      if stories[i].VDict? {
        response := AppendStory(response, i + 1, stories[i].entries, cal);
      }
    }
    assert stories[..|stories|] == stories;
  }

  /** The listing opens with its header. */
  lemma {:induction false} ListingOpens(stories: seq<Value>, cal: Calendar)
    ensures StartsWith(Listing(stories, cal), FoundHeader)
    decreases |stories|
  {
    if stories != [] {
      var init := stories[..|stories| - 1];
      ListingOpens(init, cal);
      StartsWithAppend(Listing(init, cal), Entry(|stories| - 1, stories[|stories| - 1], cal), FoundHeader);
    }
  }

  /**
   * Every dict among the stories is listed with the number of its position, counting from 1,
   * so entries that are not dicts still use up their number.
   */
  lemma {:induction false} ListingShowsStory(stories: seq<Value>, i: int, cal: Calendar)
    requires 0 <= i < |stories| && stories[i].VDict?
    ensures Contains(Listing(stories, cal), StoryBlock(i + 1, stories[i].entries, cal))
    decreases |stories|
  {
    var init := stories[..|stories| - 1];
    var last := Entry(|stories| - 1, stories[|stories| - 1], cal);
    if i == |stories| - 1 {
      ContainsSelf(last);
      ContainsInRight(Listing(init, cal), last, last);
    } else {
      assert init[i] == stories[i];
      ListingShowsStory(init, i, cal);
      ContainsInLeft(Listing(init, cal), last, StoryBlock(i + 1, stories[i].entries, cal));
    }
  }

  /** Without a single dict the listing is the header alone. */
  lemma {:induction false} ListingWithoutDicts(stories: seq<Value>, cal: Calendar)
    requires forall i :: 0 <= i < |stories| ==> !stories[i].VDict?
    ensures Listing(stories, cal) == FoundHeader
    decreases |stories|
  {
    if stories != [] {
      ListingWithoutDicts(stories[..|stories| - 1], cal);
    }
  }

  /** A story without a title, source, date or link shows the placeholder instead. */
  lemma MissingFieldsShowPlaceholders(n: int, story: seq<(string, Value)>, cal: Calendar)
    requires "title" !in Keys(story) && "media_name" !in Keys(story)
    requires "publish_date" !in Keys(story) && "url" !in Keys(story)
    ensures StoryBlock(n, story, cal) ==
      "**" + IntToString(n) + ". " + "No Title" + "**\n" + ("- **Source:** " + "Unknown source" + "\n")
      + ("- **Date:** " + "Unknown date" + "\n") + ("- **Link:** " + "No URL" + "\n\n")
  {
  }

  // ---------------------------------------------------------------- process_query: the chat exchange

  /** One entry of a model message's `tool_calls`: its id, function name and JSON argument text. */
  datatype ToolCall = ToolCall(id: string, name: string, arguments: Option<string>)

  /** The `content` of a model message: text, JSON `null`, or no such key. */
  datatype Content = Text(text: string) | Null | Absent

  /** `choices[0].message` of a chat completion; a `null` or missing `tool_calls` is the empty list. */
  datatype ModelMessage = ModelMessage(content: Content, toolCalls: seq<ToolCall>)

  datatype Message =
    | SystemMessage(system: string)
    | UserMessage(user: string)
    | AssistantMessage(message: ModelMessage)
    /** `{"role": "tool", "tool_call_id": ..., "content": json.dumps(payload)}`. */
    | ToolMessage(toolCallId: string, payload: Value)

  /** A chat-completion request: its messages, and whether the tool schema is offered. */
  datatype Request = Request(messages: seq<Message>, withTools: bool)

  /**
   * The response to a request: status code, reason phrase, and `json()["choices"][0]["message"]`
   * or the text of the exception that lookup raises.
   */
  datatype Reply = Reply(status: int, reason: string, body: Result<ModelMessage>)

  /** What the news tool works with: whether a bridge is configured, its ids, the clock, the archive. */
  datatype NewsTool = NewsTool(configured: bool, ids: Value, today: Date, news: NewsSource, cal: Calendar)

  /** The chat service answers each request by a function of it; `json.loads` is `decode`. */
  datatype Env = Env(tool: NewsTool, llm: Request -> Reply, decode: string -> Result<Value>)

  /** What `process_query` returns (`None` when it returns a JSON `null` content) and the requests it sent. */
  datatype Answer = Answer(answer: Option<string>, requests: seq<Request>)

  const EnhanceSeparator: string := "\n\n--- PHILOSOPHICAL ANALYSIS ---\n"
  const Apology: string :=
    "I apologize, but there was an issue with processing your request. Please try rephrasing your question or try again."
  const ErrorPrefix: string := "An error occurred: "
  /** The `TypeError` of `marker in None`. */
  const NoneNotIterable: string := "argument of type 'NoneType' is not iterable"
  /** The `KeyError` of a message without `content`. */
  const NoContent: string := "'content'"
  /** The `TypeError` of `json.dumps` on a value it cannot encode. */
  const NotSerializable: string := "Object is not JSON serializable"
  const CompletionsUrl: string := "https://api.asi1.ai/v1/chat/completions"

  function TechnicalDifficulties(status: int): string {
    "I'm experiencing technical difficulties with the AI service (Error " + IntToString(status) + "). Please try again in a moment."
  }

  /** The `HTTPError` text of `raise_for_status()` for a 4xx or 5xx status. */
  function HttpError(status: int, reason: string): string {
    IntToString(status) + (if status < 500 then " Client Error: " else " Server Error: ") + reason + " for url: " + CompletionsUrl
  }

  /**
   * The system message and the user's query enhanced with the philosophical inquiry. The
   * system text is the framework's critical-thinking prompt (`PF.GetCriticalThinkingPrompt`).
   */
  function Opening(system: string, builder: CB.BridgeBuilder, query: string, matches: CB.Matcher): seq<Message> {
    var identified := CB.Analysis(builder.stereotypePatterns, query, matches);
    var inquiry := CB.Inquiry(identified, CB.Framings(identified));
    [SystemMessage(system), UserMessage(query + EnhanceSeparator + inquiry)]
  }

  /** `reply.json()["choices"][0]["message"]["content"]`, returned as it is. */
  function ContentAnswer(body: Result<ModelMessage>): (r: Option<string>)
    ensures r.None? <==> body.Ok? && body.value.content.Null?
    ensures body.Ok? && body.value.content.Text? ==> r == Some(body.value.content.text)
  {
    match body
    case Err(e) => Some(ErrorPrefix + e)
    case Ok(m) =>
      match m.content
      case Text(t) => Some(t)
      case Null => None
      case Absent => Some(ErrorPrefix + NoContent)
  }

  /** `raise_for_status()`, then the content. */
  function CheckedAnswer(reply: Reply): (r: Option<string>)
    ensures 400 <= reply.status < 600 ==> r == Some(ErrorPrefix + HttpError(reply.status, reply.reason))
    ensures r.None? <==> !(400 <= reply.status < 600) && reply.body.Ok? && reply.body.value.content.Null?
  {
    if 400 <= reply.status < 600 then Some(ErrorPrefix + HttpError(reply.status, reply.reason))
    else ContentAnswer(reply.body)
  }

  /**
   * The manual news search of the HTTP 500 and raw-tool-syntax paths: `None` when the query
   * asks for no news or the search raises, and the rendered stories otherwise.
   */
  function ManualAnswer(tool: NewsTool, query: string, keywords: seq<string>, phrases: seq<string>): (r: Option<string>)
    requires NonEmptyPhrases(phrases)
    ensures r.Some? ==> AsksForNews(query, keywords) && tool.configured
  {
    if !AsksForNews(query, keywords) then None
    else
      var args := VDict([("query", VStr(CleanQuery(query, phrases)))]);
      match NewsToolResult(tool.configured, tool.ids, NewsToolName, args, tool.today, tool.news, tool.cal)
      case Ok(found) => Some(StoriesAnswer(found.items, tool.cal))
      case Err(_) => None
  }

  /** `tool_call["function"]["arguments"] or "{}"`. */
  function ArgumentsText(arguments: Option<string>): string {
    if arguments.None? || arguments.value == [] then "{}" else arguments.value
  }

  function Decoded(decode: string -> Result<Value>, call: ToolCall): Result<Value> {
    decode(ArgumentsText(call.arguments))
  }

  /** The payload a failed tool call contributes instead of raising. */
  function Failure(error: string, name: string): (r: Value)
    ensures r.VDict? && Keys(r.entries) == ["error", "status", "tool"]
    ensures Get(r.entries, "error") == Some(VStr(FormatErrorResponse(error)))
    ensures Get(r.entries, "status") == Some(VStr("failed"))
    ensures Get(r.entries, "tool") == Some(VStr(name))
  {
    var last := [("tool", VStr(name))];
    var entries := [("error", VStr(FormatErrorResponse(error))), ("status", VStr("failed"))] + last;
    assert entries[1..][1..] == last;
    assert Get(entries, "tool") == Get(entries[1..], "tool") == Get(last, "tool");
    VDict(entries)
  }

  /** The tool dispatch: `search_news` goes to the news tool, any other name raises. */
  function ToolOutcome(tool: NewsTool, name: string, args: Value): Result<Value> {
    if name == NewsToolName then NewsToolResult(tool.configured, tool.ids, name, args, tool.today, tool.news, tool.cal)
    else Err("Unsupported tool: " + name)
  }

  /**
   * What the tool message carries: the tool's result when it encodes, and otherwise the
   * failure payload with the error, `"status": "failed"` and the tool's name.
   */
  function ToolPayload(name: string, outcome: Result<Value>): (r: Value)
    ensures JsonEncodable(r)
    ensures outcome.Ok? && JsonEncodable(outcome.value) ==> r == outcome.value
    ensures outcome.Err? ==> r == Failure(outcome.error, name)
    ensures outcome.Ok? && !JsonEncodable(outcome.value) ==> r == Failure(NotSerializable, name)
  {
    match outcome
    case Ok(v) => if JsonEncodable(v) then v else Failure(NotSerializable, name)
    case Err(e) => Failure(e, name)
  }

  function ToolReply(tool: NewsTool, call: ToolCall, args: Value): Message {
    ToolMessage(call.id, ToolPayload(call.name, ToolOutcome(tool, call.name, args)))
  }

  /** `Ok(prefix + ms)` for `Ok(ms)`; an error stays. */
  function Prefixed(prefix: seq<Message>, r: Result<seq<Message>>): Result<seq<Message>> {
    match r
    case Ok(ms) => Ok(prefix + ms)
    case Err(e) => Err(e)
  }

  /**
   * The tool messages of the tool-call loop, one per call and in order, or the error of
   * the first call whose arguments do not decode, which ends the query.
   */
  function ToolMessages(tool: NewsTool, decode: string -> Result<Value>, calls: seq<ToolCall>): (r: Result<seq<Message>>)
    ensures r.Ok? <==> forall i :: 0 <= i < |calls| ==> Decoded(decode, calls[i]).Ok?
    ensures r.Ok? ==> |r.value| == |calls|
    decreases |calls|
  {
    if calls == [] then Ok([])
    else
      match Decoded(decode, calls[0])
      case Err(e) => Err(e)
      case Ok(args) =>
        var rest := ToolMessages(tool, decode, calls[1..]);
        if rest.Err? then Err(rest.error)
        else
          Ok([ToolReply(tool, calls[0], args)] + rest.value)
  }

  /** The `i`-th tool message answers the `i`-th call, with its decoded arguments. */
  lemma {:induction false} ToolMessagesAt(tool: NewsTool, decode: string -> Result<Value>, calls: seq<ToolCall>, i: int)
    requires ToolMessages(tool, decode, calls).Ok? && 0 <= i < |calls|
    ensures ToolMessages(tool, decode, calls).value[i] == ToolReply(tool, calls[i], Decoded(decode, calls[i]).value)
    decreases |calls|
  {
    var head := ToolReply(tool, calls[0], Decoded(decode, calls[0]).value);
    var rest := ToolMessages(tool, decode, calls[1..]);
    assert ToolMessages(tool, decode, calls).value == [head] + rest.value;
    if i > 0 {
      ToolMessagesAt(tool, decode, calls[1..], i - 1);
      assert calls[1..][i - 1] == calls[i];
    }
  }

  /** A failed tool loop reports the error of the first call whose arguments do not decode. */
  lemma {:induction false} ToolMessagesFirstError(tool: NewsTool, decode: string -> Result<Value>, calls: seq<ToolCall>)
    requires ToolMessages(tool, decode, calls).Err?
    ensures exists k :: 0 <= k < |calls| && Decoded(decode, calls[k]) == Err(ToolMessages(tool, decode, calls).error)
                        && forall j :: 0 <= j < k ==> Decoded(decode, calls[j]).Ok?
    decreases |calls|
  {
    var r := ToolMessages(tool, decode, calls);
    if Decoded(decode, calls[0]).Err? {
      assert Decoded(decode, calls[0]) == Err(r.error);
    } else {
      var rest := calls[1..];
      ToolMessagesFirstError(tool, decode, rest);
      var k :| 0 <= k < |rest| && Decoded(decode, rest[k]) == Err(ToolMessages(tool, decode, rest).error)
               && forall j :: 0 <= j < k ==> Decoded(decode, rest[j]).Ok?;
      assert calls[k + 1] == rest[k];
      assert forall j :: 1 <= j < k + 1 ==> calls[j] == rest[j - 1];
    }
  }

  lemma PrefixedAppend(ms: seq<Message>, m: Message, r: Result<seq<Message>>)
    ensures Prefixed(ms, Prefixed([m], r)) == Prefixed(ms + [m], r)
  {
    if r.Ok? {
      assert ms + ([m] + r.value) == ms + [m] + r.value;
    }
  }

  /** One step of the tool-call loop. */
  lemma ToolMessagesStep(tool: NewsTool, decode: string -> Result<Value>, calls: seq<ToolCall>, i: int)
    requires 0 <= i < |calls|
    ensures Decoded(decode, calls[i]).Err? ==> ToolMessages(tool, decode, calls[i..]) == Err(Decoded(decode, calls[i]).error)
    ensures Decoded(decode, calls[i]).Ok? ==>
      ToolMessages(tool, decode, calls[i..])
      == Prefixed([ToolReply(tool, calls[i], Decoded(decode, calls[i]).value)], ToolMessages(tool, decode, calls[i + 1..]))
  {
    assert calls[i..][1..] == calls[i + 1..];
  }

  /** `manual_result = await call_news_tool("search_news", {"query": search_query}, ctx)` and its rendering. */
  method ManualSearch(bridge: NewsBridge?, query: string, keywords: seq<string>, phrases: seq<string>,
                      today: Date, news: NewsSource, cal: Calendar) returns (answer: Option<string>)
    requires NonEmptyPhrases(phrases)
    modifies bridge
    ensures bridge != null ==> bridge.collectionIds == old(bridge.collectionIds) && bridge.apiKey == old(bridge.apiKey)
    ensures answer == ManualAnswer(NewsTool(bridge != null, if bridge != null then old(bridge.collectionIds) else VNone,
                                            today, news, cal), query, keywords, phrases)
  {
    if !AsksForNews(query, keywords) {
      return None;
    }
    var searchQuery := CleanQuery(query, phrases);
    var manualResult, sent := CallNewsTool(bridge, NewsToolName, VDict([("query", VStr(searchQuery))]), today, news, cal);
    if manualResult.Err? {
      return None;
    }
    var formatted := FormatStories(manualResult.value.items, cal);
    answer := Some(formatted);
  }

  /** The body of the tool-call loop once the arguments are decoded: the tool message of one call. */
  method RunToolCall(bridge: NewsBridge?, call: ToolCall, args: Value, today: Date, news: NewsSource, cal: Calendar)
    returns (m: Message)
    modifies bridge
    ensures bridge != null ==> bridge.collectionIds == old(bridge.collectionIds) && bridge.apiKey == old(bridge.apiKey)
    ensures m == ToolReply(NewsTool(bridge != null, if bridge != null then old(bridge.collectionIds) else VNone,
                                    today, news, cal), call, args)
  {
    var outcome;
    if call.name == NewsToolName {
      var sent;
      outcome, sent := CallNewsTool(bridge, call.name, args, today, news, cal);
    } else {
      outcome := Err("Unsupported tool: " + call.name);
    }
    m := ToolMessage(call.id, ToolPayload(call.name, outcome));
  }

  /** The `for tool_call in tool_calls` loop, appending one tool message per call to `history`. */
  method RunToolCalls(bridge: NewsBridge?, history: seq<Message>, calls: seq<ToolCall>, decode: string -> Result<Value>,
                      today: Date, news: NewsSource, cal: Calendar) returns (r: Result<seq<Message>>)
    modifies bridge
    ensures bridge != null ==> bridge.collectionIds == old(bridge.collectionIds) && bridge.apiKey == old(bridge.apiKey)
    ensures r == Prefixed(history, ToolMessages(NewsTool(bridge != null, if bridge != null then old(bridge.collectionIds) else VNone,
                                                         today, news, cal), decode, calls))
  {
    ghost var tool := NewsTool(bridge != null, if bridge != null then bridge.collectionIds else VNone, today, news, cal);
    var messages := history;
    for i := 0 to |calls|
      invariant bridge != null ==> bridge.collectionIds == old(bridge.collectionIds) && bridge.apiKey == old(bridge.apiKey)
      invariant Prefixed(history, ToolMessages(tool, decode, calls)) == Prefixed(messages, ToolMessages(tool, decode, calls[i..]))
    {
      ToolMessagesStep(tool, decode, calls, i);
      var arguments := decode(ArgumentsText(calls[i].arguments));
      if arguments.Err? {
        assert ToolMessages(tool, decode, calls[i..]) == Err(arguments.error);
        return Err(arguments.error);
      }
      var m := RunToolCall(bridge, calls[i], arguments.value, today, news, cal);
      PrefixedAppend(messages, m, ToolMessages(tool, decode, calls[i + 1..]));
      messages := messages + [m];
    }
    assert calls[|calls|..] == [];
    assert ToolMessages(tool, decode, calls[|calls|..]) == Ok([]);
    assert messages + [] == messages;
    r := Ok(messages);
  }

  /** `process_query` after a first response whose status is not 200. */
  function FailedOpening(env: Env, opening: seq<Message>, query: string, status: int): (r: Answer)
    ensures |r.requests| >= 1 && r.requests[0] == Request(opening, true)
  {
    var first := Request(opening, true);
    if status != 500 then Answer(Some(TechnicalDifficulties(status)), [first])
    else
      match ManualAnswer(env.tool, query, FallbackKeywords, FallbackPhrases)
      case Some(stories) => Answer(Some(stories), [first])
      case None =>
        var second := Request(opening, false);
        var fallback := env.llm(second);
        Answer(if fallback.status == 200 then ContentAnswer(fallback.body) else Some(TechnicalDifficulties(status)),
                [first, second])
  }

  /** `model_msg.get("content", "")`: `None` for a JSON `null`. */
  function ContentText(content: Content): Option<string> {
    match content
    case Text(t) => Some(t)
    case Null => None
    case Absent => Some("")
  }

  /** `process_query` after a first response with status 200 whose message decoded to `m`. */
  function AnsweredOpening(env: Env, opening: seq<Message>, query: string, m: ModelMessage): (r: Answer)
    ensures |r.requests| >= 1 && r.requests[0] == Request(opening, true)
  {
    match ContentText(m.content)
    case None => Answer(Some(ErrorPrefix + NoneNotIterable), [Request(opening, true)])
    case Some(content) =>
      if HasRawToolSyntax(content) then
        var manual := ManualAnswer(env.tool, query, MarkerKeywords, MarkerPhrases);
        Answer(Some(if manual.Some? then manual.value else Apology), [Request(opening, true)])
      else ToolCallsAnswer(env, opening, m)
  }

  /** `process_query` once the content has passed the marker check: the tool calls, if any, and the follow-up request. */
  function ToolCallsAnswer(env: Env, opening: seq<Message>, m: ModelMessage): (r: Answer)
    ensures |r.requests| >= 1 && r.requests[0] == Request(opening, true)
  {
    var first := Request(opening, true);
    if m.toolCalls == [] then
      var second := Request(opening, false);
      Answer(CheckedAnswer(env.llm(second)), [first, second])
    else
      match ToolMessages(env.tool, env.decode, m.toolCalls)
      case Err(e) => Answer(Some(ErrorPrefix + e), [first])
      case Ok(ms) =>
        var second := Request(opening + [AssistantMessage(m)] + ms, false);
        Answer(CheckedAnswer(env.llm(second)), [first, second])
  }

  /**
   * What `process_query` returns for the opening messages, and the chat requests it sends.
   * It never raises: every path ends in a text, or in `None` when a final reply's content is `null`.
   */
  function Respond(env: Env, opening: seq<Message>, query: string): (r: Answer)
    ensures 1 <= |r.requests| <= 2 && r.requests[0] == Request(opening, true)
    ensures |r.requests| == 2 ==> !r.requests[1].withTools
    ensures r.answer.None? ==> |r.requests| == 2 && var last := env.llm(r.requests[1]);
                               last.body.Ok? && last.body.value.content.Null?
  {
    var reply := env.llm(Request(opening, true));
    if reply.status != 200 then FailedOpening(env, opening, query, reply.status)
    else
      match reply.body
      case Err(e) => Answer(Some(ErrorPrefix + e), [Request(opening, true)])
      case Ok(m) => AnsweredOpening(env, opening, query, m)
  }

  /** A first status other than 200 and 500 ends the query with the technical-difficulty message. */
  lemma RespondTechnicalDifficulties(env: Env, opening: seq<Message>, query: string)
    requires env.llm(Request(opening, true)).status !in {200, 500}
    ensures Respond(env, opening, query) ==
      Answer(Some(TechnicalDifficulties(env.llm(Request(opening, true)).status)), [Request(opening, true)])
  {
  }

  /**
   * On a status 500, a news query whose manual search succeeds is answered with the stories
   * and no second request; otherwise the query is retried once without tools.
   */
  lemma RespondServerError(env: Env, opening: seq<Message>, query: string)
    requires env.llm(Request(opening, true)).status == 500
    ensures var manual := ManualAnswer(env.tool, query, FallbackKeywords, FallbackPhrases);
            var r := Respond(env, opening, query);
            && (manual.Some? ==> r == Answer(manual, [Request(opening, true)]))
            && (manual.None? ==> r.requests == [Request(opening, true), Request(opening, false)])
            && (manual.None? && env.llm(Request(opening, false)).status != 200 ==> r.answer == Some(TechnicalDifficulties(500)))
  {
  }

  /**
   * Raw tool syntax in the content is handled before any tool call: one request only, the
   * stories of a manual search, or the apology when the query asks for no news or the search raises.
   */
  lemma RespondRawToolSyntax(env: Env, opening: seq<Message>, query: string, m: ModelMessage)
    requires env.llm(Request(opening, true)) .status == 200
    requires env.llm(Request(opening, true)).body == Ok(m)
    requires m.content.Text? && HasRawToolSyntax(m.content.text)
    ensures var r := Respond(env, opening, query);
            && r.requests == [Request(opening, true)]
            && (MarkerPhrasesNonEmpty(); ManualAnswer(env.tool, query, MarkerKeywords, MarkerPhrases).None? ==> r.answer == Some(Apology))
            && (!AsksForNews(query, MarkerKeywords) ==> r.answer == Some(Apology))
  {
  }

  /** A `null` content fails the marker check, which ends the query with the `TypeError` text. */
  lemma RespondNullContent(env: Env, opening: seq<Message>, query: string, m: ModelMessage)
    requires env.llm(Request(opening, true)).status == 200
    requires env.llm(Request(opening, true)).body == Ok(m) && m.content.Null?
    ensures Respond(env, opening, query) == Answer(Some(ErrorPrefix + NoneNotIterable), [Request(opening, true)])
  {
  }

  /** Past the marker check, the tool path answers as the tool calls select. */
  lemma RespondPastMarkers(env: Env, opening: seq<Message>, query: string, m: ModelMessage)
    requires env.llm(Request(opening, true)).status == 200
    requires env.llm(Request(opening, true)).body == Ok(m)
    requires m.content.Absent? || (m.content.Text? && !HasRawToolSyntax(m.content.text))
    ensures Respond(env, opening, query) == ToolCallsAnswer(env, opening, m)
  {
    assert Respond(env, opening, query) == AnsweredOpening(env, opening, query, m);
  }

  /**
   * With tool calls, the follow-up request carries the opening, the model's message and one
   * tool message per call, in order; a call whose tool fails carries the failure payload.
   */
  lemma RespondToolHistory(env: Env, opening: seq<Message>, query: string, m: ModelMessage)
    requires env.llm(Request(opening, true)).status == 200
    requires env.llm(Request(opening, true)).body == Ok(m)
    requires m.content.Absent? || (m.content.Text? && !HasRawToolSyntax(m.content.text))
    requires m.toolCalls != []
    requires forall i :: 0 <= i < |m.toolCalls| ==> Decoded(env.decode, m.toolCalls[i]).Ok?
    ensures var ms := ToolMessages(env.tool, env.decode, m.toolCalls);
            && ms.Ok? && |ms.value| == |m.toolCalls|
            && Respond(env, opening, query).requests ==
                 [Request(opening, true), Request(opening + [AssistantMessage(m)] + ms.value, false)]
            && forall i :: 0 <= i < |m.toolCalls| ==>
                 ms.value[i] == ToolReply(env.tool, m.toolCalls[i], Decoded(env.decode, m.toolCalls[i]).value)
  {
    RespondPastMarkers(env, opening, query, m);
    var ms := ToolMessages(env.tool, env.decode, m.toolCalls);
    forall i | 0 <= i < |m.toolCalls|
      ensures ms.value[i] == ToolReply(env.tool, m.toolCalls[i], Decoded(env.decode, m.toolCalls[i]).value)
    {
      ToolMessagesAt(env.tool, env.decode, m.toolCalls, i);
    }
  }

  /** The opening messages: the critical-thinking prompt, and the query followed by its inquiry. */
  method Enhance(system: string, builder: CB.BridgeBuilder, query: string, matches: CB.Matcher)
    returns (opening: seq<Message>)
    requires PF.DistinctKeys(builder.stereotypePatterns)
    ensures opening == Opening(system, builder, query, matches)
  {
    var analysis := CB.GeneratePhilosophicalInquiry(builder, query, matches);
    var enhancedQuery := query + EnhanceSeparator + analysis;
    opening := [SystemMessage(system), UserMessage(enhancedQuery)];
  }

  /** The status-500 fallback and the technical-difficulty message. */
  method HandleFailure(bridge: NewsBridge?, opening: seq<Message>, query: string, status: int,
                       llm: Request -> Reply, decode: string -> Result<Value>, today: Date, news: NewsSource, cal: Calendar)
    returns (answer: Option<string>, requests: seq<Request>)
    modifies bridge
    ensures bridge != null ==> bridge.collectionIds == old(bridge.collectionIds) && bridge.apiKey == old(bridge.apiKey)
    ensures Answer(answer, requests) ==
      FailedOpening(Env(NewsTool(bridge != null, if bridge != null then old(bridge.collectionIds) else VNone, today, news, cal),
                        llm, decode), opening, query, status)
  {
    requests := [Request(opening, true)];
    if status == 500 {
      answer := ManualSearch(bridge, query, FallbackKeywords, FallbackPhrases, today, news, cal);
      if answer.Some? {
        return;
      }
      var second := Request(opening, false);
      requests := requests + [second];
      var fallback := llm(second);
      if fallback.status == 200 {
        return ContentAnswer(fallback.body), requests;
      }
    }
    answer := Some(TechnicalDifficulties(status));
  }

  /** The tool-call loop and the follow-up request, or the follow-up alone when there is no call. */
  method HandleToolCalls(bridge: NewsBridge?, opening: seq<Message>, m: ModelMessage,
                         llm: Request -> Reply, decode: string -> Result<Value>, today: Date, news: NewsSource, cal: Calendar)
    returns (answer: Option<string>, requests: seq<Request>)
    modifies bridge
    ensures bridge != null ==> bridge.collectionIds == old(bridge.collectionIds) && bridge.apiKey == old(bridge.apiKey)
    ensures Answer(answer, requests) ==
      ToolCallsAnswer(Env(NewsTool(bridge != null, if bridge != null then old(bridge.collectionIds) else VNone, today, news, cal),
                          llm, decode), opening, m)
  {
    requests := [Request(opening, true)];
    if m.toolCalls == [] {
      var second := Request(opening, false);
      requests := requests + [second];
      return CheckedAnswer(llm(second)), requests;
    }
    var history := RunToolCalls(bridge, opening + [AssistantMessage(m)], m.toolCalls, decode, today, news, cal);
    if history.Err? {
      return Some(ErrorPrefix + history.error), requests;
    }
    var second := Request(history.value, false);
    requests := requests + [second];
    answer := CheckedAnswer(llm(second));
  }

  /** The chat exchange of `process_query` for the opening messages. */
  method Converse(bridge: NewsBridge?, opening: seq<Message>, query: string,
                  llm: Request -> Reply, decode: string -> Result<Value>, today: Date, news: NewsSource, cal: Calendar)
    returns (answer: Option<string>, requests: seq<Request>)
    modifies bridge
    ensures bridge != null ==> bridge.collectionIds == old(bridge.collectionIds) && bridge.apiKey == old(bridge.apiKey)
    ensures Answer(answer, requests) ==
      Respond(Env(NewsTool(bridge != null, if bridge != null then old(bridge.collectionIds) else VNone, today, news, cal),
                  llm, decode), opening, query)
  {
    var first := Request(opening, true);
    var reply := llm(first);
    if reply.status != 200 {
      answer, requests := HandleFailure(bridge, opening, query, reply.status, llm, decode, today, news, cal);
      return;
    }
    requests := [first];
    if reply.body.Err? {
      return Some(ErrorPrefix + reply.body.error), requests;
    }
    var m := reply.body.value;
    var content := ContentText(m.content);
    if content.None? {
      return Some(ErrorPrefix + NoneNotIterable), requests;
    }
    if HasRawToolSyntax(content.value) {
      var manual := ManualSearch(bridge, query, MarkerKeywords, MarkerPhrases, today, news, cal);
      return Some(if manual.Some? then manual.value else Apology), requests;
    }
    answer, requests := HandleToolCalls(bridge, opening, m, llm, decode, today, news, cal);
  }

  /**
   * `process_query(query)`: the inquiry-enhanced opening, the first request with tools, and
   * the path its response selects. Every news search leaves the bridge's ids as they were.
   * `system` is the text of `philosophical_framework.get_critical_thinking_prompt()`.
   */
  method ProcessQuery(bridge: NewsBridge?, system: string, builder: CB.BridgeBuilder, query: string,
                      matches: CB.Matcher, llm: Request -> Reply, decode: string -> Result<Value>,
                      today: Date, news: NewsSource, cal: Calendar)
    returns (answer: Option<string>, requests: seq<Request>)
    requires PF.DistinctKeys(builder.stereotypePatterns)
    modifies bridge
    ensures bridge != null ==> bridge.collectionIds == old(bridge.collectionIds) && bridge.apiKey == old(bridge.apiKey)
    ensures requests != [] && requests[0] == Request(Opening(system, builder, query, matches), true)
    ensures Answer(answer, requests) ==
      Respond(Env(NewsTool(bridge != null, if bridge != null then old(bridge.collectionIds) else VNone, today, news, cal),
                  llm, decode),
              requests[0].messages, query)
  {
    var opening := Enhance(system, builder, query, matches);
    answer, requests := Converse(bridge, opening, query, llm, decode, today, news, cal);
  }
}
