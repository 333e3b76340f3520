/**
 * `NewsBridge`: builds a MediaCloud search string and pages through `story_list` until the
 * pages run out or enough stories are in hand.
 *
 * The MediaCloud search API is a script of answers: the k-th `story_list` call of one search
 * receives `pages[k]`, which is either a page (its stories and the next pagination token)
 * or the exception that call raises. A call past the end of the script fails with
 * `ScriptExhausted`. Every call made is recorded as a `StoryRequest`, so the model can state
 * which token each call carried.
 */
module News {
  import opened Wrappers
  import opened Text
  import opened Values

  /** One answer of `story_list`: the page's stories and the token for the next page. */
  datatype Page = Page(stories: seq<Value>, next: Option<string>)

  /** The arguments of one `story_list` call. */
  datatype StoryRequest = StoryRequest(
    query: string,
    startDate: Date,
    endDate: Date,
    collectionIds: Value,
    paginationToken: Option<string>)

  /** The failure of a call beyond the end of the script. */
  const ScriptExhausted: string := "page source exhausted"

  // ---------------------------------------------------------------- search strings

  /** The default search and the two sets of bridge terms, each an OR of quoted phrases. */
  const DefaultQueryTerms: seq<string> :=
    ["dialogue", "\"common ground\"", "\"across divides\"", "\"nuanced\"", "\"complexity\"", "\"beyond polarization\"", "\"cultural bridge\"", "\"challenge stereotypes\"", "\"gray area\"", "\"non-binary\"", "\"multiple perspectives\"", "\"mutual understanding\"", "\"empathy\"", "\"bridge the gap\""]
  const DefaultNuancedQuery: string := Join(" OR ", DefaultQueryTerms)

  const NuancedTerms: seq<string> :=
    ["dialogue", "\"common ground\"", "\"multiple perspectives\"", "\"nuanced\"", "\"bridge\"", "\"understanding\""]
  const NuancedBridgeTerms: string := Join(" OR ", NuancedTerms)

  const CulturalTerms: seq<string> :=
    ["\"cultural exchange\"", "\"cross-cultural\"", "\"diversity\"", "\"inclusion\"", "\"collaboration\"", "\"cooperation\"", "\"shared values\"", "\"common humanity\"", "\"breaking barriers\"", "\"building bridges\""]
  const CulturalBridgeTerms: string := Join(" OR ", CulturalTerms)

  /** `f'({subject}) AND ({terms})'`. */
  function Scoped(subject: string, terms: string): string {
    "(" + subject + ") AND (" + terms + ")"
  }

  /** The subject of a scoped search string, when `search` has that shape for `terms`. */
  function Subject(search: string, terms: string): (r: Option<string>)
    ensures r.Some? ==> Scoped(r.value, terms) == search
  {
    if |search| >= |terms| + 9 && search[0] == '(' && search[|search| - |terms| - 8..] == ") AND (" + terms + ")" then
      var subject := search[1..|search| - |terms| - 8];
      assert search == [search[0]] + subject + search[|search| - |terms| - 8..];
      Some(subject)
    else None
  }

  /** The subject is recovered from the scoped string, so different subjects give different searches. */
  lemma SubjectOfScoped(subject: string, terms: string)
    ensures Subject(Scoped(subject, terms), terms) == Some(subject)
  {
    var s := Scoped(subject, terms);
    assert s == "(" + subject + (") AND (" + terms + ")");
    assert s[|s| - |terms| - 8..] == ") AND (" + terms + ")";
    assert s[1..|s| - |terms| - 8] == subject;
  }

  /** The search string of `search_nuanced_news`. */
  function NuancedQuery(query: Option<string>): string {
    match query
    case None => DefaultNuancedQuery
    case Some(q) => Scoped(q, NuancedBridgeTerms)
  }

  /** The search string of `search_cultural_bridge_news`. */
  function CulturalQuery(regionOrCulture: string): string {
    Scoped(regionOrCulture, CulturalBridgeTerms)
  }

  /**
   * Without a query the fixed default is searched; with one, the query is wrapped around the
   * bridge terms and can be read back, so no custom query searches the default string.
   */
  lemma NuancedQueryCases(query: Option<string>)
    ensures query.None? ==> NuancedQuery(query) == DefaultNuancedQuery
    ensures query.Some? ==> Subject(NuancedQuery(query), NuancedBridgeTerms) == query
    ensures query.Some? ==> NuancedQuery(query) != DefaultNuancedQuery
  {
    if query.Some? {
      SubjectOfScoped(query.value, NuancedBridgeTerms);
      assert NuancedQuery(query)[0] == '(';
      DefaultQueryOpening();
    }
  }

  lemma DefaultQueryOpening()
    ensures DefaultNuancedQuery != [] && DefaultNuancedQuery[0] == 'd'
  {
    JoinHead(" OR ", DefaultQueryTerms);
    assert DefaultQueryTerms[0] == "dialogue";
  }

  /** `start_date = end_date - timedelta(days=days_back)`. */
  function StartDate(endDate: Date, daysBack: int): (r: Date)
    ensures endDate.ordinal - r.ordinal == daysBack
  {
    Date(endDate.ordinal - daysBack)
  }

  // ---------------------------------------------------------------- the pagination loop

  /** The stories of a script prefix, in fetch order (a failed call contributes none). */
  function Flatten(pages: seq<Result<Page>>): seq<Value> {
    if pages == [] then []
    else Flatten(pages[..|pages| - 1]) + StoriesOf(pages[|pages| - 1])
  }

  function StoriesOf(answer: Result<Page>): seq<Value> {
    if answer.Ok? then answer.value.stories else []
  }

  lemma FlattenSnoc(pages: seq<Result<Page>>, k: nat)
    requires k < |pages|
    ensures Flatten(pages[..k + 1]) == Flatten(pages[..k]) + StoriesOf(pages[k])
  {
    assert pages[..k + 1][..k] == pages[..k];
  }

  /** The token the k-th call carries: none on the first call, then the one the previous page returned. */
  function TokenBefore(pages: seq<Result<Page>>, k: nat): Option<string> {
    if 0 < k <= |pages| && pages[k - 1].Ok? then pages[k - 1].value.next else None
  }

  /** The j-th call was followed by another: it returned a token and the stories were still short. */
  predicate Continued(pages: seq<Result<Page>>, maxStories: int, j: nat)
    requires j < |pages|
  {
    pages[j].Ok? && pages[j].value.next.Some? && |Flatten(pages[..j + 1])| < maxStories
  }

  /** The stories gathered (before truncation) and the number of `story_list` calls made. */
  datatype Outcome = Outcome(stories: Result<seq<Value>>, calls: nat)

  /** The loop from the state after `k` calls with `acc` gathered and a call due unless `acc` is long enough. */
  function Fetch(pages: seq<Result<Page>>, maxStories: int, acc: seq<Value>, k: nat): Outcome
    requires k <= |pages|
    decreases |pages| - k
  {
    if |acc| >= maxStories then Outcome(Ok(acc), k)
    else if k == |pages| then Outcome(Err(ScriptExhausted), k + 1)
    else match pages[k]
      case Err(e) => Outcome(Err(e), k + 1)
      case Ok(p) =>
        if p.next.None? then Outcome(Ok(acc + p.stories), k + 1)
        else Fetch(pages, maxStories, acc + p.stories, k + 1)
  }

  /** What a search returns: the gathered stories cut to `max_stories`, or the exception. */
  function Collected(pages: seq<Result<Page>>, maxStories: int): Result<seq<Value>> {
    match Fetch(pages, maxStories, [], 0).stories
    case Ok(s) => Ok(Take(s, maxStories))
    case Err(e) => Err(e)
  }

  /**
   * The loop's behaviour: each call after the first follows a page that returned a token
   * while the stories were still short; a successful loop returns exactly the stories of
   * the pages it fetched, and stopped because the last page had no token or enough stories
   * were in hand; a failed one ends with the exception of its last call.
   */
  lemma {:induction false} FetchSound(pages: seq<Result<Page>>, maxStories: int, acc: seq<Value>, k: nat)
    requires k <= |pages| && acc == Flatten(pages[..k])
    ensures var o := Fetch(pages, maxStories, acc, k);
      k <= o.calls <= |pages| + 1 &&
      (forall j :: k <= j < o.calls - 1 ==> Continued(pages, maxStories, j))
    ensures var o := Fetch(pages, maxStories, acc, k);
      o.stories.Ok? ==>
        o.calls <= |pages| && o.stories.value == Flatten(pages[..o.calls]) &&
        (|o.stories.value| >= maxStories ||
         (o.calls > k && pages[o.calls - 1].Ok? && pages[o.calls - 1].value.next.None?))
    ensures var o := Fetch(pages, maxStories, acc, k);
      o.stories.Err? ==>
        o.calls > k &&
        ((o.calls == |pages| + 1 && o.stories.error == ScriptExhausted) ||
         (o.calls <= |pages| && pages[o.calls - 1] == Err(o.stories.error)))
    decreases |pages| - k
  {
    if |acc| < maxStories && k < |pages| && pages[k].Ok? {
      FlattenSnoc(pages, k);
      var p := pages[k].value;
      if p.next.Some? {
        FetchSound(pages, maxStories, acc + p.stories, k + 1);
      }
    }
  }

  /** With `max_stories <= 0` no call is made and the result is empty. */
  lemma NothingRequested(pages: seq<Result<Page>>, maxStories: int)
    requires maxStories <= 0
    ensures Fetch(pages, maxStories, [], 0).calls == 0
    ensures Collected(pages, maxStories) == Ok([])
  {
  }

  /**
   * A search never returns more than `max_stories` stories, and what it returns is a prefix
   * of the stories of the pages it fetched, in fetch order.
   */
  lemma CollectedIsBoundedPrefix(pages: seq<Result<Page>>, maxStories: int)
    ensures var o := Fetch(pages, maxStories, [], 0);
      Collected(pages, maxStories).Ok? ==>
        o.calls <= |pages| &&
        |Collected(pages, maxStories).value| <= Max(maxStories, 0) &&
        Collected(pages, maxStories).value <= Flatten(pages[..o.calls])
  {
    FetchSound(pages, maxStories, [], 0);
  }

  /** The MediaCloud-backed searcher; `collectionIds` is the only state the agent changes. */
  class NewsBridge {
    var apiKey: string
    var collectionIds: Value

    /** `NewsBridge(api_key, collection_ids)`: `collection_ids or []`, so `None` or an empty list becomes `[]`. */
    constructor (apiKey: string, collectionIds: Value)
      ensures this.apiKey == apiKey
      ensures this.collectionIds == (if Truthy(collectionIds) then collectionIds else VList([]))
    {
      this.apiKey := apiKey;
      this.collectionIds := if Truthy(collectionIds) then collectionIds else VList([]);
    }

    /**
     * The `while` loop both searches share: calls `story_list` with the previous call's
     * token until a page has no token or `max_stories` stories are in hand, then truncates.
     */
    method Paginate(searchQuery: string, startDate: Date, endDate: Date, maxStories: int, pages: seq<Result<Page>>)
      returns (r: Result<seq<Value>>, sent: seq<StoryRequest>)
      ensures r == Collected(pages, maxStories)
      ensures |sent| == Fetch(pages, maxStories, [], 0).calls
      ensures forall j :: 0 <= j < |sent| ==>
        sent[j] == StoryRequest(searchQuery, startDate, endDate, collectionIds, TokenBefore(pages, j))
    {
      var allStories: seq<Value> := [];
      var token: Option<string> := None;
      var more := true;
      var k := 0;
      sent := [];
      while more && |allStories| < maxStories
        invariant 0 <= k <= |pages|
        invariant more ==> Fetch(pages, maxStories, allStories, k) == Fetch(pages, maxStories, [], 0)
        invariant !more ==> Fetch(pages, maxStories, [], 0) == Outcome(Ok(allStories), k)
        invariant more ==> token == TokenBefore(pages, k)
        invariant |sent| == k
        invariant forall j :: 0 <= j < k ==>
          sent[j] == StoryRequest(searchQuery, startDate, endDate, collectionIds, TokenBefore(pages, j))
        decreases |pages| - k, more
      {
        sent := sent + [StoryRequest(searchQuery, startDate, endDate, collectionIds, token)];
        if k == |pages| {
          r := Err(ScriptExhausted);
          return;
        }
        match pages[k]
        case Err(e) =>
          r := Err(e);
          return;
        case Ok(p) =>
          allStories := allStories + p.stories;
          token := p.next;
          more := token.Some? && |allStories| < maxStories;
          k := k + 1;
      }
      r := Ok(Take(allStories, maxStories));
    }

    /** `search_nuanced_news(query, days_back, max_stories)`, searching up to `today`. */
    method SearchNuancedNews(query: Option<string>, daysBack: int, maxStories: int, today: Date, pages: seq<Result<Page>>)
      returns (r: Result<seq<Value>>, sent: seq<StoryRequest>)
      ensures r == Collected(pages, maxStories)
      ensures |sent| == Fetch(pages, maxStories, [], 0).calls
      ensures forall j :: 0 <= j < |sent| ==>
        sent[j] == StoryRequest(NuancedQuery(query), StartDate(today, daysBack), today, collectionIds, TokenBefore(pages, j))
    {
      r, sent := Paginate(NuancedQuery(query), StartDate(today, daysBack), today, maxStories, pages);
    }

    /** `search_cultural_bridge_news(region_or_culture, days_back, max_stories)`, up to `today`. */
    method SearchCulturalBridgeNews(regionOrCulture: string, daysBack: int, maxStories: int, today: Date, pages: seq<Result<Page>>)
      returns (r: Result<seq<Value>>, sent: seq<StoryRequest>)
      ensures r == Collected(pages, maxStories)
      ensures |sent| == Fetch(pages, maxStories, [], 0).calls
      ensures forall j :: 0 <= j < |sent| ==>
        sent[j] == StoryRequest(CulturalQuery(regionOrCulture), StartDate(today, daysBack), today, collectionIds, TokenBefore(pages, j))
    {
      r, sent := Paginate(CulturalQuery(regionOrCulture), StartDate(today, daysBack), today, maxStories, pages);
    }
  }
}
