/**
 * The standalone MediaCloud client: request-parameter assembly for the directory and search
 * endpoints, the classification of HTTP answers in `BaseApi._query`, and the in-place
 * conversion of story date fields.
 *
 * A parameter dict is a `Params` value (insertion-ordered, as Python dicts are). Optional
 * arguments are `Value`s, so `None`, `0`, `""` and `False` are told apart only where the
 * client does (by truthiness); an id list given as `None` is modelled as `[]`.
 */
module MediaCloud {
  import opened Wrappers
  import opened Text
  import opened Values

  type Params = seq<(string, Value)>

  /** `SearchApi.PROVIDER`, the platform searched when none is given. */
  const Provider: string := "onlinenews-mediacloud"

  /** The fields `story_sample` always asks for, in order. */
  const SampleFields: seq<string> :=
    ["indexed_date", "publish_date", "id", "language", "media_name", "media_url", "title", "url"]

  // ---------------------------------------------------------------- id lists

  /** `[str(x) for x in ids]`. */
  function IdStrings(ids: seq<Value>, cal: Calendar): (r: seq<string>)
    ensures |r| == |ids|
    ensures forall i :: 0 <= i < |ids| ==> r[i] == PyStr(ids[i], cal)
  {
    seq(|ids|, i requires 0 <= i < |ids| => PyStr(ids[i], cal))
  }

  /** `",".join(str(x) for x in ids)`, the value of `ss` and `cs`. */
  function JoinIds(ids: seq<Value>, cal: Calendar): string {
    Join(",", IdStrings(ids, cal))
  }

  /** Reads a comma-joined id list back: `None` unless every part is a decimal integer. */
  function ParseIds(s: string): Option<seq<int>> {
    ParseAll(Split(s, ','))
  }

  function ParseAll(parts: seq<string>): (r: Option<seq<int>>)
    ensures r.Some? ==> |r.value| == |parts|
    ensures r.Some? ==> forall i :: 0 <= i < |parts| ==> ParseDecimal(parts[i]) == Some(r.value[i])
  {
    if parts == [] then Some([])
    else match (ParseDecimal(parts[0]), ParseAll(parts[1..]))
      case (Some(n), Some(rest)) =>
        assert forall i :: 1 <= i < |parts| ==> parts[i] == parts[1..][i - 1];
        Some([n] + rest)
      case _ => None
  }

  /** An integer id list as the client receives it. */
  function IntIds(ids: seq<int>): (r: seq<Value>)
    ensures |r| == |ids| && forall i :: 0 <= i < |ids| ==> r[i] == VInt(ids[i])
  {
    seq(|ids|, i requires 0 <= i < |ids| => VInt(ids[i]))
  }

  /** `[str(n) for n in ids]`. */
  function Decimals(ids: seq<int>): (r: seq<string>)
    ensures |r| == |ids| && forall i :: 0 <= i < |ids| ==> r[i] == IntToString(ids[i])
  {
    if ids == [] then [] else [IntToString(ids[0])] + Decimals(ids[1..])
  }

  lemma ParseAllCons(part: string, rest: seq<string>, n: int, ns: seq<int>)
    requires ParseDecimal(part) == Some(n) && ParseAll(rest) == Some(ns)
    ensures ParseAll([part] + rest) == Some([n] + ns)
  {
    assert ([part] + rest)[1..] == rest;
  }

  lemma {:induction false} ParseAllInts(ids: seq<int>)
    ensures ParseAll(Decimals(ids)) == Some(ids)
  {
    if ids != [] {
      assert Decimals(ids) == [IntToString(ids[0])] + Decimals(ids[1..]);
      ParseIntToString(ids[0]);
      ParseAllInts(ids[1..]);
      ParseAllCons(IntToString(ids[0]), Decimals(ids[1..]), ids[0], ids[1..]);
      assert ids == [ids[0]] + ids[1..];
    }
  }

  /** A non-empty integer id list survives `ss`/`cs`: the joined string reads back as the same ids. */
  lemma JoinIdsRoundTrip(ids: seq<int>, cal: Calendar)
    requires ids != []
    ensures ParseIds(JoinIds(IntIds(ids), cal)) == Some(ids)
  {
    var parts := IdStrings(IntIds(ids), cal);
    assert parts == Decimals(ids);
    forall i | 0 <= i < |parts| ensures ',' !in parts[i] {
      IntToStringChars(ids[i], ',');
    }
    SplitJoin(parts, ',');
    ParseAllInts(ids);
  }

  // ---------------------------------------------------------------- parameter assembly

  /** The entry `(key, value)` when `present`, as the `if x: params[...] = x` lines add it. */
  function Optional(present: bool, key: string, value: Value): (r: Params)
    ensures Keys(r) == if present then [key] else []
  {
    if present then [(key, value)] else []
  }

  /** The keys `_prep_default_params` may set. */
  const DefaultKeys: set<string> := {"start", "end", "q", "platform", "ss", "cs"}

  /** The four entries `_prep_default_params` always sets, in order. */
  function BaseParams(query: string, startDate: Date, endDate: Date, platform: Value, cal: Calendar): (r: Params)
    ensures Keys(r) == ["start", "end", "q", "platform"]
  {
    [("start", VStr(cal.dateIso(startDate))), ("end", VStr(cal.dateIso(endDate))), ("q", VStr(query)),
     ("platform", if Truthy(platform) then platform else VStr(Provider))]
  }

  /** The four values: the isoformat dates, the query, and the platform or else the provider. */
  lemma BaseParamsValues(query: string, startDate: Date, endDate: Date, platform: Value, cal: Calendar)
    ensures var r := BaseParams(query, startDate, endDate, platform, cal);
      && Get(r, "start") == Some(VStr(cal.dateIso(startDate)))
      && Get(r, "end") == Some(VStr(cal.dateIso(endDate)))
      && Get(r, "q") == Some(VStr(query))
      && Get(r, "platform") == Some(if Truthy(platform) then platform else VStr(Provider))
  {
    var r := BaseParams(query, startDate, endDate, platform, cal);
    var r1, r2, r3 := r[1..], r[2..], r[3..];
    assert r1[1..] == r2 && r2[1..] == r3 && r3[1..] == [];
    assert Get(r, "end") == Get(r1, "end");
    assert Get(r, "q") == Get(r1, "q") == Get(r2, "q");
    assert Get(r, "platform") == Get(r1, "platform") == Get(r2, "platform") == Get(r3, "platform");
  }

  /** The dict `SearchApi._prep_default_params` builds. */
  function DefaultParams(query: string, startDate: Date, endDate: Date, collectionIds: seq<Value>,
                         sourceIds: seq<Value>, platform: Value, cal: Calendar): (r: Params)
    ensures forall k :: k in Keys(r) ==> k in DefaultKeys
  {
    var base := BaseParams(query, startDate, endDate, platform, cal);
    var ss := Optional(sourceIds != [], "ss", VStr(JoinIds(sourceIds, cal)));
    var cs := Optional(collectionIds != [], "cs", VStr(JoinIds(collectionIds, cal)));
    KeysAppend(base, ss);
    KeysAppend(base + ss, cs);
    base + ss + cs
  }

  /**
   * The values `_prep_default_params` always stores: the isoformat dates, the query and the
   * platform (the provider when none is given).
   */
  lemma {:induction false} DefaultParamsValues(query: string, startDate: Date, endDate: Date, collectionIds: seq<Value>,
                                               sourceIds: seq<Value>, platform: Value, cal: Calendar)
    ensures var r := DefaultParams(query, startDate, endDate, collectionIds, sourceIds, platform, cal);
      && Get(r, "start") == Some(VStr(cal.dateIso(startDate)))
      && Get(r, "end") == Some(VStr(cal.dateIso(endDate)))
      && Get(r, "q") == Some(VStr(query))
      && Get(r, "platform") == Some(if Truthy(platform) then platform else VStr(Provider))
  {
    var base := BaseParams(query, startDate, endDate, platform, cal);
    var ss := Optional(sourceIds != [], "ss", VStr(JoinIds(sourceIds, cal)));
    var cs := Optional(collectionIds != [], "cs", VStr(JoinIds(collectionIds, cal)));
    assert DefaultParams(query, startDate, endDate, collectionIds, sourceIds, platform, cal) == base + ss + cs;
    BaseParamsValues(query, startDate, endDate, platform, cal);
    LookupBase(base, ss, cs, "start");
    LookupBase(base, ss, cs, "end");
    LookupBase(base, ss, cs, "q");
    LookupBase(base, ss, cs, "platform");
  }

  /** `ss` and `cs` are set exactly when their id list is non-empty, to the comma-joined ids. */
  lemma {:induction false} DefaultParamsIds(query: string, startDate: Date, endDate: Date, collectionIds: seq<Value>,
                                            sourceIds: seq<Value>, platform: Value, cal: Calendar)
    ensures var r := DefaultParams(query, startDate, endDate, collectionIds, sourceIds, platform, cal);
      && ("ss" in Keys(r) <==> sourceIds != [])
      && (sourceIds != [] ==> Get(r, "ss") == Some(VStr(JoinIds(sourceIds, cal))))
    ensures var r := DefaultParams(query, startDate, endDate, collectionIds, sourceIds, platform, cal);
      && ("cs" in Keys(r) <==> collectionIds != [])
      && (collectionIds != [] ==> Get(r, "cs") == Some(VStr(JoinIds(collectionIds, cal))))
  {
    var base := BaseParams(query, startDate, endDate, platform, cal);
    var ss := Optional(sourceIds != [], "ss", VStr(JoinIds(sourceIds, cal)));
    var cs := Optional(collectionIds != [], "cs", VStr(JoinIds(collectionIds, cal)));
    assert DefaultParams(query, startDate, endDate, collectionIds, sourceIds, platform, cal) == base + ss + cs;
    LookupOptional(base, ss, cs, sourceIds != [], "ss", VStr(JoinIds(sourceIds, cal)), collectionIds != [], "cs", VStr(JoinIds(collectionIds, cal)));
  }

  /** A key of `base` is looked up in `base` whatever follows it. */
  lemma {:induction false} LookupBase(base: Params, ss: Params, cs: Params, k: string)
    requires k in Keys(base)
    ensures Get(base + ss + cs, k) == Get(base, k)
  {
    KeysAppend(base, ss);
    GetAppend(base, ss, k);
    GetAppend(base + ss, cs, k);
  }

  /** The two optional entries after a `base` that has neither key. */
  lemma {:induction false} LookupOptional(base: Params, ss: Params, cs: Params,
                                          hasS: bool, s: string, sv: Value, hasC: bool, c: string, cv: Value)
    requires s !in Keys(base) && c !in Keys(base) && s != c
    requires ss == Optional(hasS, s, sv) && cs == Optional(hasC, c, cv)
    ensures s in Keys(base + ss + cs) <==> hasS
    ensures hasS ==> Get(base + ss + cs, s) == Some(sv)
    ensures c in Keys(base + ss + cs) <==> hasC
    ensures hasC ==> Get(base + ss + cs, c) == Some(cv)
  {
    KeysAppend(base, ss);
    KeysAppend(base + ss, cs);
    GetAppend(base, ss, s);
    GetAppend(base + ss, cs, s);
    GetAppend(base, ss, c);
    GetAppend(base + ss, cs, c);
  }

  /**
   * `if present: params[key] = value`, for a key outside `keys`, which holds every key the
   * dict may already have: the entry goes last.
   */
  method SetIfPresent(params: Params, present: bool, key: string, value: Value, ghost keys: set<string>)
    returns (r: Params)
    requires forall k :: k in Keys(params) ==> k in keys
    requires key !in keys
    ensures r == params + Optional(present, key, value)
    ensures forall k :: k in Keys(r) ==> k in keys + {key}
  {
    r := params;
    if present {
      PutFresh(r, key, value);
      r := Put(r, key, value);
    }
    KeysAppend(params, Optional(present, key, value));
  }

  /** `SearchApi._prep_default_params`, statement by statement. */
  method PrepDefaultParams(query: string, startDate: Date, endDate: Date, collectionIds: seq<Value>,
                           sourceIds: seq<Value>, platform: Value, cal: Calendar)
    returns (params: Params)
    ensures params == DefaultParams(query, startDate, endDate, collectionIds, sourceIds, platform, cal)
  {
    params := BaseParams(query, startDate, endDate, platform, cal);
    params := SetIfPresent(params, sourceIds != [], "ss", VStr(JoinIds(sourceIds, cal)), {"start", "end", "q", "platform"});
    params := SetIfPresent(params, collectionIds != [], "cs", VStr(JoinIds(collectionIds, cal)), {"start", "end", "q", "platform", "ss"});
  }

  /** The options `story_list` adds are new keys, each new to the dict built so far. */
  lemma StoryListKeysFresh()
    ensures "expanded" !in DefaultKeys
    ensures "pagination_token" !in DefaultKeys + {"expanded"}
    ensures "sort_order" !in DefaultKeys + {"expanded", "pagination_token"}
    ensures "page_size" !in DefaultKeys + {"expanded", "pagination_token", "sort_order"}
  {
  }

  /** `story_list`'s parameters: the defaults, then each option that is truthy, in this order. */
  method StoryListParams(query: string, startDate: Date, endDate: Date, collectionIds: seq<Value>,
                         sourceIds: seq<Value>, platform: Value, expanded: Value, paginationToken: Value,
                         sortOrder: Value, pageSize: Value, cal: Calendar)
    returns (params: Params)
    ensures params == DefaultParams(query, startDate, endDate, collectionIds, sourceIds, platform, cal)
                      + Optional(Truthy(expanded), "expanded", VInt(1))
                      + Optional(Truthy(paginationToken), "pagination_token", paginationToken)
                      + Optional(Truthy(sortOrder), "sort_order", sortOrder)
                      + Optional(Truthy(pageSize), "page_size", pageSize)
  {
    params := PrepDefaultParams(query, startDate, endDate, collectionIds, sourceIds, platform, cal);
    StoryListKeysFresh();
    params := SetIfPresent(params, Truthy(expanded), "expanded", VInt(1), DefaultKeys);
    params := SetIfPresent(params, Truthy(paginationToken), "pagination_token", paginationToken, DefaultKeys + {"expanded"});
    params := SetIfPresent(params, Truthy(sortOrder), "sort_order", sortOrder, DefaultKeys + {"expanded", "pagination_token"});
    params := SetIfPresent(params, Truthy(pageSize), "page_size", pageSize, DefaultKeys + {"expanded", "pagination_token", "sort_order"});
  }

  /** The `fields` list of `story_sample`: the fixed fields, then `text` when expanded. */
  method SampleFieldList(expanded: Value) returns (fields: seq<string>)
    ensures fields == SampleFields + (if Truthy(expanded) then ["text"] else [])
  {
    fields := SampleFields;
    if Truthy(expanded) {
      fields := fields + ["text"];
    }
  }

  /** `[v for v in xs]` as a list of Python strings. */
  function StrList(xs: seq<string>): (r: Value)
    ensures r.VList? && |r.items| == |xs| && forall i :: 0 <= i < |xs| ==> r.items[i] == VStr(xs[i])
  {
    VList(seq(|xs|, i requires 0 <= i < |xs| => VStr(xs[i])))
  }

  /** `story_sample`'s parameters: the defaults, `limit` when truthy, then `fields`. */
  method StorySampleParams(query: string, startDate: Date, endDate: Date, collectionIds: seq<Value>,
                           sourceIds: seq<Value>, platform: Value, limit: Value, expanded: Value, cal: Calendar)
    returns (params: Params)
    ensures params == DefaultParams(query, startDate, endDate, collectionIds, sourceIds, platform, cal)
                      + Optional(Truthy(limit), "limit", limit)
                      + [("fields", StrList(SampleFields + (if Truthy(expanded) then ["text"] else [])))]
  {
    params := PrepDefaultParams(query, startDate, endDate, collectionIds, sourceIds, platform, cal);
    params := SetIfPresent(params, Truthy(limit), "limit", limit, DefaultKeys);
    var fields := SampleFieldList(expanded);
    params := SetIfPresent(params, true, "fields", StrList(fields), DefaultKeys + {"limit"});
  }

  /** `words`' parameters (and those of `sources` and `languages`): the defaults, then `limit` when truthy. */
  method WordsParams(query: string, startDate: Date, endDate: Date, collectionIds: seq<Value>,
                     sourceIds: seq<Value>, platform: Value, limit: Value, cal: Calendar)
    returns (params: Params)
    ensures params == DefaultParams(query, startDate, endDate, collectionIds, sourceIds, platform, cal)
                      + Optional(Truthy(limit), "limit", limit)
  {
    params := PrepDefaultParams(query, startDate, endDate, collectionIds, sourceIds, platform, cal);
    params := SetIfPresent(params, Truthy(limit), "limit", limit, DefaultKeys);
  }

  /** `DirectoryApi.collection_list`'s parameters: `limit` and `offset`, then each filter that is truthy. */
  method CollectionListParams(platform: Value, name: Value, limit: Value, offset: Value, sourceId: Value)
    returns (params: Params)
    ensures params == [("limit", limit), ("offset", offset)]
                      + Optional(Truthy(name), "name", name)
                      + Optional(Truthy(platform), "platform", platform)
                      + Optional(Truthy(sourceId), "source_id", sourceId)
  {
    params := [("limit", limit), ("offset", offset)];
    params := SetIfPresent(params, Truthy(name), "name", name, {"limit", "offset"});
    params := SetIfPresent(params, Truthy(platform), "platform", platform, {"limit", "offset", "name"});
    params := SetIfPresent(params, Truthy(sourceId), "source_id", sourceId, {"limit", "offset", "name", "platform"});
  }

  /** `DirectoryApi.source_list`'s parameters: `limit` and `offset`, then each filter that is truthy. */
  method SourceListParams(platform: Value, name: Value, collectionId: Value, limit: Value, offset: Value)
    returns (params: Params)
    ensures params == [("limit", limit), ("offset", offset)]
                      + Optional(Truthy(collectionId), "collection_id", collectionId)
                      + Optional(Truthy(name), "name", name)
                      + Optional(Truthy(platform), "platform", platform)
  {
    params := [("limit", limit), ("offset", offset)];
    params := SetIfPresent(params, Truthy(collectionId), "collection_id", collectionId, {"limit", "offset"});
    params := SetIfPresent(params, Truthy(name), "name", name, {"limit", "offset", "collection_id"});
    params := SetIfPresent(params, Truthy(platform), "platform", platform, {"limit", "offset", "collection_id", "name"});
  }

  // ---------------------------------------------------------------- BaseApi._query

  /**
   * What the HTTP session produced: an answer, a timeout, or another `RequestException`.
   * An answer's body is what `r.json()` makes of it: the decoded value, or the text of the
   * `JSONDecodeError` it raises for a body that is not JSON.
   */
  datatype Transport = Answered(status: int, body: Result<Value>) | TimedOut | RequestFailed(reason: string)

  const RequestFailedPrefix: string := "API request failed: "

  const ServerErrorPrefix: string := "API Server Error "

  /** `f"{params}"`: `None`, or the dict's repr. */
  function ParamsText(params: Option<Params>, cal: Calendar): string {
    match params
    case None => "None"
    case Some(p) => Repr(VDict(p), cal)
  }

  /**
   * `BaseApi._query`: an unsupported method raises before any request; a timeout or failed
   * request becomes an `MCException`; 403, 401 and every other non-200 status raise their
   * own `MCException`; a 200 answer yields its decoded body, and a 200 answer whose body is
   * not JSON fails like any other `RequestException` (`JSONDecodeError` is one).
   */
  function Query(params: Option<Params>, httpMethod: string, transport: Transport, cal: Calendar): (r: Result<Value>)
    ensures r.Ok? <==> (httpMethod == "GET" || httpMethod == "POST") && transport.Answered? && transport.status == 200
                       && transport.body.Ok?
    ensures r.Ok? ==> r.value == transport.body.value
    ensures ((httpMethod == "GET" || httpMethod == "POST") && transport.Answered? && transport.status == 200
             && transport.body.Err?) ==> r == Err(RequestFailedPrefix + transport.body.error)
    ensures (httpMethod == "GET" || httpMethod == "POST") && transport.RequestFailed?
            ==> r == Err(RequestFailedPrefix + transport.reason)
  {
    if httpMethod != "GET" && httpMethod != "POST" then Err("Unsupported method of '" + httpMethod + "'")
    else match transport
      case TimedOut => Err("API request timeout")
      case RequestFailed(reason) => Err(RequestFailedPrefix + reason)
      case Answered(status, body) =>
        if status == 403 then Err("Access forbidden - authentication or CSRF protection required")
        else if status == 401 then Err("Authentication required")
        else if status != 200 then Err(ServerErrorPrefix + IntToString(status) + ". Params: " + ParamsText(params, cal))
        else match body
          case Ok(v) => Ok(v)
          case Err(decodeError) => Err(RequestFailedPrefix + decodeError)
  }

  /** The status code a server-error message reports, read back from its text. */
  function ReportedStatus(message: string): Option<int> {
    if StartsWith(message, ServerErrorPrefix) then ParseDecimal(Split(message[|ServerErrorPrefix|..], '.')[0])
    else None
  }

  /** The status is read back from a server-error message whatever follows its first '.'. */
  lemma ReportedStatusOf(status: int, tail: string)
    requires tail != [] && tail[0] == '.'
    ensures ReportedStatus(ServerErrorPrefix + IntToString(status) + tail) == Some(status)
  {
    var code := IntToString(status);
    var message := ServerErrorPrefix + code + tail;
    assert message[..|ServerErrorPrefix|] == ServerErrorPrefix;
    assert message[|ServerErrorPrefix|..] == code + tail;
    IntToStringChars(status, '.');
    SplitPrefix(code, tail, '.');
    assert tail == ['.'] + tail[1..];
    SplitCons('.', tail[1..], '.');
    assert Split(code + tail, '.')[0] == code + [];
    assert code + [] == code;
    ParseIntToString(status);
  }

  /** Any status other than 200, 401 and 403 raises a server error that names exactly that status. */
  lemma ServerErrorReportsStatus(params: Option<Params>, httpMethod: string, status: int, body: Result<Value>, cal: Calendar)
    requires httpMethod == "GET" || httpMethod == "POST"
    requires status != 200 && status != 401 && status != 403
    ensures Query(params, httpMethod, Answered(status, body), cal).Err?
    ensures ReportedStatus(Query(params, httpMethod, Answered(status, body), cal).error) == Some(status)
  {
    var tail := ". Params: " + ParamsText(params, cal);
    assert Query(params, httpMethod, Answered(status, body), cal).error == ServerErrorPrefix + IntToString(status) + tail;
    ReportedStatusOf(status, tail);
  }

  // ---------------------------------------------------------------- SearchApi._dates_str2objects

  /** The text `str(e)` of the `KeyError` for a missing key. */
  function MissingKey(key: string): string {
    "'" + key + "'"
  }

  /** The `TypeError` raised when a truthy date field is not a string (its text is not modelled). */
  const NotAString: string := "fromisoformat: argument must be str"

  /** The new `publish_date`: the date of its first ten characters, or `None` when falsy. */
  function PublishDate(story: Params, cal: Calendar): (r: Result<Value>)
    ensures r.Ok? ==> "publish_date" in Keys(story) && (r.value.VDate? || r.value == VNone)
    ensures "publish_date" !in Keys(story) ==> r == Err(MissingKey("publish_date"))
    ensures r == Ok(VNone) <==> "publish_date" in Keys(story) && !Truthy(GetOr(story, "publish_date", VNone))
    ensures r.Ok? && r.value.VDate? ==>
              GetOr(story, "publish_date", VNone).VStr?
              && cal.parseDate(Take(GetOr(story, "publish_date", VNone).s, 10)) == Some(r.value.date)
    ensures var v := GetOr(story, "publish_date", VNone);
            r.Err? <==> "publish_date" !in Keys(story)
                        || (Truthy(v) && (!v.VStr? || cal.parseDate(Take(v.s, 10)).None?))
  {
    match Get(story, "publish_date")
    case None => Err(MissingKey("publish_date"))
    case Some(v) =>
      if !Truthy(v) then Ok(VNone)
      else if !v.VStr? then Err(NotAString)
      else match cal.parseDate(Take(v.s, 10))
        case Some(d) => Ok(VDate(d))
        case None => Err("Invalid isoformat string: '" + Take(v.s, 10) + "'")
  }

  /** The new `indexed_date`: the datetime it spells, or `None` when falsy. */
  function IndexedDate(story: Params, cal: Calendar): (r: Result<Value>)
    ensures r.Ok? ==> "indexed_date" in Keys(story) && (r.value.VDateTime? || r.value == VNone)
    ensures "indexed_date" !in Keys(story) ==> r == Err(MissingKey("indexed_date"))
    ensures r == Ok(VNone) <==> "indexed_date" in Keys(story) && !Truthy(GetOr(story, "indexed_date", VNone))
    ensures r.Ok? && r.value.VDateTime? ==>
              GetOr(story, "indexed_date", VNone).VStr?
              && cal.parseDateTime(GetOr(story, "indexed_date", VNone).s) == Some(r.value.dateTime)
    ensures var v := GetOr(story, "indexed_date", VNone);
            r.Err? <==> "indexed_date" !in Keys(story)
                        || (Truthy(v) && (!v.VStr? || cal.parseDateTime(v.s).None?))
  {
    match Get(story, "indexed_date")
    case None => Err(MissingKey("indexed_date"))
    case Some(v) =>
      if !Truthy(v) then Ok(VNone)
      else if !v.VStr? then Err(NotAString)
      else match cal.parseDateTime(v.s)
        case Some(t) => Ok(VDateTime(t))
        case None => Err("Invalid isoformat string: '" + v.s + "'")
  }

  /**
   * One story after the loop body has run on it, and the exception it raised, if any. A
   * failure on `indexed_date` leaves `publish_date` already converted.
   */
  function Convert(story: Params, cal: Calendar): (Params, Option<string>) {
    match PublishDate(story, cal)
    case Err(e) => (story, Some(e))
    case Ok(p) =>
      var s1 := Put(story, "publish_date", p);
      match IndexedDate(s1, cal)
      case Err(e) => (s1, Some(e))
      case Ok(t) => (Put(s1, "indexed_date", t), None)
  }

  /** Converting the story raises. */
  predicate Fails(story: Params, cal: Calendar) {
    Convert(story, cal).1.Some?
  }

  /**
   * A story fails to convert exactly when one of its two dates fails on its own, and a story
   * that converts stores the two converted dates.
   */
  lemma ConvertStoresDates(story: Params, cal: Calendar)
    ensures Fails(story, cal) <==> PublishDate(story, cal).Err? || IndexedDate(story, cal).Err?
    ensures !Fails(story, cal) ==>
              Get(Convert(story, cal).0, "publish_date") == Some(PublishDate(story, cal).value)
              && Get(Convert(story, cal).0, "indexed_date") == Some(IndexedDate(story, cal).value)
  {
    if PublishDate(story, cal).Ok? {
      var p := PublishDate(story, cal).value;
      var s1 := Put(story, "publish_date", p);
      PutOther(story, "publish_date", p, "indexed_date");
      assert IndexedDate(s1, cal) == IndexedDate(story, cal);
      if IndexedDate(story, cal).Ok? {
        var t := IndexedDate(story, cal).value;
        PutOther(s1, "indexed_date", t, "publish_date");
      }
    }
  }

  /** The index of the first element satisfying `p`, or the length of `xs`. */
  function FirstWhere<T>(xs: seq<T>, p: T -> bool): (k: nat)
    ensures k <= |xs|
    ensures forall j :: 0 <= j < k ==> !p(xs[j])
    ensures k < |xs| ==> p(xs[k])
  {
    if xs == [] then 0
    else if p(xs[0]) then 0
    else
      var k := 1 + FirstWhere(xs[1..], p);
      assert forall j :: 1 <= j < k ==> xs[j] == xs[1..][j - 1];
      k
  }

  /** The index of the first story whose conversion raises, or the number of stories. */
  function FirstFailure(stories: seq<Params>, cal: Calendar): (k: nat)
    ensures k <= |stories|
    ensures forall j :: 0 <= j < k ==> !Fails(stories[j], cal)
    ensures k < |stories| ==> Fails(stories[k], cal)
  {
    FirstWhere(stories, story => Fails(story, cal))
  }

  /** The loop body on `stories[i]`: `publish_date` is stored before `indexed_date` is read. */
  method ConvertStory(stories: array<Params>, i: int, cal: Calendar) returns (error: Option<string>)
    requires 0 <= i < stories.Length
    modifies stories
    ensures stories[i] == Convert(old(stories[i]), cal).0
    ensures forall j :: 0 <= j < stories.Length && j != i ==> stories[j] == old(stories[j])
    ensures error == Convert(old(stories[i]), cal).1
  {
    var story := stories[i];
    var publish := PublishDate(story, cal);
    if publish.Err? {
      return Some(publish.error);
    }
    story := Put(story, "publish_date", publish.value);
    stories[i] := story;
    var indexed := IndexedDate(story, cal);
    if indexed.Err? {
      return Some(indexed.error);
    }
    stories[i] := Put(story, "indexed_date", indexed.value);
    return None;
  }

  /**
   * `_dates_str2objects(stories)`: converts each story in place, in order; the first story
   * that raises is left as the loop body left it, and the stories after it are untouched.
   */
  method DatesStr2Objects(stories: array<Params>, cal: Calendar) returns (error: Option<string>)
    modifies stories
    ensures var k := FirstFailure(old(stories[..]), cal);
      (forall j :: 0 <= j < stories.Length && j <= k ==> stories[j] == Convert(old(stories[j]), cal).0) &&
      (forall j :: k < j < stories.Length ==> stories[j] == old(stories[j])) &&
      error == (if k < stories.Length then Convert(old(stories[k]), cal).1 else None)
  {
    ghost var original := stories[..];
    ghost var k := FirstFailure(original, cal);
    var i := 0;
    while i < stories.Length
      invariant 0 <= i <= stories.Length && i <= k
      invariant forall j :: 0 <= j < i ==> stories[j] == Convert(original[j], cal).0
      invariant forall j :: i <= j < stories.Length ==> stories[j] == original[j]
    {
      error := ConvertStory(stories, i, cal);
      if error.Some? {
        assert Fails(original[i], cal);
        assert k == i;
        return;
      }
      i := i + 1;
    }
    return None;
  }

  /** Storing under two keys already present keeps the keys and every other field. */
  lemma PutTwice(story: Params, k1: string, v1: Value, k2: string, v2: Value, other: string)
    requires k1 in Keys(story) && k2 in Keys(story) && k1 != k2
    requires other != k1 && other != k2
    ensures Keys(Put(Put(story, k1, v1), k2, v2)) == Keys(story)
    ensures Get(Put(Put(story, k1, v1), k2, v2), other) == Get(story, other)
    ensures Get(Put(Put(story, k1, v1), k2, v2), k1) == Some(v1)
    ensures Get(Put(Put(story, k1, v1), k2, v2), k2) == Some(v2)
  {
    var s1 := Put(story, k1, v1);
    PutKeys(story, k1, v1);
    PutKeys(s1, k2, v2);
    PutOther(story, k1, v1, other);
    PutOther(s1, k2, v2, other);
    PutOther(s1, k2, v2, k1);
  }

  /**
   * A story converted without error keeps its keys in their order and every other field;
   * `publish_date` now holds a date or `None`, and `indexed_date` a datetime or `None`.
   */
  lemma ConvertShape(story: Params, cal: Calendar, other: string)
    requires !Fails(story, cal)
    requires other != "publish_date" && other != "indexed_date"
    ensures Keys(Convert(story, cal).0) == Keys(story)
    ensures Get(Convert(story, cal).0, other) == Get(story, other)
    ensures var p := Get(Convert(story, cal).0, "publish_date"); p.Some? && (p.value.VDate? || p.value == VNone)
    ensures var t := Get(Convert(story, cal).0, "indexed_date"); t.Some? && (t.value.VDateTime? || t.value == VNone)
  {
    var p := PublishDate(story, cal).value;
    var s1 := Put(story, "publish_date", p);
    var t := IndexedDate(s1, cal).value;
    assert Convert(story, cal).0 == Put(s1, "indexed_date", t);
    PutKeys(story, "publish_date", p);
    PutTwice(story, "publish_date", p, "indexed_date", t, other);
  }
}
