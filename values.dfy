/**
 * Python values as they travel through the agent: decoded JSON, MediaCloud story records
 * (dicts whose date fields hold `date`/`datetime` objects), and tool-call arguments.
 * Dicts keep Python's insertion order and have string keys; floats are not modelled.
 */
module Values {
  import opened Wrappers
  import opened Text

  /** A `datetime.date`, by its proleptic Gregorian ordinal (`date.toordinal()`). */
  datatype Date = Date(ordinal: int)

  /** A `datetime.datetime`, by the ordinal of its day and the microsecond within that day. */
  datatype DateTime = DateTime(ordinal: int, microsecond: int)

  /**
   * The conversions the core borrows from the `datetime` module, left abstract:
   * `isoformat()` of a date and of a datetime, `str()` of a datetime (space-separated),
   * `repr()` of a date and of a datetime (`datetime.date(2024, 1, 5)`), and
   * `fromisoformat`, which yields `None` where Python raises `ValueError`.
   */
  datatype Calendar = Calendar(
    dateIso: Date -> string,
    dateTimeIso: DateTime -> string,
    dateTimeStr: DateTime -> string,
    dateRepr: Date -> string,
    dateTimeRepr: DateTime -> string,
    parseDate: string -> Option<Date>,
    parseDateTime: string -> Option<DateTime>)

  datatype Value =
    | VNone
    | VBool(b: bool)
    | VInt(i: int)
    | VStr(s: string)
    | VDate(date: Date)
    | VDateTime(dateTime: DateTime)
    | VList(items: seq<Value>)
    | VTuple(items: seq<Value>)
    | VDict(entries: seq<(string, Value)>)
    /** An instance with a `__dict__`: its class name and its attributes. */
    | VObject(className: string, attributes: seq<(string, Value)>)

  /** The keys of a dict, in insertion order. */
  function Keys(entries: seq<(string, Value)>): (r: seq<string>)
    ensures |r| == |entries|
    ensures forall i :: 0 <= i < |r| ==> r[i] == entries[i].0
  {
    if entries == [] then [] else [entries[0].0] + Keys(entries[1..])
  }

  /** `d.get(key)`: the value stored under `key`, if any. */
  function Get(entries: seq<(string, Value)>, key: string): (r: Option<Value>)
    ensures r.Some? <==> key in Keys(entries)
  {
    if entries == [] then None
    else if entries[0].0 == key then Some(entries[0].1)
    else Get(entries[1..], key)
  }

  /** `d.get(key, default)`. */
  function GetOr(entries: seq<(string, Value)>, key: string, default: Value): Value {
    match Get(entries, key)
    case Some(v) => v
    case None => default
  }

  /** `d[key] = value`: overwrites in place when the key exists, appends otherwise. */
  function Put(entries: seq<(string, Value)>, key: string, value: Value): (r: seq<(string, Value)>)
    ensures Get(r, key) == Some(value)
  {
    if entries == [] then [(key, value)]
    else if entries[0].0 == key then [(key, value)] + entries[1..]
    else
      var r := [entries[0]] + Put(entries[1..], key, value);
      assert r[1..] == Put(entries[1..], key, value);
      r
  }

  /** Storing under an existing key keeps the keys and their order; a new key goes last. */
  lemma {:induction false} PutKeys(entries: seq<(string, Value)>, key: string, value: Value)
    ensures key in Keys(entries) ==> Keys(Put(entries, key, value)) == Keys(entries)
    ensures key !in Keys(entries) ==> Keys(Put(entries, key, value)) == Keys(entries) + [key]
  {
    if entries != [] {
      var r := Put(entries, key, value);
      assert Keys(entries) == [entries[0].0] + Keys(entries[1..]);
      if entries[0].0 == key {
        assert r[1..] == entries[1..];
        assert Keys(r) == [key] + Keys(entries[1..]);
      } else {
        var rest := Put(entries[1..], key, value);
        PutKeys(entries[1..], key, value);
        assert r[1..] == rest;
        assert Keys(r) == [entries[0].0] + Keys(rest);
        assert key in Keys(entries) <==> key in Keys(entries[1..]);
      }
    }
  }

  /** Looking up in `a + b` finds `a`'s entry first and falls back to `b`. */
  lemma {:induction false} GetAppend(a: seq<(string, Value)>, b: seq<(string, Value)>, key: string)
    ensures Get(a + b, key) == if key in Keys(a) then Get(a, key) else Get(b, key)
  {
    if a != [] {
      assert (a + b)[1..] == a[1..] + b;
      assert Keys(a) == [a[0].0] + Keys(a[1..]);
      GetAppend(a[1..], b, key);
    } else {
      assert a + b == b;
    }
  }

  /** Storing under a new key appends the entry. */
  lemma {:induction false} PutFresh(entries: seq<(string, Value)>, key: string, value: Value)
    requires key !in Keys(entries)
    ensures Put(entries, key, value) == entries + [(key, value)]
  {
    if entries != [] {
      var rest := entries[1..];
      assert Keys(entries) == [entries[0].0] + Keys(rest);
      PutFresh(rest, key, value);
      assert Put(entries, key, value) == [entries[0]] + (rest + [(key, value)]);
      assert [entries[0]] + rest == entries;
    }
  }

  lemma {:induction false} KeysAppend(a: seq<(string, Value)>, b: seq<(string, Value)>)
    ensures Keys(a + b) == Keys(a) + Keys(b)
  {
    if a != [] {
      assert (a + b)[1..] == a[1..] + b;
      KeysAppend(a[1..], b);
    }
  }

  /** Storing under one key leaves every other key's value as it was. */
  lemma {:induction false} PutOther(entries: seq<(string, Value)>, key: string, value: Value, other: string)
    requires other != key
    ensures Get(Put(entries, key, value), other) == Get(entries, other)
  {
    if entries != [] && entries[0].0 != key {
      PutOther(entries[1..], key, value, other);
      var r := Put(entries, key, value);
      assert r[1..] == Put(entries[1..], key, value);
    } else if entries != [] {
      assert Put(entries, key, value)[1..] == entries[1..];
    }
  }

  /** `bool(v)`: `None`, `False`, `0`, `""` and empty containers are falsy. */
  predicate Truthy(v: Value) {
    match v
    case VNone => false
    case VBool(b) => b
    case VInt(i) => i != 0
    case VStr(s) => s != []
    case VList(items) => items != []
    case VTuple(items) => items != []
    case VDict(entries) => entries != []
    case _ => true
  }

  /**
   * `str(v)`, as an f-string renders it: a string is itself, a date or datetime is its
   * `str()`, and anything else is its `repr`.
   */
  function PyStr(v: Value, cal: Calendar): string {
    match v
    case VStr(s) => s
    case VDate(d) => cal.dateIso(d)
    case VDateTime(t) => cal.dateTimeStr(t)
    case _ => Repr(v, cal)
  }

  /** `repr(v)`; an object shows its class name only. */
  function Repr(v: Value, cal: Calendar): string {
    match v
    case VNone => "None"
    case VBool(b) => if b then "True" else "False"
    case VInt(i) => IntToString(i)
    case VStr(s) => StrRepr(s)
    case VDate(d) => cal.dateRepr(d)
    case VDateTime(t) => cal.dateTimeRepr(t)
    case VList(items) => "[" + Join(", ", seq(|items|, i requires 0 <= i < |items| => Repr(items[i], cal))) + "]"
    case VTuple(items) =>
      if |items| == 1 then "(" + Repr(items[0], cal) + ",)"
      else "(" + Join(", ", seq(|items|, i requires 0 <= i < |items| => Repr(items[i], cal))) + ")"
    case VDict(es) =>
      "{" + Join(", ", seq(|es|, i requires 0 <= i < |es| => StrRepr(es[i].0) + ": " + Repr(es[i].1, cal))) + "}"
    case VObject(name, _) => "<" + name + " object>"
  }

  /**
   * `repr(s)` of a string: single quotes unless the string holds a single quote and no
   * double quote, with the backslash, the chosen quote and the ASCII control characters escaped.
   */
  function StrRepr(s: string): string {
    var q := if '\'' in s && '"' !in s then '"' else '\'';
    [q] + Escaped(s, q) + [q]
  }

  function Escaped(s: string, q: char): string {
    if s == [] then [] else EscapedChar(s[0], q) + Escaped(s[1..], q)
  }

  function EscapedChar(c: char, q: char): string {
    if c == '\\' || c == q then ['\\', c]
    else if c == '\t' then "\\t"
    else if c == '\n' then "\\n"
    else if c == '\r' then "\\r"
    else if c < ' ' || c == '\U{7F}' then "\\x" + [HexDigit(c as int / 16), HexDigit(c as int % 16)]
    else [c]
  }

  function HexDigit(d: int): char
    requires 0 <= d < 16
  {
    if d < 10 then DigitChar(d) else ('a' as int + d - 10) as char
  }

  /** A string with no quote, backslash or control character is shown between single quotes as it is. */
  lemma {:induction false} StrReprPlain(s: string)
    requires forall i :: 0 <= i < |s| ==> s[i] != '\'' && s[i] != '"' && s[i] != '\\' && ' ' <= s[i] && s[i] != '\U{7F}'
    ensures StrRepr(s) == "'" + s + "'"
  {
    EscapedPlain(s, '\'');
  }

  lemma {:induction false} EscapedPlain(s: string, q: char)
    requires forall i :: 0 <= i < |s| ==> s[i] != q && s[i] != '\\' && ' ' <= s[i] && s[i] != '\U{7F}'
    ensures Escaped(s, q) == s
  {
    if s != [] {
      EscapedPlain(s[1..], q);
      assert s == [s[0]] + s[1..];
    }
  }

  /** A string holding a single quote and no double quote is shown between double quotes. */
  lemma StrReprDoubleQuoted(s: string)
    requires '\'' in s && '"' !in s
    ensures StrRepr(s)[0] == '"' && StrRepr(s)[|StrRepr(s)| - 1] == '"'
  {
  }

  /** `json.dumps(v)` succeeds: no date, datetime or plain object anywhere inside. */
  predicate JsonEncodable(v: Value) {
    match v
    case VDate(_) => false
    case VDateTime(_) => false
    case VObject(_, _) => false
    case VList(items) => forall i :: 0 <= i < |items| ==> JsonEncodable(items[i])
    case VTuple(items) => forall i :: 0 <= i < |items| ==> JsonEncodable(items[i])
    case VDict(es) => forall i :: 0 <= i < |es| ==> JsonEncodable(es[i].1)
    case _ => true
  }
}
