/**
 * `serialize_datetime_objects`: the agent's recursive conversion of dates and datetimes to
 * their ISO strings before a news result is encoded as JSON.
 */
module Serialization {
  import opened Values

  /** Dicts, lists and objects are walked; tuples and scalars are leaves. */
  predicate IsLeaf(v: Value) {
    !(v.VDate? || v.VDateTime? || v.VDict? || v.VObject? || v.VList?)
  }

  function SerializeEntries(es: seq<(string, Value)>, cal: Calendar, ghost whole: Value): (r: seq<(string, Value)>)
    requires forall i :: 0 <= i < |es| ==> es[i].1 < whole
    ensures |r| == |es|
    ensures forall i :: 0 <= i < |es| ==> r[i] == (es[i].0, Serialize(es[i].1, cal))
    decreases whole, 0
  {
    seq(|es|, i requires 0 <= i < |es| => (es[i].0, Serialize(es[i].1, cal)))
  }

  /** `serialize_datetime_objects(obj)`. */
  function Serialize(v: Value, cal: Calendar): (r: Value)
    ensures v.VDate? ==> r == VStr(cal.dateIso(v.date))
    ensures v.VDateTime? ==> r == VStr(cal.dateTimeIso(v.dateTime))
    ensures v.VDict? ==> r.VDict? && Keys(r.entries) == Keys(v.entries)
    ensures v.VObject? ==> r.VDict? && Keys(r.entries) == Keys(v.attributes)
    ensures v.VList? ==> r.VList? && |r.items| == |v.items|
    ensures v.VList? ==> forall i :: 0 <= i < |v.items| ==> r.items[i] == Serialize(v.items[i], cal)
    ensures IsLeaf(v) ==> r == v
    decreases v, 1
  {
    match v
    case VDateTime(t) => VStr(cal.dateTimeIso(t))
    case VDate(d) => VStr(cal.dateIso(d))
    case VDict(es) => VDict(SerializeEntries(es, cal, v))
    case VList(items) => VList(seq(|items|, i requires 0 <= i < |items| => Serialize(items[i], cal)))
    case VObject(_, attrs) => VDict(SerializeEntries(attrs, cal, v))
    case _ => v
  }

  /** An object is replaced by the conversion of its attribute dict. */
  lemma SerializeObject(name: string, attrs: seq<(string, Value)>, cal: Calendar)
    ensures Serialize(VObject(name, attrs), cal) == Serialize(VDict(attrs), cal)
  {
    var o := Serialize(VObject(name, attrs), cal).entries;
    var d := Serialize(VDict(attrs), cal).entries;
    assert |o| == |d|;
    forall i | 0 <= i < |attrs|
      ensures o[i] == d[i]
    {
      assert o[i] == (attrs[i].0, Serialize(attrs[i].1, cal));
      assert d[i] == (attrs[i].0, Serialize(attrs[i].1, cal));
    }
  }

  /** No date, datetime or object is left, except inside a tuple (tuples are not walked). */
  predicate Clean(v: Value) {
    match v
    case VDate(_) => false
    case VDateTime(_) => false
    case VObject(_, _) => false
    case VList(items) => forall i :: 0 <= i < |items| ==> Clean(items[i])
    case VDict(es) => forall i :: 0 <= i < |es| ==> Clean(es[i].1)
    case _ => true
  }

  /** Every serialized value is clean. */
  lemma {:induction false} SerializeClean(v: Value, cal: Calendar)
    ensures Clean(Serialize(v, cal))
    decreases v
  {
    match v
    case VList(items) =>
      forall i | 0 <= i < |items| ensures Clean(Serialize(v, cal).items[i]) {
        SerializeClean(items[i], cal);
      }
    case VDict(es) =>
      forall i | 0 <= i < |es| ensures Clean(Serialize(v, cal).entries[i].1) {
        assert Serialize(v, cal).entries[i].1 == Serialize(es[i].1, cal);
        SerializeClean(es[i].1, cal);
      }
    case VObject(_, attrs) =>
      forall i | 0 <= i < |attrs| ensures Clean(Serialize(v, cal).entries[i].1) {
        assert Serialize(v, cal).entries[i].1 == Serialize(attrs[i].1, cal);
        SerializeClean(attrs[i].1, cal);
      }
    case _ =>
  }

  /** A clean value is returned unchanged. */
  lemma {:induction false} SerializeFixesClean(v: Value, cal: Calendar)
    requires Clean(v)
    ensures Serialize(v, cal) == v
    decreases v
  {
    match v
    case VList(items) =>
      forall i | 0 <= i < |items| ensures Serialize(v, cal).items[i] == items[i] {
        SerializeFixesClean(items[i], cal);
      }
    case VDict(es) =>
      var r := Serialize(v, cal).entries;
      forall i | 0 <= i < |es| ensures r[i] == es[i] {
        assert r[i] == (es[i].0, Serialize(es[i].1, cal));
        SerializeFixesClean(es[i].1, cal);
      }
    case _ =>
  }

  /** Serializing an already serialized result changes nothing. */
  lemma SerializeIdempotent(v: Value, cal: Calendar)
    ensures Serialize(Serialize(v, cal), cal) == Serialize(v, cal)
  {
    SerializeClean(v, cal);
    SerializeFixesClean(Serialize(v, cal), cal);
  }
}
