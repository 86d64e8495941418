/**
 * The dynamic values the app reads from and writes to its document store,
 * the field lookups with Kotlin's safe casts (`map["k"] as? String`), and
 * the generic `Resource` wrapper the view models publish their state in.
 */
module Firestore {
  import opened Text

  /** A field value as the store hands it out. `VTimestamp` and `VDate`
      carry milliseconds since the epoch; `VDouble` carries a floating-point
      number as a real. */
  datatype Value =
    | VStr(s: string)
    | VLong(n: int)
    | VDouble(d: real)
    | VBool(b: bool)
    | VTimestamp(millis: int)
    | VDate(millis: int)
    | VList(items: seq<Value>)
    | VMap(fields: map<string, Value>)
    | VNull

  type Fields = map<string, Value>

  /** A stored document: its id and its fields. */
  datatype Doc = Doc(id: string, data: Fields)

  /** A document as read: its id, and its fields unless it does not exist. */
  datatype Snapshot = Snapshot(id: string, data: Option<Fields>)

  /** How a remote call ends: it succeeds, or it throws an exception whose
      message may be null. */
  datatype Call = Succeeds | Throws(message: Option<string>)
  {
    /** `e.message ?: default` for a call that throws. */
    function MessageOr(default: string): string
      requires Throws?
    {
      message.OrElse(default)
    }
  }

  /** The loading state a view model publishes. */
  datatype Resource<+T> = Unspecified | Loading | Success(data: T) | Error(message: string)

  /** `m[key] as? String`: present only when the field holds a string. */
  function GetString(m: Fields, key: string): (r: Option<string>)
    ensures r.Some? <==> key in m && m[key].VStr?
    ensures r.Some? ==> m[key] == VStr(r.value)
  {
    if key in m && m[key].VStr? then Some(m[key].s) else None
  }

  /** `getString(key)` on a document returns (a string or null) instead of
      throwing: the field is a string, null or absent. */
  predicate StringReadable(m: Fields, key: string)
  {
    key !in m || m[key].VStr? || m[key] == VNull
  }

  /** `m[key] as? String ?: ""` */
  function StringOr(m: Fields, key: string, d: string): (r: string)
    ensures key in m && m[key].VStr? ==> m[key] == VStr(r)
    ensures !(key in m && m[key].VStr?) ==> r == d
  {
    GetString(m, key).OrElse(d)
  }

  /** `m[key] as? Boolean ?: d` */
  function BoolOr(m: Fields, key: string, d: bool): (r: bool)
    ensures key in m && m[key].VBool? ==> m[key] == VBool(r)
    ensures !(key in m && m[key].VBool?) ==> r == d
  {
    if key in m && m[key].VBool? then m[key].b else d
  }

  /** `m[key]`, with an absent key and a stored null both read as null. */
  function Get(m: Fields, key: string): (r: Option<Value>)
    ensures r.Some? <==> key in m && m[key] != VNull
    ensures r.Some? ==> r.value == m[key]
  {
    if key in m && m[key] != VNull then Some(m[key]) else None
  }

  /** `(v as? Number)?.toLong()`: a long as is, a double truncated toward
      zero; anything else is null. */
  function NumberToLong(v: Value): (r: Option<int>)
    ensures r.Some? <==> v.VLong? || v.VDouble?
    ensures v.VLong? ==> r == Some(v.n)
    ensures v.VDouble? ==> r.Some? && -1.0 < v.d - r.value as real < 1.0
    ensures v.VDouble? && v.d >= 0.0 ==> r.value >= 0
  {
    match v
    case VLong(n) => Some(n)
    case VDouble(d) => Some(if d >= 0.0 then d.Floor else -((-d).Floor))
    case _ => None
  }

  /** `(v as? Number)?.toFloat()`, the rounding to single precision left out. */
  function NumberToReal(v: Value): (r: Option<real>)
    ensures r.Some? <==> v.VLong? || v.VDouble?
    ensures v.VLong? ==> r == Some(v.n as real)
    ensures v.VDouble? ==> r == Some(v.d)
  {
    match v
    case VLong(n) => Some(n as real)
    case VDouble(d) => Some(d)
    case _ => None
  }

  /** Strings of a list value, the other elements dropped
      (`mapNotNull { it as? String }`). */
  function StringsOf(items: seq<Value>): (r: seq<string>)
    ensures |r| <= |items|
    ensures forall s :: s in r <==> VStr(s) in items
  {
    if items == [] then []
    else
      var rest := StringsOf(items[1..]);
      assert items == [items[0]] + items[1..];
      if items[0].VStr? then [items[0].s] + rest else rest
  }

  /** A list of strings stored as a list value. */
  function StringList(xs: seq<string>): (r: Value)
    ensures r.VList? && |r.items| == |xs|
    ensures forall i :: 0 <= i < |xs| ==> r.items[i] == VStr(xs[i])
  {
    VList(seq(|xs|, i requires 0 <= i < |xs| => VStr(xs[i])))
  }

  /** Reading back a stored list of strings gives the list itself. */
  lemma {:induction false} StringListRoundTrip(xs: seq<string>)
    ensures StringsOf(StringList(xs).items) == xs
    decreases |xs|
  {
    if xs != [] {
      assert StringList(xs).items[1..] == StringList(xs[1..]).items;
      StringListRoundTrip(xs[1..]);
    }
  }

  /** An optional string stored with `?: ""`. */
  function StrOrEmpty(o: Option<string>): (r: Value)
    ensures r.VStr?
    ensures o.Some? ==> r == VStr(o.value)
    ensures o.None? ==> r == VStr("")
  {
    VStr(o.OrElse(""))
  }

  /** An optional string stored as is, null when absent. */
  function StrOrNull(o: Option<string>): (r: Value)
    ensures o.Some? <==> r.VStr?
    ensures o.Some? ==> r == VStr(o.value)
  {
    if o.Some? then VStr(o.value) else VNull
  }
}
