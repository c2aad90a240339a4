/** The few PHP built-in behaviours the request pipeline relies on: decoded JSON
    values, PHP truthiness (`?:`, `empty`), `isset` on an array offset and the
    ASCII upper-casing of `strtoupper`. */
module Php {

  datatype Option<+T> = None | Some(value: T)

  /** A PHP array key: a string or an integer. */
  datatype Key = Name(name: string) | Index(index: int)

  /** A value as `json_decode($s, true)` returns it. Floating-point numbers are
      not modelled. A JSON object and a JSON list both become a PHP array: an
      ordered sequence of entries, in the order of the JSON text, whose keys are
      the object's names (integers for numeric names) or the list positions. */
  datatype Json =
    | JNull
    | JBool(b: bool)
    | JInt(i: int)
    | JStr(s: string)
    | JArray(entries: seq<(Key, Json)>)

  /** The empty PHP array `[]`. */
  const EmptyArray: Json := JArray([])

  /** PHP's falsy strings: the empty string and "0". */
  predicate FalsyString(s: string)
    ensures FalsyString(s) <==> s in {"", "0"}
    ensures FalsyString(s) ==> |s| < 2
  {
    s == "" || s == "0"
  }

  /** PHP's boolean conversion of a decoded value is false. Exactly six
      decoded values are falsy. */
  predicate Falsy(v: Json)
    ensures Falsy(v) <==> v in {JNull, JBool(false), JInt(0), JStr(""), JStr("0"), EmptyArray}
  {
    match v
    case JNull => true
    case JBool(b) => !b
    case JInt(i) => i == 0
    case JStr(s) => FalsyString(s)
    case JArray(entries) => entries == []
  }

  /** The decoded values PHP treats as false, and some look-alikes it does not. */
  lemma FalsyValues()
    ensures Falsy(JNull) && Falsy(JBool(false)) && Falsy(JInt(0))
    ensures Falsy(JStr("")) && Falsy(JStr("0")) && Falsy(JArray([]))
    ensures !Falsy(JStr("00")) && !Falsy(JStr(" ")) && !Falsy(JStr("false"))
    ensures !Falsy(JArray([(Index(0), JNull)])) && !Falsy(JArray([(Name("a"), JNull)])) && !Falsy(JInt(-1))
  {
  }

  /** `is_array($v)`: a decoded list or object. Null, booleans, integers and
      strings are not arrays. */
  predicate IsArray(v: Json)
    ensures IsArray(v) <==> !(v.JNull? || v.JBool? || v.JInt? || v.JStr?)
  {
    v.JArray?
  }

  /** `$a[k]` on a PHP array, whose keys are distinct: the value of the entry
      with key `k`, looked up from the front. */
  function Lookup(entries: seq<(Key, Json)>, k: Key): (r: Option<Json>)
    ensures r.None? <==> forall i :: 0 <= i < |entries| ==> entries[i].0 != k
    ensures r.Some? ==> exists i :: 0 <= i < |entries| && entries[i] == (k, r.value)
                                    && forall j :: 0 <= j < i ==> entries[j].0 != k
  {
    if entries == [] then None
    else if entries[0].0 == k then Some(entries[0].1)
    else Lookup(entries[1..], k)
  }

  /** `isset($v[key]) ? $v[key] : (not set)` for a string key that is not
      numeric. Only an array can hold such a key; a string or a scalar has no
      such offset, and a key bound to null is not set. */
  function Offset(v: Json, key: string): (r: Option<Json>)
    ensures r.Some? <==> v.JArray? && Lookup(v.entries, Name(key)).Some?
                         && Lookup(v.entries, Name(key)).value != JNull
    ensures r.Some? ==> r.value != JNull && (Name(key), r.value) in v.entries
  {
    if v.JArray? then
      match Lookup(v.entries, Name(key))
      case Some(x) => if x != JNull then Some(x) else None
      case None => None
    else None
  }

  /** `isset($v[outer][inner])`, with the value it guards. */
  function NestedOffset(v: Json, outer: string, inner: string): (r: Option<Json>)
    ensures r.Some? <==> Offset(v, outer).Some? && Offset(Offset(v, outer).value, inner).Some?
    ensures r.Some? ==> r.value != JNull
    ensures r.Some? ==> v.JArray? && exists o :: (Name(outer), o) in v.entries && o.JArray?
                                                 && (Name(inner), r.value) in o.entries
  {
    match Offset(v, outer)
    case None => None
    case Some(o) => Offset(o, inner)
  }

  predicate IsLowerAscii(c: char) {
    'a' <= c <= 'z'
  }

  /** One character of `strtoupper`: only the ASCII letters a-z change. */
  function UpperChar(c: char): (u: char)
    ensures !IsLowerAscii(u)
    ensures IsLowerAscii(c) ==> u as int == c as int - 32
    ensures !IsLowerAscii(c) ==> u == c
  {
    if IsLowerAscii(c) then (c as int - 32) as char else c
  }

  /** `strtoupper($s)`, which is locale-insensitive and ASCII-only. */
  function ToUpper(s: string): (r: string)
    ensures |r| == |s|
    ensures forall i :: 0 <= i < |s| ==> r[i] == UpperChar(s[i])
  {
    if s == [] then [] else [UpperChar(s[0])] + ToUpper(s[1..])
  }

  /** Upper-casing an upper-cased string changes nothing. */
  lemma ToUpperIdempotent(s: string)
    ensures ToUpper(ToUpper(s)) == ToUpper(s)
  {
  }
}
