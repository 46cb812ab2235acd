/**
 * Parameter values of generated filters and Ingest processors. The Go code
 * stores them as `interface{}` (strings, string slices, bools, nested maps);
 * here they are one recursive datatype.
 */
module Values {

  datatype Value =
    | Nil
    | Str(s: string)
    | Bool(b: bool)
    | Int(i: int)
    | Obj(fields: map<string, Value>)
    | Arr(elems: seq<Value>)

  /** `ls.Params` and the inner map of an Ingest processor. */
  type Params = map<string, Value>

  /** A Go `[]string` parameter. */
  function StrList(xs: seq<string>): (v: Value)
    ensures v.Arr? && |v.elems| == |xs|
    ensures forall k :: 0 <= k < |xs| ==> v.elems[k] == Str(xs[k])
  {
    Arr(seq(|xs|, k requires 0 <= k < |xs| => Str(xs[k])))
  }

  /** A Go `map[string]string` parameter. */
  function StrMap(m: map<string, string>): (v: Value)
    ensures v.Obj? && v.fields.Keys == m.Keys
    ensures forall k :: k in m ==> v.fields[k] == Str(m[k])
  {
    Obj(map k | k in m :: Str(m[k]))
  }

  /** `if s != "" { p[key] = s }`. */
  function SetIfNonEmpty(p: Params, key: string, s: string): (r: Params)
    ensures key !in p ==> OptionalStr(r, key, s)
    ensures forall k :: k != key ==> (k in r <==> k in p) && (k in r ==> r[k] == p[k])
  {
    if s != "" then p[key := Str(s)] else p
  }

  /** `if b { p[key] = true }`. */
  function SetIfTrue(p: Params, key: string, b: bool): (r: Params)
    ensures key !in p ==> Flag(r, key, b)
    ensures forall k :: k != key ==> (k in r <==> k in p) && (k in r ==> r[k] == p[k])
  {
    if b then p[key := Bool(true)] else p
  }

  /** `key` is present exactly when `s` is non-empty, and then holds `s`. */
  predicate OptionalStr(p: Params, key: string, s: string)
  {
    (key in p <==> s != "") && (key in p ==> p[key] == Str(s))
  }

  /** `key` is present exactly when `b` holds, and then holds `true`. */
  predicate Flag(p: Params, key: string, b: bool)
  {
    (key in p <==> b) && (key in p ==> p[key] == Bool(true))
  }
}
