/** A decoded JSON value, as Go's encoding/json leaves it inside an
    `interface{}`: nil, bool, float64, string, []interface{} or
    map[string]interface{}. */
module JsonValue {
  import opened Wrappers

  datatype Json =
    | Null
    | Bool(b: bool)
    | Num(n: real)
    | Str(s: string)
    | Arr(elems: seq<Json>)
    | Obj(fields: map<string, Json>)

  /** The comma-ok read `v, ok := m[k]`. */
  ghost function Get(m: map<string, Json>, k: string): Option<Json>
  {
    if k in m then Some(m[k]) else None
  }

  /** The plain read `m[k]`: a missing key reads as nil, which is also what a
      JSON null decodes to. */
  function Lookup(m: map<string, Json>, k: string): Json
  {
    if k in m then m[k] else Null
  }

  /** The type assertion `v.(map[string]interface{})` on an optional read. */
  ghost function AsObject(v: Option<Json>): Option<map<string, Json>>
  {
    if v.Some? && v.value.Obj? then Some(v.value.fields) else None
  }

  /** The type assertion `v.([]interface{})` on an optional read. */
  ghost function AsArray(v: Option<Json>): Option<seq<Json>>
  {
    if v.Some? && v.value.Arr? then Some(v.value.elems) else None
  }

  /** `m` with `k` set to `v` when there is a value, unchanged otherwise. */
  ghost function Put(m: map<string, Json>, k: string, v: Option<Json>): map<string, Json>
  {
    if v.Some? then m[k := v.value] else m
  }

  /** A Go `[]string` as it appears in the summary. */
  function StrArray(lines: seq<string>): (r: Json)
    ensures r.Arr? && |r.elems| == |lines|
    ensures forall k :: 0 <= k < |lines| ==> r.elems[k] == Str(lines[k])
  {
    Arr(seq(|lines|, k requires 0 <= k < |lines| => Str(lines[k])))
  }
}
