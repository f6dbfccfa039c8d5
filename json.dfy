/**
 * A JSON document as a tree: the value that encoding/json produces from a
 * Go struct, before it is written out as text. Objects are maps, so the
 * order in which Go writes the keys is not represented.
 */
module Json {

  import opened Wrappers

  datatype Value =
    | Null
    | Bool(b: bool)
    | Num(n: real)
    | Str(s: string)
    | Arr(items: seq<Value>)
    | Obj(fields: map<string, Value>)

  /** The keys of an object; no keys for any other value. */
  function Keys(v: Value): set<string>
  {
    if v.Obj? then v.fields.Keys else {}
  }

  // Readers that give Go's zero value for a key that is absent or null,
  // as json.Unmarshal leaves a struct field untouched in those cases.

  function StrAt(m: map<string, Value>, k: string): string
  {
    if k in m && m[k].Str? then m[k].s else ""
  }

  function BoolAt(m: map<string, Value>, k: string): bool
  {
    k in m && m[k].Bool? && m[k].b
  }

  function IntAt(m: map<string, Value>, k: string): int
  {
    if k in m && m[k].Num? then m[k].n.Floor else 0
  }

  function RealAt(m: map<string, Value>, k: string): real
  {
    if k in m && m[k].Num? then m[k].n else 0.0
  }

  function ObjAt(m: map<string, Value>, k: string): map<string, Value>
  {
    if k in m && m[k].Obj? then m[k].fields else map[]
  }

  /** An array under `k`, or None (Go's nil slice) when the key is absent or null. */
  function ArrAt(m: map<string, Value>, k: string): Option<seq<Value>>
  {
    if k in m && m[k].Arr? then Some(m[k].items) else None
  }
}
