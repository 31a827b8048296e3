/** Decoded JSON values as the SDK sees them after `json.loads`/`json.Unmarshal`,
    and the identity of user-supplied callbacks. */
module Values {

  /** A decoded JSON value. Numbers are integers: the hook timestamps the source
      converts from float are taken as already whole. */
  datatype Value =
    | Null
    | Bool(b: bool)
    | Number(n: int)
    | Str(s: string)
    | Arr(items: seq<Value>)
    | Obj(fields: map<string, Value>)

  type Object = map<string, Value>

  /** User callbacks (tool handlers, permission handlers, event handlers, hooks)
      are opaque to the SDK; the model names each by a number and receives what
      it does as a separate input. */
  type HandlerId = nat

  /** Python truthiness of a decoded value (`if not x:`). */
  predicate Truthy(v: Value) {
    match v
    case Null => false
    case Bool(b) => b
    case Number(n) => n != 0
    case Str(s) => s != ""
    case Arr(items) => items != []
    case Obj(fields) => fields != map[]
  }

  /** Go's `m[k]` on a `map[string]any`: a missing key reads as nil. */
  function Field(m: Object, key: string): Value {
    if key in m then m[key] else Null
  }

  /** `a` and `b` are JSON values of the same kind. */
  predicate SameKind(a: Value, b: Value) {
    match (a, b)
    case (Null, Null) => true
    case (Bool(_), Bool(_)) => true
    case (Number(_), Number(_)) => true
    case (Str(_), Str(_)) => true
    case (Arr(_), Arr(_)) => true
    case (Obj(_), Obj(_)) => true
    case _ => false
  }

  /** Go's zero value of the kind of `v`. */
  function ZeroOf(v: Value): Value {
    match v
    case Null => Null
    case Bool(_) => Bool(false)
    case Number(_) => Number(0)
    case Str(_) => Str("")
    case Arr(_) => Arr([])
    case Obj(_) => Obj(map[])
  }

  /** `v` is what a typed read of `key` (`m[key].(T)` with `ok` checked) gives:
      the stored value when it has the kind of `v`, the zero value otherwise. */
  predicate ReadAs(m: Object, key: string, v: Value) {
    if key in m && SameKind(m[key], v) then v == m[key] else v == ZeroOf(v)
  }

  /** Go's `v, ok := m[k].(string)` keeping `v` only when `ok`: the string
      stored under `key`, or "" when it is missing or not a string. */
  function StringField(m: Object, key: string): string
  {
    if key in m && m[key].Str? then m[key].s else ""
  }

  /** The same for a number (`.(float64)` converted to `int64`), zero otherwise. */
  function IntField(m: Object, key: string): int
  {
    if key in m && m[key].Number? then m[key].n else 0
  }

  /** The same for a boolean, false otherwise. */
  function BoolField(m: Object, key: string): bool
  {
    key in m && m[key].Bool? && m[key].b
  }
}
