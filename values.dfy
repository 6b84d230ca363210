/** Python values as they appear in the dictionaries the integration builds and reads:
    the coordinator's snapshot, the config flow's user input and config entries. */
module Values {

  datatype Option<T> = None | Some(value: T) {
    /** The value, or `default` when absent (`dict.get(key, default)`). */
    function GetOr(default: T): (v: T)
      ensures Some? ==> v == value
      ensures None? ==> v == default
    {
      if Some? then value else default
    }
  }

  /** One Python value. Ports and counters are `Int`, the normalised volume is `Real`,
      library enumeration members are `Enum` (named by their member name) and any
      other object (the coordinator reference, a device session) is `Object`. */
  datatype PyValue =
    | Str(s: string)
    | Int(i: int)
    | Real(r: real)
    | Bool(b: bool)
    | NoneVal
    | Enum(member: string)
    | Object(kind: string)

  /** Python truthiness, as used by `if x:` and `not x`. */
  predicate Truthy(v: PyValue)
  {
    match v
    case Str(s) => s != ""
    case Int(i) => i != 0
    case Real(r) => r != 0.0
    case Bool(b) => b
    case NoneVal => false
    case Enum(_) => true
    case Object(_) => true
  }

  /** `d.get(key, default)`. */
  function Get(d: map<string, PyValue>, key: string, default: PyValue): (v: PyValue)
    ensures key in d ==> v == d[key]
    ensures key !in d ==> v == default
  {
    if key in d then d[key] else default
  }

  /** `d.update(e)` on a copy of `d`: every key of `e` overrides the key of `d`. */
  function Overlay(d: map<string, PyValue>, e: map<string, PyValue>): (r: map<string, PyValue>)
    ensures r.Keys == d.Keys + e.Keys
    ensures forall k :: k in e ==> r[k] == e[k]
    ensures forall k :: k in d && k !in e ==> r[k] == d[k]
  {
    d + e
  }
}
