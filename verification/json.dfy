/** JSON values as the server sees them after `JSON.parse`, together with the
    few JavaScript operations the modelled code applies to untyped values:
    truthiness, member access, `||`, `.length` and `Object.keys(..).length`.
    Numbers are integers here; fractional numbers and NaN are not modelled. */
module Json {
  import opened Wrappers

  datatype Value =
    | Null
    | Bool(b: bool)
    | Num(n: int)
    | Str(s: string)
    | Arr(items: seq<Value>)
    | Obj(fields: map<string, Value>)

  /** JavaScript truthiness of a defined value. */
  predicate Truthy(v: Value) {
    match v
    case Null => false
    case Bool(b) => b
    case Num(n) => n != 0
    case Str(s) => |s| > 0
    case Arr(_) => true
    case Obj(_) => true
  }

  /** Truthiness of a possibly undefined value (`undefined` is falsy). */
  predicate TruthyOpt(v: Option<Value>) {
    v.Some? && Truthy(v.value)
  }

  /** `v?.[key]`: the member of an object; `undefined` when `v` is undefined,
      null, or a value that has no such data member. */
  function Member(v: Option<Value>, key: string): (r: Option<Value>)
    ensures r.Some? <==> v.Some? && v.value.Obj? && key in v.value.fields
  {
    if v.Some? && v.value.Obj? && key in v.value.fields then Some(v.value.fields[key]) else None
  }

  /** `v || fallback`. */
  function Or(v: Option<Value>, fallback: Value): (r: Value)
    ensures TruthyOpt(v) ==> r == v.value
    ensures !TruthyOpt(v) ==> r == fallback
  {
    if TruthyOpt(v) then v.value else fallback
  }

  /** `v.length`: defined for strings and arrays, `undefined` otherwise. */
  function Length(v: Value): Option<nat> {
    match v
    case Str(s) => Some(|s|)
    case Arr(a) => Some(|a|)
    case _ => None
  }

  /** `Object.keys(v).length` for a defined, non-null value: the members of
      an object, the indices of an array or a string, none for a number or a
      boolean. */
  function KeyCount(v: Value): nat {
    match v
    case Obj(m) => |m|
    case Arr(a) => |a|
    case Str(s) => |s|
    case _ => 0
  }

  /** Encodes an optional string the way `JSON.stringify` writes `string | null`. */
  function NullableStr(s: Option<string>): Value {
    match s
    case Some(x) => Str(x)
    case None => Null
  }

  function StrArray(xs: seq<string>): (r: Value)
    ensures r.Arr? && |r.items| == |xs|
  {
    Arr(seq(|xs|, i requires 0 <= i < |xs| => Str(xs[i])))
  }
}
