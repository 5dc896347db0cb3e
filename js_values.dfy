/** The few JavaScript values the modelled code inspects, and their truthiness. */
module JsValues {
  import opened Wrappers

  /** A dynamically typed value as seen by `switch`, `typeof` and `if`.
      Numbers are integers here: every number the core switches on or
      packs is an integer. */
  datatype Value = Undefined | Num(n: int) | Str(s: string) | Bool(b: bool)

  /** JavaScript truthiness: `undefined`, `0`, `""` and `false` are falsy. */
  predicate Truthy(v: Value)
  {
    match v
    case Undefined => false
    case Num(n) => n != 0
    case Str(s) => s != ""
    case Bool(b) => b
  }

  /** An optional string field read as a JavaScript value. */
  function StrValue(s: Option<string>): Value
  {
    if s.Some? then Str(s.value) else Undefined
  }

  /** An optional number field read as a JavaScript value. */
  function NumValue(n: Option<int>): Value
  {
    if n.Some? then Num(n.value) else Undefined
  }
}
