/**
  The loosely typed JavaScript values the plugin reads from its configuration
  and from router replies: primitives, their truthiness, and plain objects with
  the member access and spread the sources use.
  Numbers are modelled as integers; NaN and fractional values are not modelled.
 */
module JsValues {

  /** A primitive JavaScript value. */
  datatype Json = Undefined | Null | Bool(b: bool) | Num(n: int) | Str(s: string)

  /** JavaScript truthiness of a primitive (`if (v)`, `v || d`, `!v`). */
  predicate Truthy(j: Json) {
    match j
    case Bool(b) => b
    case Num(n) => n != 0
    case Str(s) => s != ""
    case _ => false
  }

  /** A configuration value: a primitive, a plain object, or an array. */
  datatype Node = Leaf(value: Json) | Obj(fields: map<string, Node>) | Arr(items: seq<Node>)

  /** Objects and arrays are always truthy; primitives follow `Truthy`. */
  predicate NodeTruthy(n: Node) {
    match n
    case Leaf(j) => Truthy(j)
    case _ => true
  }

  /** `n?.key`: the member if `n` is an object that has it, otherwise `undefined`. */
  function Member(n: Node, key: string): Node {
    if n.Obj? && key in n.fields then n.fields[key] else Leaf(Undefined)
  }

  /** `a || b` on configuration values. */
  function Or(a: Node, b: Node): Node {
    if NodeTruthy(a) then a else b
  }

  /** Whether `n` is `null` or `undefined`, the two values `??` replaces. */
  predicate Nullish(n: Node) {
    n == Leaf(Undefined) || n == Leaf(Null)
  }

  /**
    The own properties `{...n}` copies: the fields of an object; nothing for
    `undefined`, `null`, booleans and numbers.  Spreading a string or an array
    (which copies indexed characters or items) is not modelled and copies nothing.
   */
  function Spread(n: Node): map<string, Node> {
    if n.Obj? then n.fields else map[]
  }
}
