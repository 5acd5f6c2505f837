/** The part of JavaScript's value semantics that the Padi broker relies on:
    a property read that may yield `undefined` or `null`, a property read on a
    reply body that throws when the body is `null`, truthiness with `||`, and
    the string coercion done by `+`. */
module Js {

  /** The value of one property of a reply body. Only the kinds the broker
      distinguishes are modelled: a missing property (`undefined`), `null`
      and a string. */
  datatype Field = Undefined | Null | Str(s: string)

  /** A reply body as the HTTP client hands it over. Reading a property of a
      `null` (or `undefined`) body throws a TypeError; reading one of an
      object yields the property or `undefined`. A body that is a bare string
      or number behaves like `Obj(Undefined, Undefined)`: none of its
      properties is defined. */
  datatype Body = Nullish | Obj(padiThing: Field, padiToken: Field)

  /** JavaScript truthiness restricted to `Field`: only a non-empty string is
      truthy. */
  predicate Truthy(f: Field)
  {
    f.Str? && f.s != ""
  }

  /** `f || ''`: the value itself when truthy, the empty string otherwise.
      The result is always a string, and every string field (the empty one
      included) comes back exactly as it was. */
  function OrEmpty(f: Field): (r: string)
    ensures f.Str? ==> r == f.s
    ensures !f.Str? ==> r == ""
  {
    if Truthy(f) then f.s else ""
  }

  /** `String(f)`, the coercion `+` applies to a non-string operand. */
  function ToJsString(f: Field): string
  {
    match f
    case Undefined => "undefined"
    case Null => "null"
    case Str(s) => s
  }

  /** `prefix + f` in JavaScript, for a string prefix. */
  function Concat(prefix: string, f: Field): (r: string)
    ensures |r| >= |prefix| && r[..|prefix|] == prefix
    ensures f.Str? ==> r[|prefix|..] == f.s
    ensures f.Null? ==> r[|prefix|..] == "null"
  {
    prefix + ToJsString(f)
  }
}
