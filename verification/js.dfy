/** The two JavaScript operators the widget relies on, over optional values.
    `undefined` is `None`; a string is falsy exactly when it is `undefined` or empty. */
module Js {

  /** An optional value: `undefined` (None) or a present value. */
  datatype Option<+T> = None | Some(value: T)

  /** JavaScript truthiness of a value typed `string | undefined`. */
  predicate Truthy(s: Option<string>) {
    s.Some? && s.value != ""
  }

  /** `a || b` where `a` is an optional string and `b` a string. */
  function Or(a: Option<string>, b: string): string {
    if Truthy(a) then a.value else b
  }

  /** `a ?? b`: only `undefined` falls back, every present value is kept. */
  function Coalesce<T>(a: Option<T>, b: T): (r: T)
    ensures a.Some? ==> r == a.value
    ensures a.None? ==> r == b
  {
    match a
    case Some(v) => v
    case None => b
  }

  /** `??` and `||` differ only on a present but empty string: `??` keeps it,
      `||` replaces it by the fallback. */
  lemma CoalesceVersusOr(a: Option<string>, b: string)
    ensures Coalesce(a, b) == Or(a, b) <==> a != Some("") || b == ""
  {
  }

  /** `||` yields a falsy string only when both operands are falsy, and it picks
      its left operand exactly when that operand is truthy. */
  lemma OrTruthiness(a: Option<string>, b: string)
    ensures Truthy(Some(Or(a, b))) <==> Truthy(a) || b != ""
    ensures Or(a, b) == b <==> !Truthy(a) || a.value == b
  {
  }
}
