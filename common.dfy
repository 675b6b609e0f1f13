/** Small shared vocabulary: an optional value, the way TypeScript's `x?.y` and
    `Array.prototype.find` return either a value or `undefined`. */
module Common {

  datatype Option<+T> = None | Some(value: T) {
    function GetOr(default: T): T {
      match this
      case Some(v) => v
      case None => default
    }
  }

  /** JavaScript's `n || d` on a number: a zero falls back to the default. */
  function OrNum(n: int, d: int): int {
    if n == 0 then d else n
  }

  /** JavaScript's `s || d` on a string: the empty string falls back to the default. */
  function OrStr(s: string, d: string): string {
    if s == "" then d else s
  }

  /** JavaScript's `Math.round`: the nearest integer, halves rounding up. */
  function Round(x: real): (r: int)
    ensures r as real - 0.5 <= x < r as real + 0.5
  {
    (x + 0.5).Floor
  }

  /** A part of a positive whole is a fraction between 0 and 1. */
  lemma FractionAtMostOne(a: real, b: real)
    requires 0.0 <= a <= b && b > 0.0
    ensures 0.0 <= a / b <= 1.0
  {
  }
}
