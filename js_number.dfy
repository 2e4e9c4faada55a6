/**
 * The part of JavaScript's number semantics the validators and the price
 * assembly depend on: NaN, the relational operators (every comparison with
 * NaN is false) and Math.round.
 */
module JsNumber {

  /** A JavaScript number as produced by `Number(...)`: NaN or a finite value. */
  datatype Num = NaN | Val(v: real)

  /** `x < c` in JavaScript. */
  predicate Less(x: Num, c: real) {
    x.Val? && x.v < c
  }

  /** `x > c` in JavaScript. */
  predicate Greater(x: Num, c: real) {
    x.Val? && x.v > c
  }

  /** `x <= c` in JavaScript. */
  predicate AtMost(x: Num, c: real) {
    x.Val? && x.v <= c
  }

  /** `x == c` in JavaScript (loose equality between two numbers). */
  predicate Equals(x: Num, c: real) {
    x.Val? && x.v == c
  }

  /**
   * `Math.round(x)`: the integer nearest to x, a tie going to the larger
   * neighbour (so -2.5 rounds to -2, unlike round-half-away-from-zero).
   */
  function Round(x: real): (r: int)
    ensures r as real - 0.5 <= x < r as real + 0.5
  {
    (x + 0.5).Floor
  }

  /** The interval in Round's contract has exactly one integer in it. */
  lemma RoundUnique(x: real, k: int)
    requires k as real - 0.5 <= x < k as real + 0.5
    ensures Round(x) == k
  {
    var r := Round(x);
    assert r as real - k as real < 1.0 && k as real - r as real < 1.0;
  }

  /** `Math.max(x, y)`. */
  function Max(x: int, y: int): (r: int)
    ensures r >= x && r >= y
    ensures r == x || r == y
  {
    if x >= y then x else y
  }
}
