/**
 * The wrap-around step shared by the image carousel, the career video player and the
 * still-cut viewer: `(prev + dir + n) % n` with JavaScript's remainder operator.
 */
module Carousel {

  /**
   * JavaScript `a % b` for `b > 0`: the remainder of the division truncated toward zero.
   * It has the sign of `a`, agrees with the mathematical modulus on non-negative `a`
   * (Dafny's own `%` never returns a negative value) and is odd in `a`.
   */
  function JsRem(a: int, b: int): (r: int)
    requires b > 0
    ensures -b < r < b
    ensures a >= 0 ==> 0 <= r && r == a % b
    ensures a <= 0 ==> r <= 0 && r == -((-a) % b)
  {
    if a >= 0 then a % b else -((-a) % b)
  }

  /**
   * `go(dir)`: the next index for `current` among `n` items. It lands in `[0, n)` whenever
   * `current + dir + n` is not negative, which covers a step of one either way from any
   * valid index and also a step from an index at or past the end. Within range it moves
   * by `dir`; past either end it wraps by `n`.
   */
  function Step(current: int, dir: int, n: int): (r: int)
    requires n > 0
    ensures current + dir + n >= 0 ==> 0 <= r < n
    ensures 0 <= current + dir < n ==> r == current + dir
    ensures n <= current + dir < 2 * n ==> r == current + dir - n
    ensures -n <= current + dir < 0 ==> r == current + dir + n
  {
    ModWithinThree(current + dir + n, n);
    JsRem(current + dir + n, n)
  }

  /** Below `b` the remainder is the number itself; from `b` on, below `3 * b`, it is `b` or `2 * b` less. */
  lemma ModWithinThree(a: int, b: int)
    requires b > 0
    ensures 0 <= a < b ==> a % b == a
    ensures b <= a < 2 * b ==> a % b == a - b
    ensures 2 * b <= a < 3 * b ==> a % b == a - 2 * b
  {
    if b <= a < 2 * b {
      assert a == b * 1 + (a - b);
    } else if 2 * b <= a < 3 * b {
      assert a == b * 2 + (a - 2 * b);
    }
  }

  /** Stepping forward then back returns to the same valid index, and so does back then forward. */
  lemma StepBackAndForth(current: int, n: int)
    requires 0 <= current < n
    ensures Step(Step(current, 1, n), -1, n) == current
    ensures Step(Step(current, -1, n), 1, n) == current
  {
  }

  /** `k` presses of the forward button. */
  function StepForward(current: int, k: nat, n: int): int
    requires n > 0
  {
    if k == 0 then current else Step(StepForward(current, k - 1, n), 1, n)
  }

  /**
   * From a valid index, `k <= n` forward steps move `k` places with one wrap past the end;
   * in particular `n` of them return to the start.
   */
  lemma {:induction false} StepForwardCycle(current: int, k: nat, n: int)
    requires 0 <= current < n && k <= n
    ensures StepForward(current, k, n) == if current + k < n then current + k else current + k - n
    ensures k == n ==> StepForward(current, k, n) == current
  {
    if k > 0 {
      StepForwardCycle(current, k - 1, n);
    }
  }
}
