/** The two Python numeric built-ins the calculator relies on, over exact reals:
    `int(x)` on a float, which truncates toward zero, and `max(x, 0)`. */
module Numerics {

  /** `int(x)`: the integer part of `x`, rounded toward zero. */
  function Truncate(x: real): (n: int)
    ensures 0.0 <= x ==> 0 <= n && n as real <= x < n as real + 1.0
    ensures x <= 0.0 ==> n <= 0 && n as real - 1.0 < x <= n as real
  {
    if 0.0 <= x then x.Floor else -((-x).Floor)
  }

  /** On non-negative inputs truncation is the floor. */
  lemma TruncateIsFloor(x: real)
    requires 0.0 <= x
    ensures Truncate(x) == x.Floor
  {
  }

  /** Truncation toward zero is symmetric about zero. */
  lemma TruncateOdd(x: real)
    ensures Truncate(-x) == -Truncate(x)
  {
  }

  /** Truncation never reverses the order of its inputs. */
  lemma TruncateMonotone(x: real, y: real)
    requires x <= y
    ensures Truncate(x) <= Truncate(y)
  {
  }

  /** Any integer that brackets a non-negative `x` the way the floor does is its truncation. */
  lemma TruncateUnique(x: real, k: int)
    requires 0.0 <= x
    requires k as real <= x < k as real + 1.0
    ensures Truncate(x) == k
  {
  }

  /** `max(x, 0)`: the least value that is at least `x` and at least `0`. */
  function AtLeastZero(x: real): (r: real)
    ensures 0.0 <= r && x <= r
    ensures r == x || r == 0.0
  {
    if 0.0 > x then 0.0 else x
  }

  /** `max(x, 0)` never reverses the order of its inputs. */
  lemma AtLeastZeroMonotone(x: real, y: real)
    requires x <= y
    ensures AtLeastZero(x) <= AtLeastZero(y)
  {
  }
}
