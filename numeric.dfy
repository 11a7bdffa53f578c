/** The two numeric helpers every bound of the synthesiser rests on: `Clamp`
    and `MoveTowards`, plus the `Math.min`/`Math.max` they are written with. */
module Numeric {

  /** `Math.PI` as a double. */
  const Pi: real := 3.141592653589793

  /** A primitive such as `Math.sin` or `Math.cos` whose values lie in [−1, 1]. */
  ghost predicate UnitRange(f: real -> real) {
    forall x :: -1.0 <= f(x) <= 1.0
  }

  function Min(a: real, b: real): (r: real)
    ensures r <= a && r <= b && (r == a || r == b)
  {
    if a < b then a else b
  }

  function Max(a: real, b: real): (r: real)
    ensures a <= r && b <= r && (r == a || r == b)
  {
    if a < b then b else a
  }

  /** `Math.clamp(number, min, max)`: the lower bound wins when it is checked first. */
  function Clamp(x: real, lo: real, hi: real): (r: real)
    ensures lo <= hi ==> lo <= r <= hi
    ensures lo <= x <= hi ==> r == x
    ensures x < lo ==> r == lo
    ensures lo <= x && hi < x ==> r == hi
  {
    if x < lo then lo else if x > hi then hi else x
  }

  lemma ClampIdempotent(x: real, lo: real, hi: real)
    requires lo <= hi
    ensures Clamp(Clamp(x, lo, hi), lo, hi) == Clamp(x, lo, hi)
  {
  }

  /** Clamping to the symmetric interval [-b, b] bounds the magnitude by b. */
  lemma ClampSymmetric(x: real, b: real)
    requires 0.0 <= b
    ensures -b <= Clamp(x, -b, b) <= b
    ensures -b <= x <= b ==> Clamp(x, -b, b) == x
  {
  }

  /** `Math.moveTowards(current, target, amountUp, amountDown)`: one step of at
      most `amountUp` upwards or `amountDown` downwards, never past `target`. */
  function MoveTowards(current: real, target: real, amountUp: real, amountDown: real): (r: real)
    ensures current < target && 0.0 <= amountUp ==> current <= r <= target
    ensures target <= current && 0.0 <= amountDown ==> target <= r <= current
    ensures current < target ==> r - current <= amountUp
    ensures target <= current ==> current - r <= amountDown
    ensures current == target && 0.0 <= amountDown ==> r == target
    ensures 0.0 <= amountUp && 0.0 <= amountDown ==> Min(current, target) <= r <= Max(current, target)
  {
    if current < target then Min(current + amountUp, target)
    else Max(current - amountDown, target)
  }

  /** A step that is large enough lands exactly on the target. */
  lemma MoveTowardsReaches(current: real, target: real, amountUp: real, amountDown: real)
    requires current < target ==> target - current <= amountUp
    requires target <= current ==> current - target <= amountDown
    ensures MoveTowards(current, target, amountUp, amountDown) == target
  {
  }

  /** Linear interpolation between a block's previous and current value,
      `previous·(1−λ) + current·λ`. */
  function Interpolate(previous: real, current: real, lam: real): (r: real)
    ensures lam == 0.0 ==> r == previous
    ensures lam == 1.0 ==> r == current
    ensures 0.0 <= lam <= 1.0 ==> Min(previous, current) <= r <= Max(previous, current)
  {
    InterpolateBetween(previous, current, lam);
    previous * (1.0 - lam) + current * lam
  }

  lemma InterpolateBetween(previous: real, current: real, lam: real)
    ensures 0.0 <= lam <= 1.0 ==>
      Min(previous, current) <= previous * (1.0 - lam) + current * lam <= Max(previous, current)
  {
    if 0.0 <= lam <= 1.0 {
      var lo, hi := Min(previous, current), Max(previous, current);
      var d := hi - lo;
      ScaleDown(d, lam);
      ScaleDown(d, 1.0 - lam);
      if previous <= current {
        assert previous * (1.0 - lam) + current * lam == lo + d * lam;
      } else {
        assert previous * (1.0 - lam) + current * lam == lo + d * (1.0 - lam);
      }
    }
  }

  /** Scaling a non-negative quantity by a factor in [0, 1] keeps it in [0, a]. */
  lemma ScaleDown(a: real, f: real)
    requires 0.0 <= a && 0.0 <= f <= 1.0
    ensures 0.0 <= a * f <= a
  {
  }

  /** A quotient whose numerator is bounded by its positive denominator lies
      in [-1, 1] and has the numerator's sign. */
  lemma RatioBounds(x: real, s: real)
    requires 0.0 < s && -s <= x <= s
    ensures -1.0 <= x / s <= 1.0
    ensures 0.0 < x / s <==> 0.0 < x
    ensures x / s == 0.0 <==> x == 0.0
  {
    var q := x / s;
    assert q * s == x;
    if q > 0.0 {
      assert q * s > 0.0;
    }
  }

  /** Dividing by a positive number keeps a strict order. */
  lemma QuotientsOrdered(x: real, y: real, s: real)
    requires 0.0 < s && x < y
    ensures x / s < y / s
  {
    var p, q := x / s, y / s;
    assert p * s == x && q * s == y;
    if q <= p {
      ScaleMonotone(s, q, p);
    }
  }

  /** Quotients over a common denominator add up like their numerators. */
  lemma SumOfQuotients(x: real, y: real, z: real, s: real)
    requires s != 0.0
    ensures x / s + y / s + z / s == (x + y + z) / s
  {
  }

  /** Scaling by a non-negative factor keeps the order. */
  lemma ScaleMonotone(a: real, x: real, y: real)
    requires 0.0 <= a && x <= y
    ensures x * a <= y * a
  {
    ProductNonNegative(y - x, a);
    assert y * a - x * a == (y - x) * a;
  }

  lemma ProductNonNegative(x: real, y: real)
    requires 0.0 <= x && 0.0 <= y
    ensures 0.0 <= x * y
  {
  }

  /** `k` copies of `x` are one copy and `k - 1` more. */
  lemma PeelMultiple(x: real, k: nat)
    requires 0 < k
    ensures x * k as real == x + x * (k - 1) as real
  {
  }

  /** A number divided by its own negation is −1. */
  lemma NegatedQuotient(x: real, s: real)
    requires s != 0.0 && x == -s
    ensures x / s == -1.0
  {
    var q := x / s;
    assert q * s == x;
    assert (q + 1.0) * s == 0.0;
  }

  /** A product of two numbers of the same sign is positive. */
  lemma ProductPositive(x: real, y: real, p: real)
    requires p == x * y
    requires (0.0 < x && 0.0 < y) || (x < 0.0 && y < 0.0)
    ensures 0.0 < p
  {
    if x < 0.0 {
      assert p == (-x) * (-y);
    }
  }
}
