/** The scattering arithmetic of the Kelly–Lochbaum waveguide the vocal tract
    is built from: the reflection coefficient of a change of cross-section, the
    two-port junction between neighbouring segments, and the three-port
    junction where the nasal cavity branches off the mouth. */
module Junctions {
  import opened Numeric

  /** Waves leaving a two-port junction: `right` travels on towards the lips
      (`junctionOutputR`), `left` travels back towards the glottis
      (`junctionOutputL`). */
  datatype Outgoing = Outgoing(right: real, left: real)

  /** `(a − b) / (a + b)`: the reflection coefficient of the boundary from a
      segment of area `a` (glottis side) into one of area `b` (lip side). */
  function AreaRatio(a: real, b: real): (r: real)
    requires 0.0 <= a && 0.0 <= b && 0.0 < a + b
    ensures -1.0 <= r <= 1.0
    ensures r == 0.0 <==> a == b
    ensures 0.0 < r <==> b < a
    ensures r == 1.0 <==> b == 0.0
    ensures r == -1.0 <==> a == 0.0
  {
    RatioBounds(a - b, a + b);
    (a - b) / (a + b)
  }

  /** Swapping the two sides negates the coefficient. */
  lemma AreaRatioAntisymmetric(a: real, b: real)
    requires 0.0 <= a && 0.0 <= b && 0.0 < a + b
    ensures AreaRatio(b, a) == -AreaRatio(a, b)
  {
    assert (b - a) / (b + a) == -((a - b) / (a + b));
  }

  /** The interior coefficient of `calculateReflections`: a closed segment
      (area 0) gets the fixed value 0.999 instead of the full reflection 1. */
  function ReflectionCoefficient(a: real, b: real): (r: real)
    requires 0.0 <= a && 0.0 <= b
    ensures -1.0 <= r <= 1.0
    ensures b == 0.0 ==> r == 0.999
    ensures b != 0.0 ==> (r == 0.0 <==> a == b)
    ensures b != 0.0 ==> (0.0 < r <==> b < a)
  {
    if b == 0.0 then 0.999 else AreaRatio(a, b)
  }

  /** One interior junction of `runStep`: `w = r·(fromLeft + fromRight)` is
      taken from the wave going right and given to the wave going left. */
  function Scatter(r: real, fromLeft: real, fromRight: real): (o: Outgoing)
    ensures o.right + o.left == fromLeft + fromRight
    ensures r == 0.0 ==> o.right == fromLeft && o.left == fromRight
    ensures o.left - fromRight == fromLeft - o.right
  {
    var w := r * (fromLeft + fromRight);
    Outgoing(fromLeft - w, fromRight + w)
  }

  /** A junction between two segments of equal (non-zero) area passes both
      waves through unchanged. */
  lemma EqualAreasTransparent(a: real, fromLeft: real, fromRight: real)
    requires 0.0 < a
    ensures Scatter(ReflectionCoefficient(a, a), fromLeft, fromRight) == Outgoing(fromLeft, fromRight)
  {
  }

  /** Per-port values of the nose junction: reflection coefficients, or the
      waves leaving towards the glottis (`left`), the lips (`right`) and into
      the nose (`nose`). */
  datatype ThreePort = ThreePort(left: real, right: real, nose: real)

  function Sum(t: ThreePort): real {
    t.left + t.right + t.nose
  }

  /** The coefficient of one port of the nose junction, `(2·a − sum) / sum`,
      where `sum` is the total area meeting at the junction. */
  function PortCoefficient(a: real, sum: real): (r: real)
    requires sum != 0.0
    ensures 0.0 <= a <= sum ==> -1.0 <= r <= 1.0
    ensures a == 0.0 ==> r == -1.0
  {
    PortCoefficientBounds(a, sum);
    (2.0 * a - sum) / sum
  }

  lemma PortCoefficientBounds(a: real, sum: real)
    requires sum != 0.0
    ensures 0.0 <= a <= sum ==> -1.0 <= (2.0 * a - sum) / sum <= 1.0
    ensures a == 0.0 ==> (2.0 * a - sum) / sum == -1.0
  {
    if 0.0 <= a <= sum {
      var q := (2.0 * a - sum) / sum;
      assert q * sum == 2.0 * a - sum;
      if q > 1.0 {
        ScaleMonotone(sum, 1.0, q);
      }
      if q < -1.0 {
        ScaleMonotone(sum, q, -1.0);
      }
    }
    if a == 0.0 {
      NegatedQuotient(2.0 * a - sum, sum);
    }
  }

  /** The three coefficients of `calculateReflections` at the nose junction. */
  function NoseJunctionCoefficients(aLeft: real, aRight: real, aNose: real): (c: ThreePort)
    requires aLeft + aRight + aNose != 0.0
    ensures Sum(c) == -1.0
    ensures 0.0 <= aLeft && 0.0 <= aRight && 0.0 <= aNose ==>
      -1.0 <= c.left <= 1.0 && -1.0 <= c.right <= 1.0 && -1.0 <= c.nose <= 1.0
    ensures aNose == 0.0 ==> c.nose == -1.0
  {
    var sum := aLeft + aRight + aNose;
    PortCoefficientsSum(aLeft, aRight, aNose);
    ThreePort(PortCoefficient(aLeft, sum), PortCoefficient(aRight, sum), PortCoefficient(aNose, sum))
  }

  lemma PortCoefficientsSum(aLeft: real, aRight: real, aNose: real)
    requires aLeft + aRight + aNose != 0.0
    ensures var sum := aLeft + aRight + aNose;
      PortCoefficient(aLeft, sum) + PortCoefficient(aRight, sum) + PortCoefficient(aNose, sum) == -1.0
  {
    var sum := aLeft + aRight + aNose;
    SumOfQuotients(2.0 * aLeft - sum, 2.0 * aRight - sum, 2.0 * aNose - sum, sum);
    NegatedQuotient((2.0 * aLeft - sum) + (2.0 * aRight - sum) + (2.0 * aNose - sum), sum);
  }

  /** The per-sample coefficients at the nose junction: `new·(1−λ) + old·λ`,
      the reverse of the interior junctions' `old·(1−λ) + new·λ`. */
  function Blend(newC: ThreePort, oldC: ThreePort, lam: real): (c: ThreePort)
    ensures Sum(newC) == -1.0 && Sum(oldC) == -1.0 ==> Sum(c) == -1.0
    ensures lam == 0.0 ==> c == newC
    ensures lam == 1.0 ==> c == oldC
  {
    var c := ThreePort(Interpolate(newC.left, oldC.left, lam), Interpolate(newC.right, oldC.right, lam),
                       Interpolate(newC.nose, oldC.nose, lam));
    assert Sum(c) == Sum(newC) * (1.0 - lam) + Sum(oldC) * lam;
    c
  }

  /** The nose junction of `runStep`: each port sends out its own incoming wave
      times its coefficient plus the other two incoming waves times one plus it. */
  function ThreePortScatter(c: ThreePort, fromLeft: real, fromRight: real, fromNose: real): (o: ThreePort)
    ensures Sum(o) == (2.0 + Sum(c)) * (fromLeft + fromRight + fromNose)
    ensures Sum(c) == -1.0 ==> Sum(o) == fromLeft + fromRight + fromNose
  {
    var o := ThreePort(c.left * fromLeft + (1.0 + c.left) * (fromNose + fromRight),
                       c.right * fromRight + (1.0 + c.right) * (fromLeft + fromNose),
                       c.nose * fromNose + (1.0 + c.nose) * (fromRight + fromLeft));
    assert Sum(o) == (2.0 + Sum(c)) * (fromLeft + fromRight + fromNose);
    o
  }

  /** With the velum shut (no nasal area and nothing coming out of the nose)
      the three-port junction is the interior two-port junction between the
      two mouth segments. */
  lemma {:induction false} ClosedNoseIsTwoPort(aLeft: real, aRight: real, fromLeft: real, fromRight: real)
    requires 0.0 <= aLeft && 0.0 <= aRight && 0.0 < aLeft + aRight
    ensures var o := ThreePortScatter(NoseJunctionCoefficients(aLeft, aRight, 0.0), fromLeft, fromRight, 0.0);
      var s := Scatter(AreaRatio(aLeft, aRight), fromLeft, fromRight);
      o.right == s.right && o.left == s.left && o.nose == 0.0
  {
    var c := NoseJunctionCoefficients(aLeft, aRight, 0.0);
    var r := AreaRatio(aLeft, aRight);
    var sum := aLeft + aRight;
    assert c.left == (2.0 * aLeft - sum) / sum == r;
    assert c.right == (2.0 * aRight - sum) / sum == -r;
  }
}
