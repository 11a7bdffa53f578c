/** The tract control: the tongue handle sets the rest shape of the mouth,
    and every other pointer on the tract canvas carves a constriction into
    the target shape or, below the midline past the nose, opens the velum. */
module TractUI {
  import opened Numeric
  import opened Touches
  import opened Tract

  /** The tongue handle's ring on the canvas, in diameter units. */
  const InnerTongueControlRadius: real := 2.05
  const OuterTongueControlRadius: real := 3.5
  /** How far below the midline the nasal region begins, in diameter units. */
  const NoseOffset: real := 0.8
  const GridOffset: real := 1.7
  /** The tongue moves between two segments past the blade and three before
      the tip, and is centred between the two. */
  const TongueLowerIndexBound: real := (BladeStart + 2) as real
  const TongueUpperIndexBound: real := (TipStart - 3) as real
  const TongueIndexCentre: real := 0.5 * (TongueLowerIndexBound + TongueUpperIndexBound)

  /** Where a canvas point lies on the tract: `index` is `getIndex` (the
      position along the tract, from an `atan2`) and `diameter` is
      `getDiameter` (the distance inwards from the outer wall, from a `sqrt`). */
  datatype Geometry = Geometry(index: (real, real) -> real, diameter: (real, real) -> real)

  /** A touch as `handleTouches` sees it. */
  datatype Placement = Placement(alive: bool, fricativeIntensity: real, y: real, index: real, diameter: real)

  function Place(t: Touch, g: Geometry): Placement
    reads t
  {
    Placement(t.alive, t.fricativeIntensity, t.y, g.index(t.x, t.y), g.diameter(t.x, t.y))
  }

  function Placements(ts: seq<Touch>, g: Geometry): (ps: seq<Placement>)
    reads ts
    ensures |ps| == |ts|
    ensures forall i :: 0 <= i < |ts| ==> ps[i] == Place(ts[i], g)
  {
    seq(|ts|, i reads ts requires 0 <= i < |ts| => Place(ts[i], g))
  }

  /** `Math.pow` of a fraction by a positive exponent is a fraction. */
  ghost predicate FractionPowers(pow: (real, real) -> real) {
    forall a, b :: 0.0 <= a <= 1.0 && 0.0 < b ==> 0.0 <= pow(a, b) <= 1.0
  }

  function Abs(x: real): (r: real)
    ensures 0.0 <= r && (r == x || r == -x)
  {
    if x < 0.0 then -x else x
  }

  /** `Math.round`: halves round up. */
  function Round(x: real): (r: int)
    ensures x - 0.5 < r as real <= x + 0.5
  {
    (x + 0.5).Floor
  }

  /** `Math.ceil`. */
  function Ceil(x: real): (r: int)
    ensures x <= r as real < x + 1.0
  {
    -((-x).Floor)
  }

  // ---------------------------------------------------------------------
  // The tongue handle

  /** A touch that can take hold of the tongue: alive, new (its fricative
      intensity has not yet reached 1), and on the handle's ring with a
      margin of 4 segments and half a diameter unit. */
  predicate GrabsTongue(p: Placement) {
    p.alive && p.fricativeIntensity != 1.0 &&
    TongueLowerIndexBound - 4.0 <= p.index <= TongueUpperIndexBound + 4.0 &&
    InnerTongueControlRadius - 0.5 <= p.diameter <= OuterTongueControlRadius + 0.5
  }

  /** The index of the last of the first `n` touches that takes hold of the
      tongue, or −1 (the search does not stop at the first). */
  function LastGrab(ps: seq<Placement>, n: int): (k: int)
    requires 0 <= n <= |ps|
    ensures -1 <= k < n
    ensures 0 <= k ==> GrabsTongue(ps[k])
    ensures forall l :: k < l < n ==> !GrabsTongue(ps[l])
    decreases n
  {
    if n == 0 then -1
    else if GrabsTongue(ps[n - 1]) then n - 1
    else LastGrab(ps, n - 1)
  }

  /** The touch the tongue handle picks up from the first `n` touches,
      placed at `ps`. */
  function Grabbed(ts: seq<Touch>, ps: seq<Placement>, n: int): Touch?
    requires |ps| == |ts| && 0 <= n <= |ts|
  {
    var k := LastGrab(ps, n);
    if k < 0 then null else ts[k]
  }

  /** How far the handle is pulled in from the outer ring, as a fraction,
      bent by `pow(·, 0.58) − 0.2·(f² − f)` to straighten the response. */
  function FromPoint(diameter: real, pow: (real, real) -> real): (f: real)
    ensures FractionPowers(pow) ==> 0.0 <= f <= 1.05
  {
    var linear := Clamp((OuterTongueControlRadius - diameter) /
                        (OuterTongueControlRadius - InnerTongueControlRadius), 0.0, 1.0);
    KludgeBounds(linear);
    pow(linear, 0.58) - 0.2 * (linear * linear - linear)
  }

  lemma KludgeBounds(x: real)
    requires 0.0 <= x <= 1.0
    ensures -0.25 <= x * x - x <= 0.0
  {
    ScaleDown(x, x);
    assert x * x - x + 0.25 == (x - 0.5) * (x - 0.5);
  }

  /** The tongue position under the handle: the pointer's index, kept within
      `fromPoint · 8.5` segments of the centre, so the tongue can reach the
      ends of its range only when pulled in. */
  function TongueIndex(index: real, fromPoint: real): (r: real)
    ensures 0.0 <= fromPoint ==>
      TongueIndexCentre - fromPoint * 8.5 <= r <= TongueIndexCentre + fromPoint * 8.5
    ensures 0.0 <= fromPoint && Abs(index - TongueIndexCentre) <= fromPoint * 8.5 ==> r == index
  {
    var out := fromPoint * 0.5 * (TongueUpperIndexBound - TongueLowerIndexBound);
    Clamp(index, TongueIndexCentre - out, TongueIndexCentre + out)
  }

  /** Wherever the handle is dragged, the tongue stays within 8.925 segments
      of the centre, that is between segments 11.575 and 29.425. */
  lemma TongueWithinReach(index: real, diameter: real, pow: (real, real) -> real)
    requires FractionPowers(pow)
    ensures TongueIndexCentre - 8.925 <= TongueIndex(index, FromPoint(diameter, pow)) <= TongueIndexCentre + 8.925
  {
    var f := FromPoint(diameter, pow);
    ScaleMonotone(8.5, f, 1.05);
  }

  // ---------------------------------------------------------------------
  // The rest shape

  /** `setRestDiameter` at segment `i`: `1.5 − curve`, where the curve is a
      cosine bump around the tongue whose height grows as the tongue is
      pulled in, flattened by 0.8 at the last lip segment and by 0.94 at the
      blade and the segment before it. */
  function RestDiameter(i: int, tongueIndex: real, tongueDiameter: real, cos: real -> real): real {
    var t := 1.1 * Pi * (tongueIndex - i as real) / (TipStart - BladeStart) as real;
    var fixedTongueDiameter := 2.0 + (tongueDiameter - 2.0) / 1.5;
    var curve := (1.5 - fixedTongueDiameter + GridOffset) * cos(t);
    var flattened := if i == BladeStart - 2 || i == LipStart - 1 then curve * 0.8 else curve;
    1.5 - (if i == BladeStart || i == LipStart - 2 then flattened * 0.94 else flattened)
  }

  /** With the handle on its ring the rest shape is open everywhere: between
      0.3 and 2.7. */
  lemma RestDiameterBounds(i: int, tongueIndex: real, tongueDiameter: real, cos: real -> real)
    requires UnitRange(cos)
    requires InnerTongueControlRadius <= tongueDiameter <= OuterTongueControlRadius
    ensures 0.3 <= RestDiameter(i, tongueIndex, tongueDiameter, cos) <= 2.7
  {
    var t := 1.1 * Pi * (tongueIndex - i as real) / (TipStart - BladeStart) as real;
    var height := 1.5 - (2.0 + (tongueDiameter - 2.0) / 1.5) + GridOffset;
    var c := cos(t);
    assert 0.2 <= height <= 1.17;
    ScaleMonotone(height, c, 1.0);
    ScaleMonotone(height, -1.0, c);
    assert -1.17 <= height * c <= 1.17;
  }

  // ---------------------------------------------------------------------
  // Constrictions

  /** The half-width of a constriction: 10 segments behind segment 25, 5 at
      the tip and beyond, narrowing linearly in between. */
  function ConstrictionWidth(index: real): (w: real)
    ensures 5.0 <= w <= 10.0
    ensures index < 25.0 ==> w == 10.0
    ensures TipStart as real <= index ==> w == 5.0
  {
    if index < 25.0 then 10.0
    else if index >= TipStart as real then 5.0
    else
      WidthSlope(index);
      10.0 - 5.0 * (index - 25.0) / (TipStart as real - 25.0)
  }

  lemma WidthSlope(index: real)
    requires 25.0 <= index < TipStart as real
    ensures 0.0 <= 5.0 * (index - 25.0) / (TipStart as real - 25.0) <= 5.0
  {
    var q := 5.0 * (index - 25.0) / 7.0;
    assert q * 7.0 == 5.0 * (index - 25.0);
  }

  /** Constrictions narrow towards the lips. */
  lemma WidthNarrowsTowardsLips(a: real, b: real)
    requires a <= b
    ensures ConstrictionWidth(b) <= ConstrictionWidth(a)
  {
    if 25.0 <= a < TipStart as real && 25.0 <= b < TipStart as real {
      assert 5.0 * (a - 25.0) / 7.0 <= 5.0 * (b - 25.0) / 7.0;
    }
  }

  /** How much of the old target survives at `relpos` segments beyond the
      flat middle of a constriction: none inside it, all of it beyond the
      width, a raised cosine in between. */
  function Shrink(relpos: real, width: real, cos: real -> real): (s: real)
    ensures relpos <= 0.0 ==> s == 0.0
    ensures 0.0 < relpos && width < relpos ==> s == 1.0
    ensures UnitRange(cos) ==> 0.0 <= s <= 1.0
  {
    if relpos <= 0.0 then 0.0
    else if relpos > width then 1.0
    else 0.5 * (1.0 - cos(Pi * relpos / width))
  }

  /** One target under a constriction of depth `d`: a target already
      narrower than `d` is kept; otherwise it moves the fraction
      `1 − shrink` of the way down to `d`. */
  function Carve(target: real, d: real, shrink: real): (r: real)
    ensures 0.0 <= shrink <= 1.0 ==> Min(d, target) <= r <= target
    ensures shrink == 0.0 ==> r == Min(d, target)
    ensures shrink == 1.0 ==> r == target
  {
    if d < target then
      PartWay(d, target, shrink);
      d + (target - d) * shrink
    else target
  }

  lemma PartWay(d: real, target: real, shrink: real)
    requires d < target
    ensures var r := d + (target - d) * shrink;
      (0.0 <= shrink <= 1.0 ==> Min(d, target) <= r <= target) &&
      (shrink == 0.0 ==> r == Min(d, target)) && (shrink == 1.0 ==> r == target)
  {
    assert Min(d, target) == d;
    if 0.0 <= shrink <= 1.0 {
      ScaleDown(target - d, shrink);
    }
  }

  /** The segments the loop of `handleTouches` visits around a constriction
      at `index`: offsets from `-ceil(width) − 1` while below `width + 1`
      from the rounded index. */
  predicate InWindow(k: int, index: real, width: real) {
    var c := Round(index);
    -Ceil(width) - 1 <= k - c && ((k - c) as real) < width + 1.0
  }

  /** Target `k` under a constriction of depth `d` and half-width `width`
      at `index`, by its distance from the constriction's flat middle. */
  function Carving(target: real, k: int, index: real, d: real, width: real, cos: real -> real): real {
    Carve(target, d, Shrink(Abs(k as real - index) - 0.5, width, cos))
  }

  /** Target `k` after a constriction of depth `d` at `index`: the
      segments in the window are carved, the others kept. */
  function CarvedBy(target: real, k: int, index: real, d: real, cos: real -> real): real {
    var width := ConstrictionWidth(index);
    if InWindow(k, index, width) then Carving(target, k, index, d, width, cos) else target
  }

  /** The window is wide enough: outside it the shrink is 1, so limiting the
      loop to the window changes nothing, and a constriction acts on every
      segment by the one formula. */
  lemma WindowCoversConstriction(target: real, k: int, index: real, d: real, cos: real -> real)
    ensures CarvedBy(target, k, index, d, cos) == Carving(target, k, index, d, ConstrictionWidth(index), cos)
  {
    var width := ConstrictionWidth(index);
    var c := Round(index);
    if !InWindow(k, index, width) {
      assert width < Abs(k as real - index) - 0.5;
    }
  }

  /** The effect of one touch on target `k` (`handleTouches`, lines of the
      second touch loop): dead touches and touches far below the midline do
      nothing; otherwise the depth is the pointer's diameter less 0.3,
      floored at 0, and the constriction applies only inside the tract, on
      the canvas, and when narrower than 3. */
  function CarveOne(target: real, k: int, p: Placement, canvasHeight: real, cos: real -> real): real {
    if !p.alive || p.diameter < -0.85 - NoseOffset then target
    else
      var d := Max(p.diameter - 0.3, 0.0);
      if 2.0 <= p.index && p.index < N as real && p.y < canvasHeight && d < 3.0
      then CarvedBy(target, k, p.index, d, cos)
      else target
  }

  /** Target `k` after the first `n` touches in order. */
  function CarveAll(base: real, k: int, ps: seq<Placement>, n: int, canvasHeight: real, cos: real -> real): real
    requires 0 <= n <= |ps|
    decreases n
  {
    if n == 0 then base
    else CarveOne(CarveAll(base, k, ps, n - 1, canvasHeight, cos), k, ps[n - 1], canvasHeight, cos)
  }

  /** A touch that is dead, far below the midline, outside segments [2, n),
      off the canvas, or too wide leaves every target alone. */
  lemma IdleTouch(target: real, k: int, p: Placement, canvasHeight: real, cos: real -> real)
    requires !p.alive || p.diameter < -0.85 - NoseOffset || p.diameter >= 3.3 ||
             p.index < 2.0 || N as real <= p.index || canvasHeight <= p.y
    ensures CarveOne(target, k, p, canvasHeight, cos) == target
  {
  }

  /** Carving never raises a target and never takes a non-negative one below
      zero. */
  lemma {:induction false} CarvingLowers(base: real, k: int, ps: seq<Placement>, n: int, canvasHeight: real,
                                         cos: real -> real)
    requires 0 <= n <= |ps| && UnitRange(cos)
    ensures CarveAll(base, k, ps, n, canvasHeight, cos) <= base
    ensures 0.0 <= base ==> 0.0 <= CarveAll(base, k, ps, n, canvasHeight, cos)
    decreases n
  {
    if n > 0 {
      CarvingLowers(base, k, ps, n - 1, canvasHeight, cos);
      var before := CarveAll(base, k, ps, n - 1, canvasHeight, cos);
      var p := ps[n - 1];
      if p.alive && p.diameter >= -0.85 - NoseOffset {
        WindowCoversConstriction(before, k, p.index, Max(p.diameter - 0.3, 0.0), cos);
      }
    }
  }

  // ---------------------------------------------------------------------
  // The velum

  /** A touch below the midline past the start of the nose opens the velum. */
  predicate OpensNose(p: Placement) {
    p.alive && p.index > NoseStart as real && p.diameter < -NoseOffset
  }

  function AnyOpensNose(ps: seq<Placement>, n: int): (r: bool)
    requires 0 <= n <= |ps|
    ensures r <==> exists k :: 0 <= k < n && OpensNose(ps[k])
    decreases n
  {
    n > 0 && (OpensNose(ps[n - 1]) || AnyOpensNose(ps, n - 1))
  }

  /** `TractUIClass`: the tongue handle and the touch holding it. */
  class TongueControl {
    var tongueIndex: real
    var tongueDiameter: real
    var tongueTouch: Touch?

    /** The tongue stays on its ring. */
    ghost predicate Valid()
      reads this`tongueDiameter
    {
      InnerTongueControlRadius <= tongueDiameter <= OuterTongueControlRadius
    }

    /** The constructor: the tongue at segment 12.9 and diameter 2.43, the
        rest shape it gives, and the tract's current and target shapes set
        to it. */
    constructor (tract: VocalTract, cos: real -> real)
      requires tract.Allocated()
      modifies tract.restDiameter, tract.diameter, tract.targetDiameter
      ensures Valid() && tongueIndex == 12.9 && tongueDiameter == 2.43 && tongueTouch == null
      ensures forall i :: 0 <= i < N ==>
        tract.restDiameter[i] == (if BladeStart <= i < LipStart then RestDiameter(i, 12.9, 2.43, cos)
                                  else old(tract.restDiameter[i])) &&
        tract.diameter[i] == tract.restDiameter[i] && tract.targetDiameter[i] == tract.restDiameter[i]
    {
      tongueIndex := 12.9;
      tongueDiameter := 2.43;
      tongueTouch := null;
      new;
      SetRestDiameter(tract, cos);
      for i := 0 to N
        modifies tract.diameter, tract.targetDiameter
        invariant forall k :: 0 <= k < N ==>
          tract.restDiameter[k] == (if BladeStart <= k < LipStart then RestDiameter(k, 12.9, 2.43, cos)
                                    else old(tract.restDiameter[k]))
        invariant forall k :: 0 <= k < i ==>
          tract.diameter[k] == tract.restDiameter[k] && tract.targetDiameter[k] == tract.restDiameter[k]
      {
        tract.targetDiameter[i] := tract.restDiameter[i];
        tract.diameter[i] := tract.targetDiameter[i];
      }
    }

    /** `setRestDiameter`: the rest shape of the mouth from the tongue. */
    method SetRestDiameter(tract: VocalTract, cos: real -> real)
      requires tract.Allocated()
      modifies tract.restDiameter
      ensures forall i :: 0 <= i < N ==>
        tract.restDiameter[i] == (if BladeStart <= i < LipStart then RestDiameter(i, tongueIndex, tongueDiameter, cos)
                                  else old(tract.restDiameter[i]))
    {
      for i := BladeStart to LipStart
        invariant forall k :: 0 <= k < N ==>
          tract.restDiameter[k] == (if BladeStart <= k < i then RestDiameter(k, tongueIndex, tongueDiameter, cos)
                                    else old(tract.restDiameter[k]))
      {
        var t := 1.1 * Pi * (tongueIndex - i as real) / (TipStart - BladeStart) as real;
        var fixedTongueDiameter := 2.0 + (tongueDiameter - 2.0) / 1.5;
        var curve := (1.5 - fixedTongueDiameter + GridOffset) * cos(t);
        if i == BladeStart - 2 || i == LipStart - 1 {
          curve := curve * 0.8;
        }
        if i == BladeStart || i == LipStart - 2 {
          curve := curve * 0.94;
        }
        tract.restDiameter[i] := 1.5 - curve;
      }
    }

    /** `handleTouches`: a released handle is let go and, when none is held,
        the last new touch on the ring takes hold; a held handle moves the
        tongue; the targets are reset to the new rest shape and then carved
        by every touch, which may also open the velum. */
    method HandleTouches(tract: VocalTract, touches: seq<Touch>, g: Geometry, cos: real -> real,
                         pow: (real, real) -> real, canvasHeight: real)
      requires Valid() && tract.Valid()
      modifies this, tract.restDiameter, tract.targetDiameter, tract`velumTarget
      ensures Valid() && tract.Valid()
      ensures tongueTouch ==
        (if old(tongueTouch) != null && old(tongueTouch.alive) then old(tongueTouch)
         else Grabbed(touches, old(Placements(touches, g)), |touches|))
      ensures tongueTouch == null ==> tongueIndex == old(tongueIndex) && tongueDiameter == old(tongueDiameter)
      ensures tongueTouch != null ==>
        var p := Place(tongueTouch, g);
        tongueDiameter == Clamp(p.diameter, InnerTongueControlRadius, OuterTongueControlRadius) &&
        tongueIndex == TongueIndex(p.index, FromPoint(p.diameter, pow))
      ensures forall i :: 0 <= i < N ==>
        tract.restDiameter[i] == (if BladeStart <= i < LipStart then RestDiameter(i, tongueIndex, tongueDiameter, cos)
                                  else old(tract.restDiameter[i]))
      ensures forall k :: 0 <= k < N ==>
        tract.targetDiameter[k] ==
          CarveAll(tract.restDiameter[k], k, old(Placements(touches, g)), |touches|, canvasHeight, cos)
      ensures tract.velumTarget == (if AnyOpensNose(old(Placements(touches, g)), |touches|) then 0.4 else 0.01)
    {
      ghost var ps := Placements(touches, g);
      MoveTongue(touches, g, pow, ps);
      ReshapeTargets(tract, touches, g, cos, canvasHeight, ps);
    }

    /** The tongue half of `handleTouches`. */
    method MoveTongue(touches: seq<Touch>, g: Geometry, pow: (real, real) -> real, ghost ps: seq<Placement>)
      requires Valid() && ps == Placements(touches, g)
      modifies this`tongueTouch, this`tongueIndex, this`tongueDiameter
      ensures Valid()
      ensures tongueTouch ==
        (if old(tongueTouch) != null && old(tongueTouch.alive) then old(tongueTouch)
         else Grabbed(touches, ps, |touches|))
      ensures tongueTouch == null ==> tongueIndex == old(tongueIndex) && tongueDiameter == old(tongueDiameter)
      ensures tongueTouch != null ==>
        var p := Place(tongueTouch, g);
        tongueDiameter == Clamp(p.diameter, InnerTongueControlRadius, OuterTongueControlRadius) &&
        tongueIndex == TongueIndex(p.index, FromPoint(p.diameter, pow))
    {
      SelectTongueTouch(touches, g, ps);
      if tongueTouch != null {
        FollowTongue(g, pow);
      }
    }

    /** The shape half of `handleTouches`: the rest shape from the tongue,
        the targets reset to it, then the touch loop. */
    method ReshapeTargets(tract: VocalTract, touches: seq<Touch>, g: Geometry, cos: real -> real,
                          canvasHeight: real, ghost ps: seq<Placement>)
      requires tract.Valid() && ps == Placements(touches, g)
      modifies tract.restDiameter, tract.targetDiameter, tract`velumTarget
      ensures tract.Valid()
      ensures forall i :: 0 <= i < N ==>
        tract.restDiameter[i] == (if BladeStart <= i < LipStart then RestDiameter(i, tongueIndex, tongueDiameter, cos)
                                  else old(tract.restDiameter[i]))
      ensures forall k :: 0 <= k < N ==>
        tract.targetDiameter[k] == CarveAll(tract.restDiameter[k], k, ps, |touches|, canvasHeight, cos)
      ensures tract.velumTarget == (if AnyOpensNose(ps, |touches|) then 0.4 else 0.01)
    {
      SetRestDiameter(tract, cos);
      for i := 0 to N
        modifies tract.targetDiameter
        invariant forall k :: 0 <= k < i ==> tract.targetDiameter[k] == tract.restDiameter[k]
      {
        tract.targetDiameter[i] := tract.restDiameter[i];
      }
      Constrict(tract, touches, g, cos, canvasHeight, ps);
    }

    /** The first part of `handleTouches`: the search for a touch to hold
        the tongue. */
    method SelectTongueTouch(touches: seq<Touch>, g: Geometry, ghost ps: seq<Placement>)
      requires ps == Placements(touches, g)
      modifies this`tongueTouch
      ensures tongueTouch ==
        (if old(tongueTouch) != null && old(tongueTouch.alive) then old(tongueTouch)
         else Grabbed(touches, ps, |touches|))
    {
      if tongueTouch != null && !tongueTouch.alive {
        tongueTouch := null;
      }
      if tongueTouch == null {
        for j := 0 to |touches|
          invariant tongueTouch == Grabbed(touches, ps, j)
        {
          var touch := touches[j];
          assert ps[j] == Place(touch, g);
          if !touch.alive {
            continue;
          }
          if touch.fricativeIntensity == 1.0 {
            continue;
          }
          var x := touch.x;
          var y := touch.y;
          var index := g.index(x, y);
          var diameter := g.diameter(x, y);
          if index >= TongueLowerIndexBound - 4.0 && index <= TongueUpperIndexBound + 4.0 &&
             diameter >= InnerTongueControlRadius - 0.5 && diameter <= OuterTongueControlRadius + 0.5 {
            tongueTouch := touch;
          }
        }
      }
    }

    /** The second part of `handleTouches`: the held handle sets the
        tongue's diameter, clamped to the ring, and its index, kept near the
        centre by how far the handle is pulled in. */
    method FollowTongue(g: Geometry, pow: (real, real) -> real)
      requires tongueTouch != null
      modifies this`tongueIndex, this`tongueDiameter
      ensures Valid()
      ensures var p := Place(tongueTouch, g);
        tongueDiameter == Clamp(p.diameter, InnerTongueControlRadius, OuterTongueControlRadius) &&
        tongueIndex == TongueIndex(p.index, FromPoint(p.diameter, pow))
    {
      var x := tongueTouch.x;
      var y := tongueTouch.y;
      var index := g.index(x, y);
      var diameter := g.diameter(x, y);
      var fromPoint := (OuterTongueControlRadius - diameter) / (OuterTongueControlRadius - InnerTongueControlRadius);
      fromPoint := Clamp(fromPoint, 0.0, 1.0);
      fromPoint := pow(fromPoint, 0.58) - 0.2 * (fromPoint * fromPoint - fromPoint);
      assert fromPoint == FromPoint(diameter, pow);
      tongueDiameter := Clamp(diameter, InnerTongueControlRadius, OuterTongueControlRadius);
      var out := fromPoint * 0.5 * (TongueUpperIndexBound - TongueLowerIndexBound);
      tongueIndex := Clamp(index, TongueIndexCentre - out, TongueIndexCentre + out);
    }

    /** The touch loop at the end of `handleTouches`: the velum opens for a
        touch below the midline past the nose, and each touch carves its
        constriction into the targets. */
    method Constrict(tract: VocalTract, touches: seq<Touch>, g: Geometry, cos: real -> real, canvasHeight: real,
                     ghost ps: seq<Placement>)
      requires tract.Allocated() && ps == Placements(touches, g)
      modifies tract.targetDiameter, tract`velumTarget
      ensures tract.velumTarget == (if AnyOpensNose(ps, |touches|) then 0.4 else 0.01)
      ensures forall k :: 0 <= k < N ==>
        tract.targetDiameter[k] == CarveAll(old(tract.targetDiameter[k]), k, ps, |touches|, canvasHeight, cos)
    {
      tract.velumTarget := 0.01;
      for j := 0 to |touches|
        invariant tract.velumTarget == (if AnyOpensNose(ps, j) then 0.4 else 0.01)
        invariant forall k :: 0 <= k < N ==>
          tract.targetDiameter[k] == CarveAll(old(tract.targetDiameter[k]), k, ps, j, canvasHeight, cos)
      {
        var touch := touches[j];
        assert ps[j] == Place(touch, g);
        if !touch.alive {
          continue;
        }
        var x := touch.x;
        var y := touch.y;
        var index := g.index(x, y);
        var diameter := g.diameter(x, y);
        if index > NoseStart as real && diameter < -NoseOffset {
          tract.velumTarget := 0.4;
        }
        if diameter < -0.85 - NoseOffset {
          continue;
        }
        diameter := diameter - 0.3;
        if diameter < 0.0 {
          diameter := 0.0;
        }
        var width;
        if index < 25.0 {
          width := 10.0;
        } else if index >= TipStart as real {
          width := 5.0;
        } else {
          width := 10.0 - 5.0 * (index - 25.0) / (TipStart as real - 25.0);
        }
        if index >= 2.0 && index < N as real && y < canvasHeight && diameter < 3.0 {
          CarveConstriction(tract, index, diameter, width, cos);
        }
      }
    }

    /** The innermost loop of `handleTouches`: one constriction of depth `d`
        at `index` lowers the targets in its window. */
    method CarveConstriction(tract: VocalTract, index: real, d: real, width: real, cos: real -> real)
      requires tract.Allocated() && width == ConstrictionWidth(index)
      modifies tract.targetDiameter
      ensures forall k :: 0 <= k < N ==>
        tract.targetDiameter[k] == CarvedBy(old(tract.targetDiameter[k]), k, index, d, cos)
    {
      var intIndex := Round(index);
      ghost var first := -Ceil(width) - 1;
      var i := -Ceil(width) - 1;
      while (i as real) < width + 1.0
        invariant first <= i && ((i - 1) as real) < width + 1.0
        invariant forall k :: 0 <= k < N ==>
          tract.targetDiameter[k] ==
            (if first <= k - intIndex < i then Carving(old(tract.targetDiameter[k]), k, index, d, width, cos)
             else old(tract.targetDiameter[k]))
        decreases Ceil(width) + 1 - i
      {
        var k := intIndex + i;
        if 0 <= k < N {
          CarveAt(tract, k, index, d, width, cos);
        }
        i := i + 1;
      }
    }

    /** One pass of the innermost loop: target `k` moves towards `d` by the
        raised-cosine shrink of its distance from the constriction. */
    method CarveAt(tract: VocalTract, k: int, index: real, d: real, width: real, cos: real -> real)
      requires tract.Allocated() && 0 <= k < N
      modifies tract.targetDiameter
      ensures tract.targetDiameter[k] == Carving(old(tract.targetDiameter[k]), k, index, d, width, cos)
      ensures forall l :: 0 <= l < N && l != k ==> tract.targetDiameter[l] == old(tract.targetDiameter[l])
    {
      var relpos := k as real - index;
      relpos := Abs(relpos) - 0.5;
      var shrink;
      if relpos <= 0.0 {
        shrink := 0.0;
      } else if relpos > width {
        shrink := 1.0;
      } else {
        shrink := 0.5 * (1.0 - cos(Pi * relpos / width));
      }
      if d < tract.targetDiameter[k] {
        tract.targetDiameter[k] := d + (tract.targetDiameter[k] - d) * shrink;
      }
    }
  }
}
