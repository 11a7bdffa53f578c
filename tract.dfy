/** The vocal tract: a 44-segment digital waveguide for the mouth with a
    28-segment nasal branch. Each audio sample runs two steps of it; once per
    block the segment diameters creep towards their targets and the reflection
    coefficients are recomputed. */
module Tract {
  import opened Numeric
  import opened Junctions
  import opened Touches

  /** Number of mouth segments. */
  const N: int := 44
  /** Landmarks along the mouth: `floor(10·N/44)`, `floor(32·N/44)` and
      `floor(39·N/44)`, which for N = 44 are the unscaled values. */
  const BladeStart: int := 10
  const TipStart: int := 32
  const LipStart: int := 39
  /** Number of nasal segments, `floor(28·N/44)`, and the mouth segment the
      nose branches from, `N − NoseLength + 1`. */
  const NoseLength: int := 28
  const NoseStart: int := 17
  /** Reflection at the closed glottis end and at the open lip and nostril ends. */
  const GlottalReflection: real := 0.75
  const LipReflection: real := -0.85
  /** How fast the tract walls move, in diameter units per second. */
  const MovementSpeed: real := 15.0
  /** Loss applied to every wave as it is propagated. */
  const Damping: real := 0.999
  /** `noseA[0]` below which a released closure produces a click. */
  const TransientNoseThreshold: real := 0.05

  /** A click injected where a closure of the tract was released. */
  datatype Transient = Transient(position: int, timeAlive: real, lifeTime: real, strength: real, exponent: real)

  /** The amplitude of a click: `strength · 2^(−exponent · timeAlive)`. */
  function Amplitude(t: Transient, pow: (real, real) -> real): real {
    t.strength * pow(2.0, -t.exponent * t.timeAlive)
  }

  // ---------------------------------------------------------------------
  // The wave arrays as values
  // ---------------------------------------------------------------------

  /** The travelling waves of the mouth (`R` towards the lips, `L` towards the
      glottis) and of the nose. */
  datatype Waves = Waves(R: seq<real>, L: seq<real>, noseR: seq<real>, noseL: seq<real>)

  predicate WellSized(w: Waves) {
    |w.R| == N && |w.L| == N && |w.noseR| == NoseLength && |w.noseL| == NoseLength
  }

  /** Every sample lies in [-1, 1]. */
  predicate Bounded(w: Waves) {
    (forall i :: 0 <= i < |w.R| ==> -1.0 <= w.R[i] <= 1.0) &&
    (forall i :: 0 <= i < |w.L| ==> -1.0 <= w.L[i] <= 1.0) &&
    (forall i :: 0 <= i < |w.noseR| ==> -1.0 <= w.noseR[i] <= 1.0) &&
    (forall i :: 0 <= i < |w.noseL| ==> -1.0 <= w.noseL[i] <= 1.0)
  }

  /** What the clicks of `ts` add to each of the two waves of segment `j`:
      half the amplitude of every click that sits there. */
  function ClickGain(ts: seq<Transient>, j: int, pow: (real, real) -> real): real
    decreases |ts|
  {
    if ts == [] then 0.0
    else
      var last := ts[|ts| - 1];
      ClickGain(ts[..|ts| - 1], j, pow) + (if last.position == j then Amplitude(last, pow) / 2.0 else 0.0)
  }

  /** Sounding one more click of the list adds its share to its own segment only. */
  lemma ClickGainNext(ts: seq<Transient>, i: int, pow: (real, real) -> real)
    requires 0 <= i < |ts|
    ensures forall j :: (ClickGain(ts[..i + 1], j, pow) ==
      ClickGain(ts[..i], j, pow) + (if ts[i].position == j then Amplitude(ts[i], pow) / 2.0 else 0.0))
  {
    var s := ts[..i + 1];
    assert s[..|s| - 1] == ts[..i];
  }

  /** A segment no click sits in gains nothing. */
  lemma {:induction false} ClickGainElsewhere(ts: seq<Transient>, j: int, pow: (real, real) -> real)
    requires forall t :: t in ts ==> t.position != j
    ensures ClickGain(ts, j, pow) == 0.0
    decreases |ts|
  {
    if ts != [] {
      var init := ts[..|ts| - 1];
      assert forall t :: t in init ==> t in ts;
      assert ts[|ts| - 1] in ts;
      ClickGainElsewhere(init, j, pow);
    }
  }

  /** The first loop of `processTransients`: every click adds half its
      amplitude to each of the two waves of its segment. */
  function InjectTransients(w: Waves, ts: seq<Transient>, pow: (real, real) -> real): (v: Waves)
    requires WellSized(w)
    ensures WellSized(v)
  {
    Waves(seq(N, j requires 0 <= j < N => w.R[j] + ClickGain(ts, j, pow)),
          seq(N, j requires 0 <= j < N => w.L[j] + ClickGain(ts, j, pow)), w.noseR, w.noseL)
  }

  /** Clicks leave the nose alone, raise both mouth waves of a segment by the
      same amount, and touch only the segments they sit in. */
  lemma InjectTransientsLocal(w: Waves, ts: seq<Transient>, pow: (real, real) -> real)
    requires WellSized(w)
    ensures var v := InjectTransients(w, ts, pow);
      v.noseR == w.noseR && v.noseL == w.noseL &&
      (forall j :: 0 <= j < N ==> v.R[j] - w.R[j] == v.L[j] - w.L[j]) &&
      forall j :: 0 <= j < N && (forall t :: t in ts ==> t.position != j) ==> v.R[j] == w.R[j] && v.L[j] == w.L[j]
  {
    forall j | 0 <= j < N && (forall t :: t in ts ==> t.position != j)
      ensures ClickGain(ts, j, pow) == 0.0
    {
      ClickGainElsewhere(ts, j, pow);
    }
  }

  /** `thinness0`: how narrow the constriction is; 0 from diameter 0.7 up. */
  function Thinness(diameter: real): (g: real)
    ensures 0.0 <= g <= 1.0
    ensures 0.7 <= diameter ==> g == 0.0
    ensures diameter <= 0.575 ==> g == 1.0
  {
    Clamp(8.0 * (0.7 - diameter), 0.0, 1.0)
  }

  /** `openness`: how far the constriction is from closed; 0 up to diameter 0.3. */
  function Openness(diameter: real): (g: real)
    ensures 0.0 <= g <= 1.0
    ensures diameter <= 0.3 ==> g == 0.0
    ensures 0.3 + 1.0 / 30.0 <= diameter ==> g == 1.0
  {
    Clamp(30.0 * (diameter - 0.3), 0.0, 1.0)
  }

  /** The noise one of the two segments receives:
      `noise · fraction · thinness0 · openness`. */
  function NoiseShare(noise: real, fraction: real, diameter: real): real {
    noise * fraction * Thinness(diameter) * Openness(diameter)
  }

  /** What `addTurbulenceNoiseAtIndex` adds to each of the two waves of
      segment `j`: the noise at a fractional index is split linearly between
      the two segments after `floor(index)`. `modulator` is the glottis's
      noise modulator for the current sample. */
  function NoiseAt(turbulenceNoise: real, index: real, diameter: real, modulator: real, j: int): real {
    var i := index.Floor;
    var delta := index - i as real;
    var noise := turbulenceNoise * modulator;
    if j == i + 1 then NoiseShare(noise, 1.0 - delta, diameter) / 2.0
    else if j == i + 2 then NoiseShare(noise, delta, diameter) / 2.0
    else 0.0
  }

  /** A constriction at most 0.3 wide (nearly closed) or at least 0.7 wide
      (open) makes no fricative noise anywhere. */
  lemma TurbulenceNeedsNarrowOpening(turbulenceNoise: real, index: real, diameter: real, modulator: real)
    requires diameter <= 0.3 || 0.7 <= diameter
    ensures forall j :: NoiseAt(turbulenceNoise, index, diameter, modulator, j) == 0.0
  {
    assert Thinness(diameter) == 0.0 || Openness(diameter) == 0.0;
  }

  /** Only the two segments after `floor(index)` receive noise, and together
      they receive the full `noise · modulator · thinness0 · openness`, split
      in the ratio of the fractional part of the index. */
  lemma TurbulenceSplits(turbulenceNoise: real, index: real, diameter: real, modulator: real)
    ensures var i := index.Floor;
      NoiseAt(turbulenceNoise, index, diameter, modulator, i + 1) +
      NoiseAt(turbulenceNoise, index, diameter, modulator, i + 2) ==
        NoiseShare(turbulenceNoise * modulator, 1.0, diameter) / 2.0
    ensures forall j :: j != index.Floor + 1 && j != index.Floor + 2 ==>
      NoiseAt(turbulenceNoise, index, diameter, modulator, j) == 0.0
  {
    var delta := index - index.Floor as real;
    ShareSplit(turbulenceNoise * modulator, delta, Thinness(diameter), Openness(diameter));
  }

  lemma ShareSplit(g: real, delta: real, t: real, o: real)
    ensures g * (1.0 - delta) * t * o / 2.0 + g * delta * t * o / 2.0 == g * 1.0 * t * o / 2.0
  {
  }

  /** When the index lies in the second-to-last segment, the second share of
      the noise is meant for segment `N`, one past the lips, and is lost: of
      the mouth segments only the last one receives noise, the `(1 − delta)`
      share. */
  lemma TurbulencePastLipsDropped(turbulenceNoise: real, index: real, diameter: real, modulator: real)
    requires index.Floor == N - 2
    ensures NoiseAt(turbulenceNoise, index, diameter, modulator, N - 1) ==
      NoiseShare(turbulenceNoise * modulator, 1.0 - (index - (N - 2) as real), diameter) / 2.0
    ensures NoiseAt(turbulenceNoise, index, diameter, modulator, N) ==
      NoiseShare(turbulenceNoise * modulator, index - (N - 2) as real, diameter) / 2.0
    ensures forall j :: 0 <= j < N - 1 ==> NoiseAt(turbulenceNoise, index, diameter, modulator, j) == 0.0
  {
  }

  /** What `addTurbulenceNoise` reads of one touch. */
  datatype Constriction = Constriction(index: real, diameter: real, intensity: real)

  /** The touches as the tract sees them during one sample. */
  function Constrictions(touches: seq<Touch>): (cs: seq<Constriction>)
    reads touches
    ensures |cs| == |touches|
    ensures forall i :: 0 <= i < |touches| ==>
      cs[i] == Constriction(touches[i].index, touches[i].diameter, touches[i].fricativeIntensity)
  {
    seq(|touches|, i reads touches requires 0 <= i < |touches| =>
      Constriction(touches[i].index, touches[i].diameter, touches[i].fricativeIntensity))
  }

  /** A touch makes fricative noise when it lies in `[2, N]`, is open and is sounding. */
  predicate Excites(c: Constriction) {
    !(c.index < 2.0 || c.index > N as real) && !(c.diameter <= 0.0) && c.intensity != 0.0
  }

  /** The noise level a sounding touch feeds in: `0.66 · noise · intensity`. */
  function FricativeNoise(turbulenceNoise: real, intensity: real): real {
    0.66 * turbulenceNoise * intensity
  }

  /** What one touch of `addTurbulenceNoise` adds to segment `j`. */
  function ConstrictionNoise(c: Constriction, turbulenceNoise: real, modulator: real, j: int): real {
    if Excites(c) then NoiseAt(FricativeNoise(turbulenceNoise, c.intensity), c.index, c.diameter, modulator, j)
    else 0.0
  }

  /** What all the touches of `cs` together add to segment `j`. */
  function TurbulenceGain(cs: seq<Constriction>, turbulenceNoise: real, modulator: real, j: int): real
    decreases |cs|
  {
    if cs == [] then 0.0
    else TurbulenceGain(cs[..|cs| - 1], turbulenceNoise, modulator, j) +
         ConstrictionNoise(cs[|cs| - 1], turbulenceNoise, modulator, j)
  }

  /** One more touch of the list adds its own noise. */
  lemma TurbulenceGainNext(cs: seq<Constriction>, i: int, turbulenceNoise: real, modulator: real)
    requires 0 <= i < |cs|
    ensures forall j :: (TurbulenceGain(cs[..i + 1], turbulenceNoise, modulator, j) ==
      TurbulenceGain(cs[..i], turbulenceNoise, modulator, j) + ConstrictionNoise(cs[i], turbulenceNoise, modulator, j))
  {
    var s := cs[..i + 1];
    assert s[..|s| - 1] == cs[..i];
  }

  /** Touches below index 2 are skipped, so the three segments next to the
      glottis never receive fricative noise; and touches that do not excite
      the tract add nothing anywhere. */
  lemma {:induction false} TurbulenceGainQuiet(cs: seq<Constriction>, turbulenceNoise: real, modulator: real, j: int)
    requires j < 3 || forall c :: c in cs ==> !Excites(c)
    ensures TurbulenceGain(cs, turbulenceNoise, modulator, j) == 0.0
    decreases |cs|
  {
    if cs != [] {
      var init := cs[..|cs| - 1];
      assert forall c :: c in init ==> c in cs;
      assert cs[|cs| - 1] in cs;
      TurbulenceGainQuiet(init, turbulenceNoise, modulator, j);
    }
  }

  /** `addTurbulenceNoise`: the noise of every touch, in list order. */
  function InjectTurbulence(w: Waves, cs: seq<Constriction>, turbulenceNoise: real, modulator: real): (v: Waves)
    requires WellSized(w)
    ensures WellSized(v)
  {
    Waves(seq(N, j requires 0 <= j < N => w.R[j] + TurbulenceGain(cs, turbulenceNoise, modulator, j)),
          seq(N, j requires 0 <= j < N => w.L[j] + TurbulenceGain(cs, turbulenceNoise, modulator, j)),
          w.noseR, w.noseL)
  }

  /** Fricative noise leaves the nose and the three segments next to the
      glottis alone, and without a sounding touch it changes nothing. */
  lemma InjectTurbulenceLocal(w: Waves, cs: seq<Constriction>, turbulenceNoise: real, modulator: real)
    requires WellSized(w)
    ensures var v := InjectTurbulence(w, cs, turbulenceNoise, modulator);
      v.noseR == w.noseR && v.noseL == w.noseL &&
      (forall j :: 0 <= j < 3 ==> v.R[j] == w.R[j] && v.L[j] == w.L[j]) &&
      ((forall c :: c in cs ==> !Excites(c)) ==> v == w)
  {
    var v := InjectTurbulence(w, cs, turbulenceNoise, modulator);
    forall j | 0 <= j < N && (j < 3 || forall c :: c in cs ==> !Excites(c))
      ensures v.R[j] == w.R[j] && v.L[j] == w.L[j]
    {
      TurbulenceGainQuiet(cs, turbulenceNoise, modulator, j);
    }
  }

  // ---------------------------------------------------------------------
  // One propagation step, as values
  // ---------------------------------------------------------------------

  /** The reflection coefficients a step reads: the interior double buffer,
      the nose's interior coefficients and the double-buffered three-port. */
  datatype Coefficients = Coefficients(reflection: seq<real>, newReflection: seq<real>,
                                       noseReflection: seq<real>, junction: ThreePort, newJunction: ThreePort)

  predicate CoefficientsSized(k: Coefficients) {
    |k.reflection| == N + 1 && |k.newReflection| == N + 1 && |k.noseReflection| == NoseLength + 1
  }

  /** The three waves leaving the nose junction in this step. */
  function NoseJunction(w: Waves, k: Coefficients, lam: real): ThreePort
    requires WellSized(w)
  {
    ThreePortScatter(Blend(k.newJunction, k.junction, lam), w.R[NoseStart - 1], w.L[NoseStart], w.noseL[0])
  }

  /** `junctionOutputR[i]`: the wave that enters mouth segment `i` from the glottis side. */
  function MouthRight(w: Waves, k: Coefficients, glottalOutput: real, lam: real, i: int): real
    requires WellSized(w) && CoefficientsSized(k) && 0 <= i < N
  {
    if i == 0 then w.L[0] * GlottalReflection + glottalOutput
    else if i == NoseStart then NoseJunction(w, k, lam).right
    else Scatter(Interpolate(k.reflection[i], k.newReflection[i], lam), w.R[i - 1], w.L[i]).right
  }

  /** `junctionOutputL[i]`: the wave that enters mouth segment `i − 1` from the lip side. */
  function MouthLeft(w: Waves, k: Coefficients, lam: real, i: int): real
    requires WellSized(w) && CoefficientsSized(k) && 1 <= i <= N
  {
    if i == N then w.R[N - 1] * LipReflection
    else if i == NoseStart then NoseJunction(w, k, lam).left
    else Scatter(Interpolate(k.reflection[i], k.newReflection[i], lam), w.R[i - 1], w.L[i]).left
  }

  /** `noseJunctionOutputR[i]`: the wave that enters nasal segment `i` from the mouth side. */
  function NoseRight(w: Waves, k: Coefficients, lam: real, i: int): real
    requires WellSized(w) && CoefficientsSized(k) && 0 <= i < NoseLength
  {
    if i == 0 then NoseJunction(w, k, lam).nose
    else Scatter(k.noseReflection[i], w.noseR[i - 1], w.noseL[i]).right
  }

  /** `noseJunctionOutputL[i]`: the wave that enters nasal segment `i − 1` from the nostril side. */
  function NoseLeft(w: Waves, k: Coefficients, i: int): real
    requires WellSized(w) && CoefficientsSized(k) && 1 <= i <= NoseLength
  {
    if i == NoseLength then w.noseR[NoseLength - 1] * LipReflection
    else Scatter(k.noseReflection[i], w.noseR[i - 1], w.noseL[i]).left
  }

  /** A junction output as it is stored back: damped and clamped to [-1, 1]. */
  function Emit(x: real): (y: real)
    ensures -1.0 <= y <= 1.0
    ensures -1.0 <= x * Damping <= 1.0 ==> y == x * Damping
  {
    Clamp(x * Damping, -1.0, 1.0)
  }

  /** The waves after the scattering and propagation of one `runStep`. */
  function Propagated(w: Waves, k: Coefficients, glottalOutput: real, lam: real): (v: Waves)
    requires WellSized(w) && CoefficientsSized(k)
    ensures WellSized(v) && Bounded(v)
  {
    Waves(seq(N, i requires 0 <= i < N => Emit(MouthRight(w, k, glottalOutput, lam, i))),
          seq(N, i requires 0 <= i < N => Emit(MouthLeft(w, k, lam, i + 1))),
          seq(NoseLength, i requires 0 <= i < NoseLength => Emit(NoseRight(w, k, lam, i))),
          seq(NoseLength, i requires 0 <= i < NoseLength => Emit(NoseLeft(w, k, i + 1))))
  }

  /** The waves after a whole `runStep` from `w`: the clicks of `ts` and the
      turbulence of `cs` are injected, then the waves travel one step. */
  function Stepped(w: Waves, ts: seq<Transient>, cs: seq<Constriction>, k: Coefficients, glottalOutput: real,
                   noise: real, modulator: real, pow: (real, real) -> real, lam: real): (v: Waves)
    requires WellSized(w) && CoefficientsSized(k)
    ensures WellSized(v) && Bounded(v)
  {
    Propagated(InjectTurbulence(InjectTransients(w, ts, pow), cs, noise, modulator), k, glottalOutput, lam)
  }

  /** Before damping and clamping, every interior junction passes on exactly
      what arrives at it, and so does the nose junction once both of its
      coefficient triples sum to −1. */
  lemma JunctionsConserve(w: Waves, k: Coefficients, glottalOutput: real, lam: real)
    requires WellSized(w) && CoefficientsSized(k)
    ensures forall i :: 1 <= i < N && i != NoseStart ==>
      MouthRight(w, k, glottalOutput, lam, i) + MouthLeft(w, k, lam, i) == w.R[i - 1] + w.L[i]
    ensures forall i :: 1 <= i < NoseLength ==>
      NoseRight(w, k, lam, i) + NoseLeft(w, k, i) == w.noseR[i - 1] + w.noseL[i]
    ensures Sum(k.junction) == -1.0 && Sum(k.newJunction) == -1.0 ==>
      MouthRight(w, k, glottalOutput, lam, NoseStart) + MouthLeft(w, k, lam, NoseStart) +
      NoseRight(w, k, lam, 0) == w.R[NoseStart - 1] + w.L[NoseStart] + w.noseL[0]
  {
  }

  // ---------------------------------------------------------------------
  // Block-rate shape changes, as values
  // ---------------------------------------------------------------------

  /** The cross-sectional area of a segment: its squared diameter. */
  function Area(d: real): (a: real)
    ensures 0.0 <= a
    ensures d != 0.0 ==> 0.0 < a
  {
    var a := d * d;
    if d != 0.0 then ProductPositive(d, d, a); a else a
  }

  /** The fraction of the block's movement a segment may regain when it
      widens: 0.6 behind the nose, 1 from the tongue tip on, linear between. */
  function SlowReturn(i: int): (s: real)
    ensures 0.6 <= s <= 1.0
  {
    if i < NoseStart then 0.6
    else if i >= TipStart then 1.0
    else 0.6 + (0.4 * (i - NoseStart) as real) / (TipStart - NoseStart) as real
  }

  /** Segments further towards the lips reopen at least as fast. */
  lemma SlowReturnMonotone(i: int, j: int)
    requires i <= j
    ensures SlowReturn(i) <= SlowReturn(j)
  {
    if NoseStart <= i && j < TipStart {
      var span := (TipStart - NoseStart) as real;
      assert (0.4 * (i - NoseStart) as real) / span <= (0.4 * (j - NoseStart) as real) / span;
    }
  }

  /** One segment's move in `reshapeTract`, where `amount` is the block's
      movement `deltaTime · 15`: it never passes the target, widens by at most
      `amount` and narrows by at most `2 · amount`. */
  function SegmentStep(d: real, target: real, i: int, amount: real): (r: real)
    requires 0.0 <= amount
    ensures Min(d, target) <= r <= Max(d, target)
    ensures d < target ==> r - d <= amount
    ensures target <= d ==> d - r <= 2.0 * amount
    ensures d == target ==> r == d
  {
    var up := SlowReturn(i) * amount;
    assert up <= amount by { ScaleDown(amount, SlowReturn(i)); }
    MoveTowards(d, target, up, 2.0 * amount)
  }

  /** A segment that is far enough from its target reaches it in one block. */
  lemma SegmentStepReaches(d: real, target: real, i: int, amount: real)
    requires 0.0 <= amount
    requires d < target ==> target - d <= 0.6 * amount
    requires target <= d ==> d - target <= 2.0 * amount
    ensures SegmentStep(d, target, i, amount) == target
  {
    var slow := SlowReturn(i);
    var up := slow * amount;
    SlowestReturn(slow, amount);
    MoveTowardsReaches(d, target, up, 2.0 * amount);
  }

  lemma SlowestReturn(slow: real, amount: real)
    requires 0.6 <= slow && 0.0 <= amount
    ensures 0.6 * amount <= slow * amount
  {
    ScaleMonotone(amount, 0.6, slow);
  }

  /** The velum's move in `reshapeTract`: opening at a quarter and closing at
      a tenth of `amount`; it stays open when it and its target are open. */
  function VelumStep(d: real, target: real, amount: real): (r: real)
    requires 0.0 <= amount
    ensures Min(d, target) <= r <= Max(d, target)
    ensures 0.0 < d && 0.0 < target ==> 0.0 < r
    ensures d < target ==> r - d <= amount * 0.25
    ensures target <= d ==> d - r <= amount * 0.1
  {
    MoveTowards(d, target, amount * 0.25, amount * 0.1)
  }

  /** The highest segment whose diameter is at most 0, or −1 when the tract is open. */
  function LastObstruction(d: seq<real>): (r: int)
    ensures -1 <= r < |d|
    ensures 0 <= r ==> d[r] <= 0.0
    ensures forall i :: r < i < |d| ==> d[i] > 0.0
  {
    if d == [] then -1
    else if d[|d| - 1] <= 0.0 then |d| - 1
    else LastObstruction(d[..|d| - 1])
  }

  /** The rest shape of the mouth: narrow at the glottis, wider towards the lips. */
  function InitialDiameter(i: int): (d: real)
    ensures d == 0.6 || d == 1.1 || d == 1.5
    ensures 0.6 <= d <= 1.5
    ensures (i as real) < (7 * N) as real / 44.0 - 0.5 <==> d == 0.6
    ensures (12 * N) as real / 44.0 <= (i as real) <==> d == 1.5
  {
    if (i as real) < (7 * N) as real / 44.0 - 0.5 then 0.6
    else if (i as real) < (12 * N) as real / 44.0 then 1.1
    else 1.5
  }

  lemma InitialDiameterWidens(i: int, j: int)
    requires i <= j
    ensures InitialDiameter(i) <= InitialDiameter(j)
  {
  }

  /** The shape of the nasal cavity: widening to a peak of 1.9 midway, then narrowing. */
  function NoseProfile(i: int): (d: real)
    requires 0 <= i < NoseLength
    ensures 0.4 <= d <= 1.9
  {
    var x := 2.0 * (i as real / NoseLength as real);
    Min(if x < 1.0 then 0.4 + 1.6 * x else 0.5 + 1.5 * (2.0 - x), 1.9)
  }

  /** A click that has lived `dt` seconds longer. */
  function Older(t: Transient, dt: real): (u: Transient)
    ensures u.position == t.position && u.lifeTime == t.lifeTime && u.strength == t.strength
    ensures u.exponent == t.exponent && u.timeAlive == t.timeAlive + dt
  {
    t.(timeAlive := t.timeAlive + dt)
  }

  /** Every click ages by the same time step. */
  function Aged(ts: seq<Transient>, dt: real): (r: seq<Transient>)
    ensures |r| == |ts|
  {
    seq(|ts|, i requires 0 <= i < |ts| => Older(ts[i], dt))
  }

  /** The clicks that the second loop of `processTransients` keeps, in order. */
  function Survivors(ts: seq<Transient>): (r: seq<Transient>)
    ensures |r| <= |ts|
  {
    if ts == [] then []
    else (if ts[0].timeAlive > ts[0].lifeTime then [] else [ts[0]]) + Survivors(ts[1..])
  }

  /** Filtering distributes over concatenation, so the order is preserved. */
  lemma {:induction false} SurvivorsAppend(a: seq<Transient>, b: seq<Transient>)
    ensures Survivors(a + b) == Survivors(a) + Survivors(b)
  {
    if a == [] {
      assert a + b == b;
    } else {
      var head := if a[0].timeAlive > a[0].lifeTime then [] else [a[0]];
      assert (a + b)[0] == a[0] && (a + b)[1..] == a[1..] + b;
      SurvivorsAppend(a[1..], b);
      assert head + (Survivors(a[1..]) + Survivors(b)) == (head + Survivors(a[1..])) + Survivors(b);
    }
  }

  /** Exactly the clicks that have not outlived their lifetime are kept. */
  lemma {:induction false} SurvivorsExactly(ts: seq<Transient>, t: Transient)
    ensures t in Survivors(ts) <==> t in ts && t.timeAlive <= t.lifeTime
  {
    if ts != [] {
      SurvivorsExactly(ts[1..], t);
      assert ts == [ts[0]] + ts[1..];
    }
  }

  // ---------------------------------------------------------------------
  // The tract object
  // ---------------------------------------------------------------------

  /** `TractClass`. The junction-output scratch arrays of the original are
      local to `Propagate`, which rewrites them completely before reading them. */
  class VocalTract {
    const R: array<real>
    const L: array<real>
    const reflection: array<real>
    const newReflection: array<real>
    const diameter: array<real>
    const restDiameter: array<real>
    const targetDiameter: array<real>
    const A: array<real>
    const noseR: array<real>
    const noseL: array<real>
    const noseReflection: array<real>
    const noseDiameter: array<real>
    const noseA: array<real>
    var lipOutput: real
    var noseOutput: real
    var lastObstruction: int
    var transients: seq<Transient>
    var velumTarget: real
    var newReflectionLeft: real
    var newReflectionRight: real
    var newReflectionNose: real
    var reflectionLeft: real
    var reflectionRight: real
    var reflectionNose: real

    /** The arrays have the lengths of the original and are thirteen distinct objects. */
    ghost predicate Allocated()
    {
      R.Length == N && L.Length == N && reflection.Length == N + 1 && newReflection.Length == N + 1 &&
      diameter.Length == N && restDiameter.Length == N && targetDiameter.Length == N && A.Length == N &&
      noseR.Length == NoseLength && noseL.Length == NoseLength && noseReflection.Length == NoseLength + 1 &&
      noseDiameter.Length == NoseLength && noseA.Length == NoseLength &&
      R != L && R != reflection && R != newReflection && R != diameter && R != restDiameter &&
      R != targetDiameter && R != A && R != noseR && R != noseL && R != noseReflection &&
      R != noseDiameter && R != noseA &&
      L != reflection && L != newReflection && L != diameter && L != restDiameter && L != targetDiameter &&
      L != A && L != noseR && L != noseL && L != noseReflection && L != noseDiameter && L != noseA &&
      reflection != newReflection && reflection != diameter && reflection != restDiameter &&
      reflection != targetDiameter && reflection != A && reflection != noseR && reflection != noseL &&
      reflection != noseReflection && reflection != noseDiameter && reflection != noseA &&
      newReflection != diameter && newReflection != restDiameter && newReflection != targetDiameter &&
      newReflection != A && newReflection != noseR && newReflection != noseL &&
      newReflection != noseReflection && newReflection != noseDiameter && newReflection != noseA &&
      diameter != restDiameter && diameter != targetDiameter && diameter != A && diameter != noseR &&
      diameter != noseL && diameter != noseReflection && diameter != noseDiameter && diameter != noseA &&
      restDiameter != targetDiameter && restDiameter != A && restDiameter != noseR &&
      restDiameter != noseL && restDiameter != noseReflection && restDiameter != noseDiameter &&
      restDiameter != noseA &&
      targetDiameter != A && targetDiameter != noseR && targetDiameter != noseL &&
      targetDiameter != noseReflection && targetDiameter != noseDiameter && targetDiameter != noseA &&
      A != noseR && A != noseL && A != noseReflection && A != noseDiameter && A != noseA &&
      noseR != noseL && noseR != noseReflection && noseR != noseDiameter && noseR != noseA &&
      noseL != noseReflection && noseL != noseDiameter && noseL != noseA &&
      noseReflection != noseDiameter && noseReflection != noseA &&
      noseDiameter != noseA
    }

    /** The state every public operation keeps: clicks sit inside the mouth,
      the velum is never fully shut, and the current three-port coefficients
      sum to −1. */
    ghost predicate Valid()
      reads this`transients, this`lastObstruction, this`velumTarget, this`newReflectionLeft,
        this`newReflectionRight, this`newReflectionNose, noseDiameter, noseA
    {
      Allocated() &&
      (forall k :: 0 <= k < |transients| ==> 0 <= transients[k].position < N) &&
      -1 <= lastObstruction < N &&
      0.0 < velumTarget && 0.0 < noseDiameter[0] && 0.0 < noseA[0] &&
      Sum(ThreePort(newReflectionLeft, newReflectionRight, newReflectionNose)) == -1.0
    }

    ghost function CurrentWaves(): (w: Waves)
      reads R, L, noseR, noseL
    {
      Waves(R[..], L[..], noseR[..], noseL[..])
    }

    ghost function CurrentCoefficients(): (k: Coefficients)
      reads this`reflectionLeft, this`reflectionRight, this`reflectionNose, this`newReflectionLeft,
        this`newReflectionRight, this`newReflectionNose, reflection, newReflection, noseReflection
    {
      Coefficients(reflection[..], newReflection[..], noseReflection[..],
                   ThreePort(reflectionLeft, reflectionRight, reflectionNose),
                   ThreePort(newReflectionLeft, newReflectionRight, newReflectionNose))
    }

    /** The constructor: the rest shape, silent waves, and the reflection
        coefficients of that shape. The two initialisation loops of the
        original are the array initialisers. */
    constructor ()
      ensures Valid()
      ensures transients == [] && lastObstruction == -1 && velumTarget == 0.01
      ensures lipOutput == 0.0 && noseOutput == 0.0
      ensures forall i :: 0 <= i < N ==> R[i] == 0.0 && L[i] == 0.0
      ensures forall i :: 0 <= i < NoseLength ==> noseR[i] == 0.0 && noseL[i] == 0.0
      ensures forall i :: 0 <= i < N ==>
        diameter[i] == InitialDiameter(i) && restDiameter[i] == InitialDiameter(i) &&
        targetDiameter[i] == InitialDiameter(i)
      ensures noseDiameter[0] == 0.01
      ensures forall i :: 1 <= i < NoseLength ==> noseDiameter[i] == NoseProfile(i)
      ensures newReflectionNose == -1.0
    {
      diameter := new real[N](InitialDiameter);
      restDiameter := new real[N](InitialDiameter);
      targetDiameter := new real[N](InitialDiameter);
      R := new real[N](_ => 0.0);
      L := new real[N](_ => 0.0);
      reflection := new real[N + 1](_ => 0.0);
      newReflection := new real[N + 1](_ => 0.0);
      A := new real[N](_ => 0.0);
      noseR := new real[NoseLength](_ => 0.0);
      noseL := new real[NoseLength](_ => 0.0);
      noseReflection := new real[NoseLength + 1](_ => 0.0);
      noseA := new real[NoseLength](_ => 0.0);
      noseDiameter := new real[NoseLength](i requires 0 <= i < NoseLength => NoseProfile(i));
      newReflectionLeft, newReflectionRight, newReflectionNose := 0.0, 0.0, 0.0;
      reflectionLeft, reflectionRight, reflectionNose := 0.0, 0.0, 0.0;
      lastObstruction := -1;
      transients := [];
      lipOutput, noseOutput := 0.0, 0.0;
      velumTarget := 0.01;
      new;
      InitialCoefficients();
    }

    /** The end of the constructor: `calculateReflections` runs before the
        nasal areas are computed, so it sees a closed nose; then
        `calculateNoseReflections`, and the velum is set to its target. */
    method InitialCoefficients()
      requires Allocated() && velumTarget == 0.01 && transients == [] && lastObstruction == -1
      requires lipOutput == 0.0 && noseOutput == 0.0
      requires forall i :: 0 <= i < N ==> R[i] == 0.0 && L[i] == 0.0
      requires forall i :: 0 <= i < NoseLength ==> noseR[i] == 0.0 && noseL[i] == 0.0
      requires forall i :: 0 <= i < N ==>
        diameter[i] == InitialDiameter(i) && restDiameter[i] == InitialDiameter(i) &&
        targetDiameter[i] == InitialDiameter(i)
      requires forall i :: 0 <= i < NoseLength ==> noseDiameter[i] == NoseProfile(i) && noseA[i] == 0.0
      modifies A, reflection, newReflection, noseA, noseReflection, noseDiameter,
        this`reflectionLeft, this`reflectionRight, this`reflectionNose,
        this`newReflectionLeft, this`newReflectionRight, this`newReflectionNose
      ensures Valid()
      ensures transients == [] && lastObstruction == -1 && velumTarget == 0.01
      ensures lipOutput == 0.0 && noseOutput == 0.0
      ensures forall i :: 0 <= i < N ==> R[i] == 0.0 && L[i] == 0.0
      ensures forall i :: 0 <= i < NoseLength ==> noseR[i] == 0.0 && noseL[i] == 0.0
      ensures forall i :: 0 <= i < N ==>
        diameter[i] == InitialDiameter(i) && restDiameter[i] == InitialDiameter(i) &&
        targetDiameter[i] == InitialDiameter(i)
      ensures noseDiameter[0] == 0.01
      ensures forall i :: 1 <= i < NoseLength ==> noseDiameter[i] == NoseProfile(i)
      ensures newReflectionNose == -1.0
    {
      assert InitialDiameter(NoseStart) == 1.5 && InitialDiameter(NoseStart + 1) == 1.5;
      CalculateReflections();
      CalculateNoseReflections();
      noseDiameter[0] := velumTarget;
    }

    /** `calculateReflections`: areas are squared diameters; the current
        coefficients become the previous ones and are recomputed. */
    method CalculateReflections()
      requires Allocated()
      requires Area(diameter[NoseStart]) + Area(diameter[NoseStart + 1]) + noseA[0] != 0.0
      modifies A, reflection, newReflection, this`reflectionLeft, this`reflectionRight, this`reflectionNose,
        this`newReflectionLeft, this`newReflectionRight, this`newReflectionNose
      ensures forall i :: 0 <= i < N ==> A[i] == Area(diameter[i])
      ensures forall i :: 1 <= i < N ==>
        reflection[i] == old(newReflection[i]) &&
        newReflection[i] == ReflectionCoefficient(Area(diameter[i - 1]), Area(diameter[i]))
      ensures reflection[0] == old(reflection[0]) && reflection[N] == old(reflection[N])
      ensures newReflection[0] == old(newReflection[0]) && newReflection[N] == old(newReflection[N])
      ensures reflectionLeft == old(newReflectionLeft) && reflectionRight == old(newReflectionRight) &&
        reflectionNose == old(newReflectionNose)
      ensures ThreePort(newReflectionLeft, newReflectionRight, newReflectionNose) ==
        NoseJunctionCoefficients(A[NoseStart], A[NoseStart + 1], noseA[0])
    {
      ComputeAreas();
      ShiftInteriorReflections();
      reflectionLeft := newReflectionLeft;
      reflectionRight := newReflectionRight;
      reflectionNose := newReflectionNose;
      var c := NoseJunctionCoefficients(A[NoseStart], A[NoseStart + 1], noseA[0]);
      newReflectionLeft := c.left;
      newReflectionRight := c.right;
      newReflectionNose := c.nose;
    }

    /** The first loop of `calculateReflections`: every area is the squared diameter. */
    method ComputeAreas()
      requires Allocated()
      modifies A
      ensures forall i :: 0 <= i < N ==> A[i] == Area(diameter[i])
    {
      for i := 0 to N
        invariant forall k :: 0 <= k < i ==> A[k] == Area(diameter[k])
      {
        A[i] := Area(diameter[i]);
      }
    }

    /** The second loop of `calculateReflections`: each interior coefficient
        is moved to the previous-block buffer and recomputed from the areas. */
    method ShiftInteriorReflections()
      requires Allocated()
      requires forall i :: 0 <= i < N ==> A[i] == Area(diameter[i])
      modifies reflection, newReflection
      ensures forall i :: 1 <= i < N ==>
        reflection[i] == old(newReflection[i]) &&
        newReflection[i] == ReflectionCoefficient(Area(diameter[i - 1]), Area(diameter[i]))
      ensures reflection[0] == old(reflection[0]) && reflection[N] == old(reflection[N])
      ensures newReflection[0] == old(newReflection[0]) && newReflection[N] == old(newReflection[N])
    {
      for i := 1 to N
        invariant forall k :: 1 <= k < i ==>
          reflection[k] == old(newReflection[k]) &&
          newReflection[k] == ReflectionCoefficient(Area(diameter[k - 1]), Area(diameter[k]))
        invariant forall k :: i <= k <= N ==> reflection[k] == old(reflection[k]) && newReflection[k] == old(newReflection[k])
        invariant reflection[0] == old(reflection[0]) && newReflection[0] == old(newReflection[0])
      {
        reflection[i] := newReflection[i];
        newReflection[i] := ReflectionCoefficient(A[i - 1], A[i]);
      }
    }

    /** `calculateNoseReflections`: nasal areas and their interior coefficients.
        The original divides without a guard, so no two neighbouring nasal
        segments may both be closed. */
    method CalculateNoseReflections()
      requires Allocated()
      requires forall i :: 1 <= i < NoseLength ==> noseDiameter[i - 1] != 0.0 || noseDiameter[i] != 0.0
      modifies noseA, noseReflection
      ensures forall i :: 0 <= i < NoseLength ==> noseA[i] == Area(noseDiameter[i])
      ensures forall i :: 1 <= i < NoseLength ==>
        0.0 < noseA[i - 1] + noseA[i] &&
        noseReflection[i] == AreaRatio(Area(noseDiameter[i - 1]), Area(noseDiameter[i]))
      ensures noseReflection[0] == old(noseReflection[0]) && noseReflection[NoseLength] == old(noseReflection[NoseLength])
    {
      ComputeNoseAreas();
      for i := 1 to NoseLength
        modifies noseReflection
        invariant forall k :: 1 <= k < i ==>
          0.0 < noseA[k - 1] + noseA[k] &&
          noseReflection[k] == AreaRatio(Area(noseDiameter[k - 1]), Area(noseDiameter[k]))
        invariant noseReflection[0] == old(noseReflection[0]) &&
          noseReflection[NoseLength] == old(noseReflection[NoseLength])
      {
        noseReflection[i] := AreaRatio(noseA[i - 1], noseA[i]);
      }
    }

    /** The first loop of `calculateNoseReflections`: every nasal area is the
        squared diameter. */
    method ComputeNoseAreas()
      requires Allocated()
      modifies noseA
      ensures forall i :: 0 <= i < NoseLength ==> noseA[i] == Area(noseDiameter[i])
    {
      for i := 0 to NoseLength
        invariant forall k :: 0 <= k < i ==> noseA[k] == Area(noseDiameter[k])
      {
        noseA[i] := Area(noseDiameter[i]);
      }
    }

    /** `addTransient`: one fresh click at the given segment. */
    method AddTransient(position: int)
      modifies this`transients
      ensures transients == old(transients) + [Transient(position, 0.0, 0.2, 0.3, 200.0)]
    {
      transients := transients + [Transient(position, 0.0, 0.2, 0.3, 200.0)];
    }

    /** `reshapeTract`: every segment moves towards its target, widening by at
        most `slowReturn · amount` and narrowing by at most `2 · amount`; a
        click is added where a closure has just opened while the nose is shut;
        the velum moves towards its target. */
    method ReshapeTract(deltaTime: real)
      requires Valid() && 0.0 <= deltaTime
      modifies diameter, noseDiameter, noseA, this`transients, this`lastObstruction
      ensures Valid()
      ensures forall i :: 0 <= i < N ==>
        diameter[i] == SegmentStep(old(diameter[i]), targetDiameter[i], i, deltaTime * MovementSpeed)
      ensures lastObstruction == LastObstruction(old(diameter[..]))
      ensures transients == old(transients) +
        (if old(lastObstruction) > -1 && lastObstruction == -1 && old(noseA[0]) < TransientNoseThreshold
         then [Transient(old(lastObstruction), 0.0, 0.2, 0.3, 200.0)] else [])
      ensures noseDiameter[0] == VelumStep(old(noseDiameter[0]), velumTarget, deltaTime * MovementSpeed)
      ensures noseA[0] == Area(noseDiameter[0])
      ensures forall i :: 1 <= i < NoseLength ==> noseDiameter[i] == old(noseDiameter[i]) && noseA[i] == old(noseA[i])
    {
      var amount := deltaTime * MovementSpeed;
      var newLastObstruction := MoveWalls(amount);
      if lastObstruction > -1 && newLastObstruction == -1 && noseA[0] < TransientNoseThreshold {
        AddTransient(lastObstruction);
      }
      lastObstruction := newLastObstruction;
      noseDiameter[0] := VelumStep(noseDiameter[0], velumTarget, amount);
      noseA[0] := Area(noseDiameter[0]);
    }

    /** The segment loop of `reshapeTract`: moves every wall and reports the
        highest segment that was closed before the move. */
    method MoveWalls(amount: real) returns (newLastObstruction: int)
      requires Allocated() && 0.0 <= amount
      modifies diameter
      ensures forall i :: 0 <= i < N ==>
        diameter[i] == SegmentStep(old(diameter[i]), targetDiameter[i], i, amount)
      ensures newLastObstruction == LastObstruction(old(diameter[..]))
    {
      newLastObstruction := -1;
      for i := 0 to N
        modifies diameter
        invariant newLastObstruction == LastObstruction(old(diameter[..])[..i])
        invariant forall k :: 0 <= k < i ==>
          diameter[k] == SegmentStep(old(diameter[k]), targetDiameter[k], k, amount)
        invariant forall k :: i <= k < N ==> diameter[k] == old(diameter[k])
      {
        var d := diameter[i];
        var target := targetDiameter[i];
        assert old(diameter[..])[..i + 1] == old(diameter[..])[..i] + [d];
        if d <= 0.0 {
          newLastObstruction := i;
        }
        diameter[i] := SegmentStep(d, target, i, amount);
      }
      assert old(diameter[..])[..N] == old(diameter[..]);
    }

    /** `processTransients`: every click adds its decaying amplitude to its
        segment and ages by half a sample; then the expired clicks are
        spliced out, walking the list backwards. */
    method ProcessTransients(pow: (real, real) -> real, sampleRate: real)
      requires Valid() && sampleRate != 0.0
      modifies R, L, this`transients
      ensures Valid()
      ensures CurrentWaves() == InjectTransients(old(CurrentWaves()), old(transients), pow)
      ensures transients == Survivors(Aged(old(transients), 1.0 / (sampleRate * 2.0)))
    {
      ghost var ts := transients;
      var dt := 1.0 / (sampleRate * 2.0);
      SoundTransients(pow, dt);
      RemoveExpiredTransients();
      forall k | 0 <= k < |transients|
        ensures 0 <= transients[k].position < N
      {
        SurvivorsExactly(Aged(ts, dt), transients[k]);
        var j :| 0 <= j < |ts| && Aged(ts, dt)[j] == transients[k];
      }
    }

    /** The body of the first loop of `processTransients` for click `i`: it
        sounds, adding half its amplitude to both waves of its segment, and
        ages by `dt`. */
    method SoundTransient(i: int, pow: (real, real) -> real, dt: real)
      requires Allocated() && 0 <= i < |transients| && 0 <= transients[i].position < N
      modifies R, L, this`transients
      ensures forall j :: 0 <= j < N ==>
        var gain := if j == old(transients[i]).position then Amplitude(old(transients[i]), pow) / 2.0 else 0.0;
        R[j] == old(R[j]) + gain && L[j] == old(L[j]) + gain
      ensures transients == old(transients)[i := Older(old(transients[i]), dt)]
    {
      var trans := transients[i];
      var amplitude := Amplitude(trans, pow);
      R[trans.position] := R[trans.position] + amplitude / 2.0;
      L[trans.position] := L[trans.position] + amplitude / 2.0;
      transients := transients[i := Older(trans, dt)];
    }

    /** The first loop of `processTransients`: every click sounds and ages by `dt`. */
    method SoundTransients(pow: (real, real) -> real, dt: real)
      requires Allocated() && forall k :: 0 <= k < |transients| ==> 0 <= transients[k].position < N
      modifies R, L, this`transients
      ensures forall j :: 0 <= j < N ==>
        R[j] == old(R[j]) + ClickGain(old(transients), j, pow) && L[j] == old(L[j]) + ClickGain(old(transients), j, pow)
      ensures transients == Aged(old(transients), dt)
    {
      ghost var ts := transients;
      var i := 0;
      while i < |transients|
        modifies R, L, this`transients
        invariant 0 <= i <= |ts| && |transients| == |ts|
        invariant forall k :: 0 <= k < |ts| ==> 0 <= ts[k].position < N
        invariant forall k :: 0 <= k < i ==> transients[k] == Older(ts[k], dt)
        invariant forall k :: i <= k < |ts| ==> transients[k] == ts[k]
        invariant forall j :: 0 <= j < N ==>
          R[j] == old(R[j]) + ClickGain(ts[..i], j, pow) && L[j] == old(L[j]) + ClickGain(ts[..i], j, pow)
      {
        ClickGainNext(ts, i, pow);
        SoundTransient(i, pow, dt);
        i := i + 1;
      }
      assert ts[..|ts|] == ts;
    }

    /** The second loop of `processTransients`: walking backwards, splice out
        every click that has outlived its lifetime. */
    method RemoveExpiredTransients()
      modifies this`transients
      ensures transients == Survivors(old(transients))
    {
      ghost var ts := transients;
      var j := |transients| - 1;
      while j >= 0
        modifies this`transients
        invariant -1 <= j < |ts|
        invariant transients == ts[..j + 1] + Survivors(ts[j + 1..])
      {
        var trans := transients[j];
        assert ts[j..] == [ts[j]] + ts[j + 1..];
        ghost var rest := Survivors(ts[j + 1..]);
        if trans.timeAlive > trans.lifeTime {
          assert (ts[..j + 1] + rest)[..j] == ts[..j];
          assert (ts[..j + 1] + rest)[j + 1..] == rest;
          transients := transients[..j] + transients[j + 1..];
        } else {
          assert ts[..j + 1] == ts[..j] + [ts[j]];
        }
        j := j - 1;
      }
      assert ts[0..] == ts;
    }

    /** `addTurbulenceNoiseAtIndex`. Writes past the ends of the arrays are
        dropped. */
    method AddTurbulenceNoiseAtIndex(turbulenceNoise: real, index: real, diameter: real, modulator: real)
      requires Allocated()
      modifies R, L
      ensures forall j :: 0 <= j < N ==>
        R[j] == old(R[j]) + NoiseAt(turbulenceNoise, index, diameter, modulator, j) &&
        L[j] == old(L[j]) + NoiseAt(turbulenceNoise, index, diameter, modulator, j)
    {
      var i := index.Floor;
      var delta := index - i as real;
      var noise := turbulenceNoise * modulator;
      var noise0 := NoiseShare(noise, 1.0 - delta, diameter);
      var noise1 := NoiseShare(noise, delta, diameter);
      if 0 <= i + 1 < N {
        R[i + 1] := R[i + 1] + noise0 / 2.0;
        L[i + 1] := L[i + 1] + noise0 / 2.0;
      }
      if 0 <= i + 2 < N {
        R[i + 2] := R[i + 2] + noise1 / 2.0;
        L[i + 2] := L[i + 2] + noise1 / 2.0;
      }
    }

    /** `addTurbulenceNoise`: fricative noise from every touch, in list order. */
    method AddTurbulenceNoise(turbulenceNoise: real, touches: seq<Touch>, modulator: real)
      requires Allocated()
      modifies R, L
      ensures CurrentWaves() == InjectTurbulence(old(CurrentWaves()), old(Constrictions(touches)), turbulenceNoise, modulator)
    {
      ghost var cs := Constrictions(touches);
      for t := 0 to |touches|
        modifies R, L
        invariant forall j :: 0 <= j < N ==>
          R[j] == old(R[j]) + TurbulenceGain(cs[..t], turbulenceNoise, modulator, j) &&
          L[j] == old(L[j]) + TurbulenceGain(cs[..t], turbulenceNoise, modulator, j)
      {
        var touch := touches[t];
        var index, diameter, intensity := touch.index, touch.diameter, touch.fricativeIntensity;
        TurbulenceGainNext(cs, t, turbulenceNoise, modulator);
        if index < 2.0 || index > N as real {
          continue;
        }
        if diameter <= 0.0 {
          continue;
        }
        if intensity == 0.0 {
          continue;
        }
        AddTurbulenceNoiseAtIndex(FricativeNoise(turbulenceNoise, intensity), index, diameter, modulator);
      }
      assert cs[..|touches|] == cs;
    }

    /** The mouth half of the scattering in `runStep`: the wave entering every
        mouth segment from either side, and the wave the three-port junction
        sends into the nose, all computed from the current waves. */
    method MouthJunctions(glottalOutput: real, lam: real) returns (outR: array<real>, outL: array<real>, intoNose: real)
      requires Allocated()
      ensures fresh(outR) && fresh(outL) && outR.Length == N + 1 && outL.Length == N + 1
      ensures forall m :: 0 <= m < N ==> outR[m] == MouthRight(CurrentWaves(), CurrentCoefficients(), glottalOutput, lam, m)
      ensures forall m :: 1 <= m <= N ==> outL[m] == MouthLeft(CurrentWaves(), CurrentCoefficients(), lam, m)
      ensures intoNose == NoseRight(CurrentWaves(), CurrentCoefficients(), lam, 0)
    {
      ghost var w, k := CurrentWaves(), CurrentCoefficients();
      outR, outL := InteriorMouthJunctions(glottalOutput, lam);
      var c := Blend(ThreePort(newReflectionLeft, newReflectionRight, newReflectionNose),
                     ThreePort(reflectionLeft, reflectionRight, reflectionNose), lam);
      var nose := ThreePortScatter(c, R[NoseStart - 1], L[NoseStart], noseL[0]);
      assert nose == NoseJunction(w, k, lam);
      outR[0] := L[0] * GlottalReflection + glottalOutput;
      outL[N] := R[N - 1] * LipReflection;
      outL[NoseStart] := nose.left;
      outR[NoseStart] := nose.right;
      intoNose := nose.nose;
      assert outR[0] == MouthRight(w, k, glottalOutput, lam, 0);
      assert outL[N] == MouthLeft(w, k, lam, N);
      assert CurrentWaves() == w && CurrentCoefficients() == k;
    }

    /** The interior two-port junctions of the mouth, each with its
        coefficient interpolated between the previous and the current block. */
    method InteriorMouthJunctions(glottalOutput: real, lam: real) returns (outR: array<real>, outL: array<real>)
      requires Allocated()
      ensures fresh(outR) && fresh(outL) && outR != outL && outR.Length == N + 1 && outL.Length == N + 1
      ensures forall m :: 1 <= m < N && m != NoseStart ==>
        outR[m] == MouthRight(CurrentWaves(), CurrentCoefficients(), glottalOutput, lam, m) &&
        outL[m] == MouthLeft(CurrentWaves(), CurrentCoefficients(), lam, m)
    {
      outR := new real[N + 1](_ => 0.0);
      outL := new real[N + 1](_ => 0.0);
      for i := 1 to N
        invariant forall m :: 1 <= m < i ==>
          outR[m] == Scatter(Interpolate(reflection[m], newReflection[m], lam), R[m - 1], L[m]).right &&
          outL[m] == Scatter(Interpolate(reflection[m], newReflection[m], lam), R[m - 1], L[m]).left
      {
        var o := Scatter(Interpolate(reflection[i], newReflection[i], lam), R[i - 1], L[i]);
        outR[i] := o.right;
        outL[i] := o.left;
      }
    }

    /** The interior junctions of the nose, computed from the nasal waves of
        `w`, which are the current ones; `intoNose` is what the three-port
        junction sends in. */
    method NoseJunctions(intoNose: real, ghost w: Waves, ghost k: Coefficients, lam: real)
      returns (outR: array<real>, outL: array<real>)
      requires Allocated() && WellSized(w) && CoefficientsSized(k)
      requires noseR[..] == w.noseR && noseL[..] == w.noseL && noseReflection[..] == k.noseReflection
      requires intoNose == NoseRight(w, k, lam, 0)
      ensures fresh(outR) && fresh(outL) && outR.Length == NoseLength + 1 && outL.Length == NoseLength + 1
      ensures forall m :: 0 <= m < NoseLength ==> outR[m] == NoseRight(w, k, lam, m)
      ensures forall m :: 1 <= m <= NoseLength ==> outL[m] == NoseLeft(w, k, m)
    {
      outR := new real[NoseLength + 1](_ => 0.0);
      outL := new real[NoseLength + 1](_ => 0.0);
      outR[0] := intoNose;
      outL[NoseLength] := noseR[NoseLength - 1] * LipReflection;
      for i := 1 to NoseLength
        modifies outR, outL
        invariant outR[0] == intoNose && outL[NoseLength] == NoseLeft(w, k, NoseLength)
        invariant forall m :: 1 <= m < i ==> outR[m] == NoseRight(w, k, lam, m) && outL[m] == NoseLeft(w, k, m)
      {
        var o := Scatter(noseReflection[i], noseR[i - 1], noseL[i]);
        outR[i] := o.right;
        outL[i] := o.left;
      }
    }

    /** The storing loops of `runStep`, for the mouth and for the nose: each
        segment takes the damped, clamped wave that enters it from either side. */
    static method EmitInto(outR: array<real>, outL: array<real>, toR: array<real>, toL: array<real>)
      requires outR.Length == toR.Length + 1 && outL.Length == toL.Length + 1 && toR.Length == toL.Length
      requires toR != toL && outR != toR && outR != toL && outL != toR && outL != toL
      modifies toR, toL
      ensures forall m :: 0 <= m < toR.Length ==> toR[m] == Emit(outR[m]) && toL[m] == Emit(outL[m + 1])
    {
      for i := 0 to toR.Length
        modifies toR, toL
        invariant forall m :: 0 <= m < i ==> toR[m] == Emit(outR[m]) && toL[m] == Emit(outL[m + 1])
      {
        toR[i] := Clamp(outR[i] * Damping, -1.0, 1.0);
        toL[i] := Clamp(outL[i + 1] * Damping, -1.0, 1.0);
      }
    }

    /** The mouth half of `runStep`'s propagation: every mouth junction and the
        three-port junction are computed, then the mouth waves are stored and
        `lipOutput` is read off. Returns what the junction sends into the nose. */
    method PropagateMouth(glottalOutput: real, lam: real) returns (intoNose: real)
      requires Allocated()
      modifies R, L, this`lipOutput
      ensures R[..] == Propagated(old(CurrentWaves()), old(CurrentCoefficients()), glottalOutput, lam).R
      ensures L[..] == Propagated(old(CurrentWaves()), old(CurrentCoefficients()), glottalOutput, lam).L
      ensures intoNose == NoseRight(old(CurrentWaves()), old(CurrentCoefficients()), lam, 0)
      ensures lipOutput == R[N - 1]
    {
      ghost var w, k := CurrentWaves(), CurrentCoefficients();
      var outR, outL;
      outR, outL, intoNose := MouthJunctions(glottalOutput, lam);
      EmitInto(outR, outL, R, L);
      lipOutput := R[N - 1];
      assert forall m :: 0 <= m < N ==> L[m] == Emit(MouthLeft(w, k, lam, m + 1));
    }

    /** The nose half of `runStep`'s propagation, from the nasal waves of `w`. */
    method PropagateNose(intoNose: real, ghost w: Waves, ghost k: Coefficients, glottalOutput: real, lam: real)
      requires Allocated() && WellSized(w) && CoefficientsSized(k)
      requires noseR[..] == w.noseR && noseL[..] == w.noseL && noseReflection[..] == k.noseReflection
      requires intoNose == NoseRight(w, k, lam, 0)
      modifies noseR, noseL, this`noseOutput
      ensures noseR[..] == Propagated(w, k, glottalOutput, lam).noseR
      ensures noseL[..] == Propagated(w, k, glottalOutput, lam).noseL
      ensures noseOutput == noseR[NoseLength - 1]
    {
      var outR, outL := NoseJunctions(intoNose, w, k, lam);
      EmitInto(outR, outL, noseR, noseL);
      noseOutput := noseR[NoseLength - 1];
    }

    /** The scattering and propagation half of `runStep`: junction outputs are
        computed from the current waves, then damped, clamped and stored. */
    method Propagate(glottalOutput: real, lam: real)
      requires Allocated()
      modifies R, L, noseR, noseL, this`lipOutput, this`noseOutput
      ensures CurrentWaves() == Propagated(old(CurrentWaves()), old(CurrentCoefficients()), glottalOutput, lam)
      ensures lipOutput == R[N - 1] && noseOutput == noseR[NoseLength - 1]
    {
      ghost var w := CurrentWaves();
      ghost var k := CurrentCoefficients();
      var intoNose := PropagateMouth(glottalOutput, lam);
      PropagateNose(intoNose, w, k, glottalOutput, lam);
    }

    /** The first half of `runStep`: the clicks sound, then the touches
        add their fricative noise. */
    method Excite(turbulenceNoise: real, touches: seq<Touch>, modulator: real, pow: (real, real) -> real,
                  sampleRate: real)
      requires Valid() && sampleRate != 0.0
      modifies R, L, this`transients
      ensures Valid()
      ensures CurrentWaves() == InjectTurbulence(InjectTransients(old(CurrentWaves()), old(transients), pow),
                                                 old(Constrictions(touches)), turbulenceNoise, modulator)
      ensures transients == Survivors(Aged(old(transients), 1.0 / (sampleRate * 2.0)))
    {
      ghost var cs := Constrictions(touches);
      ProcessTransients(pow, sampleRate);
      assert Constrictions(touches) == cs;
      AddTurbulenceNoise(turbulenceNoise, touches, modulator);
    }

    /** `runStep`: clicks, then fricative noise, then one propagation step.
        `touches` is the touch list, `modulator` the glottis's noise
        modulator, `pow` the power function and `sampleRate` the audio rate. */
    method RunStep(glottalOutput: real, turbulenceNoise: real, lam: real, touches: seq<Touch>,
                   modulator: real, pow: (real, real) -> real, sampleRate: real)
      requires Valid() && sampleRate != 0.0
      modifies R, L, noseR, noseL, this`lipOutput, this`noseOutput, this`transients
      ensures Valid()
      ensures CurrentWaves() == Stepped(old(CurrentWaves()), old(transients), old(Constrictions(touches)),
                                        old(CurrentCoefficients()), glottalOutput, turbulenceNoise, modulator, pow, lam)
      ensures transients == Survivors(Aged(old(transients), 1.0 / (sampleRate * 2.0)))
      ensures lipOutput == R[N - 1] && noseOutput == noseR[NoseLength - 1]
      ensures Bounded(CurrentWaves()) && -1.0 <= lipOutput <= 1.0 && -1.0 <= noseOutput <= 1.0
    {
      ghost var k := CurrentCoefficients();
      Excite(turbulenceNoise, touches, modulator, pow, sampleRate);
      ghost var excited := CurrentWaves();
      assert CurrentCoefficients() == k;
      Propagate(glottalOutput, lam);
      assert CurrentWaves() == Propagated(excited, k, glottalOutput, lam);
    }

    /** `finishBlock`: reshape the tract for the elapsed block, then recompute
        the reflection coefficients. */
    method FinishBlock(blockTime: real)
      requires Valid() && 0.0 <= blockTime
      modifies diameter, noseDiameter, noseA, A, reflection, newReflection, this`transients, this`lastObstruction,
        this`reflectionLeft, this`reflectionRight, this`reflectionNose,
        this`newReflectionLeft, this`newReflectionRight, this`newReflectionNose
      ensures Valid()
      ensures forall i :: 0 <= i < N ==>
        diameter[i] == SegmentStep(old(diameter[i]), targetDiameter[i], i, blockTime * MovementSpeed)
      ensures lastObstruction == LastObstruction(old(diameter[..]))
      ensures transients == old(transients) +
        (if old(lastObstruction) > -1 && lastObstruction == -1 && old(noseA[0]) < TransientNoseThreshold
         then [Transient(old(lastObstruction), 0.0, 0.2, 0.3, 200.0)] else [])
      ensures noseDiameter[0] == VelumStep(old(noseDiameter[0]), velumTarget, blockTime * MovementSpeed)
      ensures noseA[0] == Area(noseDiameter[0])
      ensures forall i :: 1 <= i < NoseLength ==> noseDiameter[i] == old(noseDiameter[i]) && noseA[i] == old(noseA[i])
      ensures forall i :: 0 <= i < N ==> A[i] == Area(diameter[i])
      ensures forall i :: 1 <= i < N ==>
        reflection[i] == old(newReflection[i]) &&
        newReflection[i] == ReflectionCoefficient(Area(diameter[i - 1]), Area(diameter[i]))
      ensures ThreePort(reflectionLeft, reflectionRight, reflectionNose) ==
        old(ThreePort(newReflectionLeft, newReflectionRight, newReflectionNose))
      ensures ThreePort(newReflectionLeft, newReflectionRight, newReflectionNose) ==
        NoseJunctionCoefficients(Area(diameter[NoseStart]), Area(diameter[NoseStart + 1]), noseA[0])
    {
      ReshapeTract(blockTime);
      CalculateReflections();
    }
  }
}
