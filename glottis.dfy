/** The voice source: a Liljencrants–Fant glottal waveform whose period,
    pitch and tenseness are driven by the pitch keyboard, plus breath noise.
    Pitch and tenseness are double-buffered per audio block and interpolated
    per glottal period. */
module Glottis {
  import opened Numeric
  import opened Touches

  /** Size of the vibrato in relative pitch, and its rate in hertz. */
  const VibratoAmount: real := 0.005
  const VibratoFrequency: real := 6.0
  /** Placement of the pitch keyboard on the 600×600 control canvas. */
  const KeyboardTop: real := 500.0
  const KeyboardLeft: real := 0.0
  const KeyboardWidth: real := 600.0
  const KeyboardHeight: real := 100.0
  /** Semitones spanned by the keyboard, and the note at its left edge (F). */
  const Semitones: real := 20.0
  const BaseNote: real := 87.3071
  /** Per-block rise of the voicing intensity while voicing is requested. */
  const IntensityRise: real := 0.13

  /** The primitives the voice source calls: `Math.sin`, `Math.cos`,
      `Math.pow`, `Math.sqrt` and the one-dimensional simplex noise. */
  datatype Maths = Maths(sin: real -> real, cos: real -> real, pow: (real, real) -> real,
                         sqrt: real -> real, simplex: real -> real)

  /** The ranges of those primitives that the bounds below rely on: sine
      and simplex noise lie in [−1, 1] (`UnitRange`), cosine lies in [0, 1]
      on the first quarter turn, and a positive base has positive powers. */
  ghost predicate QuarterCosine(cos: real -> real) {
    forall x :: 0.0 <= x <= Pi * 0.5 ==> 0.0 <= cos(x) <= 1.0
  }

  ghost predicate PositivePowers(pow: (real, real) -> real) {
    forall a, b :: 0.0 < a ==> 0.0 < pow(a, b)
  }

  ghost predicate Sane(m: Maths) {
    UnitRange(m.sin) && QuarterCosine(m.cos) && PositivePowers(m.pow) && UnitRange(m.simplex)
  }

  /** The parameters the LF derivation produces for one glottal period. */
  datatype WaveShape = WaveShape(alpha: real, e0: real, epsilon: real, shift: real, delta: real,
                                 te: real, omega: real)

  /** The LF model: `derive` is the derivation of a period's shape from `Rd`
      (`setupWaveform` after the clamp), `waveform` the normalised waveform at
      a phase in the period (`normalizedLFWaveform` before its scaling). */
  datatype LFModel = LFModel(derive: real -> WaveShape, waveform: (WaveShape, real) -> real)

  /** `Rd` as the LF derivation uses it: raised to 0.5, then lowered to 2.7. */
  function ShapeRd(rd: real): (r: real)
    ensures 0.5 <= r <= 2.7
    ensures 0.5 <= rd <= 2.7 ==> r == rd
  {
    var raised := if rd < 0.5 then 0.5 else rd;
    if raised > 2.7 then 2.7 else raised
  }

  /** The two guards of `setupWaveform` are the clamp of `Math.clamp`. */
  lemma ShapeRdIsClamp(rd: real)
    ensures ShapeRd(rd) == Clamp(rd, 0.5, 2.7)
  {
  }

  /** `Rd = 3·(1 − tenseness)`: the stored, unclamped value. */
  function Rd(tenseness: real): (r: real)
    ensures 0.0 <= tenseness <= 1.0 ==> 0.0 <= r <= 3.0
    ensures tenseness == 1.0 ==> r == 0.0
  {
    3.0 * (1.0 - tenseness)
  }

  /** The `voiced` term of `getNoiseModulator`: 0.1 plus 0.2 times the
      positive half of a sine of the phase. */
  function Voiced(s: real): (v: real)
    ensures -1.0 <= s <= 1.0 ==> 0.1 <= v <= 0.3
    ensures s <= 0.0 ==> v == 0.1
  {
    0.1 + 0.2 * Max(0.0, s)
  }

  /** `getNoiseModulator`: a mix of `voiced` and the constant 0.3 weighted by
      `tenseness · intensity`. */
  function NoiseModulator(tenseness: real, intensity: real, voiced: real): (m: real)
    ensures 0.0 <= tenseness <= 1.0 && 0.0 <= intensity <= 1.0 && 0.1 <= voiced <= 0.3 ==> 0.1 <= m <= 0.3
    ensures tenseness == 0.0 || intensity == 0.0 ==> m == 0.3
    ensures tenseness == 1.0 && intensity == 1.0 ==> m == voiced
  {
    var p := tenseness * intensity;
    MixBounds(tenseness, intensity, voiced);
    p * voiced + (1.0 - p) * 0.3
  }

  lemma MixBounds(tenseness: real, intensity: real, voiced: real)
    ensures 0.0 <= tenseness <= 1.0 && 0.0 <= intensity <= 1.0 && 0.1 <= voiced <= 0.3 ==>
      0.1 <= tenseness * intensity * voiced + (1.0 - tenseness * intensity) * 0.3 <= 0.3
    ensures tenseness == 0.0 || intensity == 0.0 ==> tenseness * intensity == 0.0
    ensures tenseness == 1.0 && intensity == 1.0 ==> tenseness * intensity == 1.0
  {
    if 0.0 <= tenseness <= 1.0 && 0.0 <= intensity <= 1.0 && 0.1 <= voiced <= 0.3 {
      var p := tenseness * intensity;
      ScaleDown(tenseness, intensity);
      ScaleDown(0.3 - voiced, p);
      assert p * voiced + (1.0 - p) * 0.3 == 0.3 - (0.3 - voiced) * p;
    }
  }

  /** The block's pitch smoothing: up by at most a factor 1.1, or down by at
      most a factor 1.1, never past the requested frequency. */
  function SmoothTowards(smooth: real, target: real): (r: real)
    ensures 0.0 < smooth ==> Min(smooth, target) <= r <= Max(smooth, target)
    ensures 0.0 < smooth ==> smooth / 1.1 <= r <= smooth * 1.1
    ensures 0.0 < smooth ==> (r == smooth <==> target == smooth)
  {
    var raised := if target > smooth then Min(smooth * 1.1, target) else smooth;
    if target < raised then Max(raised / 1.1, target) else raised
  }

  /** A request within a factor 1.1 of the current pitch is met in one block. */
  lemma SmoothReaches(smooth: real, target: real)
    requires 0.0 < smooth && smooth / 1.1 <= target <= smooth * 1.1
    ensures SmoothTowards(smooth, target) == target
  {
  }

  /** The vibrato of `finishBlock` at time `t`: a sine plus two slow noises,
      and two slower, larger noises when wobble is on. */
  function Vibrato(t: real, autoWobble: bool, m: Maths): real {
    var base := VibratoAmount * m.sin(2.0 * Pi * t * VibratoFrequency)
      + 0.02 * m.simplex(t * 4.07) + 0.04 * m.simplex(t * 2.15);
    if autoWobble then base + 0.2 * m.simplex(t * 0.98) + 0.4 * m.simplex(t * 0.5) else base
  }

  /** The vibrato stays within 6.5% of the pitch, or 66.5% with wobble, so
      the pitch it multiplies stays positive. */
  lemma VibratoBounds(t: real, autoWobble: bool, m: Maths)
    requires UnitRange(m.sin) && UnitRange(m.simplex)
    ensures !autoWobble ==> -0.065 <= Vibrato(t, autoWobble, m) <= 0.065
    ensures -0.665 <= Vibrato(t, autoWobble, m) <= 0.665
  {
  }

  /** A pitch raised by a relative vibrato: `pitch·(1 + vibrato)`. */
  function WithVibrato(pitch: real, vibrato: real): (f: real)
    ensures 0.0 < pitch && -1.0 < vibrato ==> 0.0 < f
    ensures vibrato == 0.0 ==> f == pitch
  {
    var f := pitch * (1.0 + vibrato);
    if 0.0 < pitch && -1.0 < vibrato then ProductPositive(pitch, 1.0 + vibrato, f); f else f
  }

  /** The tenseness target of a block before the voicing correction: the
      requested tenseness plus two slow noises. */
  function WanderingTenseness(uiTenseness: real, t: real, m: Maths): real {
    uiTenseness + 0.1 * m.simplex(t * 0.46) + 0.05 * m.simplex(t * 0.36)
  }

  /** The new tenseness target of `finishBlock`: the wandering target, raised
      by `(3 − uiTenseness)·(1 − intensity)` when `lift` holds (the voice is
      requested while the keyboard is not held), so a quiet voice starts
      lax and tightens as it swells. */
  function TargetTenseness(wander: real, lift: bool, uiTenseness: real, intensity: real): (t: real)
    ensures !lift || intensity == 1.0 ==> t == wander
    ensures lift && uiTenseness <= 1.0 && 0.0 <= intensity <= 1.0 ==> wander <= t <= wander + 3.0 - uiTenseness
  {
    if lift then
      var rise := (3.0 - uiTenseness) * (1.0 - intensity);
      if uiTenseness <= 1.0 && 0.0 <= intensity <= 1.0 then
        ScaleDown(3.0 - uiTenseness, 1.0 - intensity);
        assert 0.0 <= rise <= 3.0 - uiTenseness;
        wander + rise
      else wander + rise
    else wander
  }

  /** One block of the voicing envelope: up by 0.13 while voicing is
      requested, down at five units per second otherwise, kept in [0, 1]. */
  function IntensityStep(intensity: real, voicing: bool, blockTime: real): (r: real)
    ensures 0.0 <= r <= 1.0
    ensures voicing && intensity >= 0.0 ==> r == Min(1.0, intensity + IntensityRise)
    ensures !voicing && 0.0 <= blockTime && intensity <= 1.0 ==> r <= Max(0.0, intensity)
    ensures !voicing && 0.0 <= blockTime && 0.0 <= intensity <= 1.0 ==> r == Max(0.0, intensity - blockTime * 5.0)
  {
    Clamp(intensity + (if voicing then IntensityRise else -blockTime * 5.0), 0.0, 1.0)
  }

  /** `k` voiced blocks in a row. */
  function Voice(intensity: real, k: nat, blockTime: real): real
    decreases k
  {
    if k == 0 then intensity else Voice(IntensityStep(intensity, true, blockTime), k - 1, blockTime)
  }

  /** While voicing is requested the envelope climbs at least 0.13 a block,
      and from within [0, 1] exactly 0.13 a block until it reaches 1. */
  lemma {:induction false} VoiceClimbs(intensity: real, k: nat, blockTime: real)
    requires 0.0 <= intensity
    ensures Voice(intensity, k, blockTime) >= Min(1.0, intensity + IntensityRise * k as real)
    ensures intensity <= 1.0 ==> Voice(intensity, k, blockTime) == Min(1.0, intensity + IntensityRise * k as real)
    decreases k
  {
    if k > 0 {
      var next := IntensityStep(intensity, true, blockTime);
      VoiceClimbs(next, k - 1, blockTime);
    }
  }

  /** Eight voiced blocks bring the voice to full intensity from silence. */
  lemma EightBlocksToFullVoice(blockTime: real)
    ensures Voice(0.0, 8, blockTime) == 1.0
  {
    VoiceClimbs(0.0, 8, blockTime);
  }

  /** `k` unvoiced blocks in a row. */
  function Silence(intensity: real, k: nat, blockTime: real): real
    decreases k
  {
    if k == 0 then intensity else Silence(IntensityStep(intensity, false, blockTime), k - 1, blockTime)
  }

  /** How far `k` silent blocks lower the envelope, one block at a time. */
  function SilentFall(k: nat, blockTime: real): (f: real)
    ensures 0.0 <= blockTime ==> 0.0 <= f
    decreases k
  {
    if k == 0 then 0.0 else SilentFall(k - 1, blockTime) + blockTime * 5.0
  }

  /** The fall is five units a second: `5 · blockTime · k`. */
  lemma {:induction false} SilentFallIsLinear(k: nat, blockTime: real)
    ensures SilentFall(k, blockTime) == blockTime * 5.0 * k as real
    decreases k
  {
    if k > 0 {
      SilentFallIsLinear(k - 1, blockTime);
      PeelMultiple(blockTime * 5.0, k);
    }
  }

  /** Block by block, silence lowers the envelope by the fall so far, down
      to zero and no further. */
  lemma {:induction false} SilenceTracksFall(intensity: real, k: nat, blockTime: real)
    requires 0.0 <= intensity <= 1.0 && 0.0 <= blockTime
    ensures Silence(intensity, k, blockTime) == Max(0.0, intensity - SilentFall(k, blockTime))
    decreases k
  {
    if k > 0 {
      var next := IntensityStep(intensity, false, blockTime);
      SilenceTracksFall(next, k - 1, blockTime);
      if intensity < blockTime * 5.0 {
        assert next == 0.0;
      } else {
        assert next == intensity - blockTime * 5.0;
      }
    }
  }

  /** Without voicing the envelope falls by exactly five units a second
      until it reaches zero, where it stays. */
  lemma SilenceFalls(intensity: real, k: nat, blockTime: real)
    requires 0.0 <= intensity <= 1.0 && 0.0 <= blockTime
    ensures Silence(intensity, k, blockTime) == Max(0.0, intensity - blockTime * 5.0 * k as real)
  {
    SilenceTracksFall(intensity, k, blockTime);
    SilentFallIsLinear(k, blockTime);
  }

  /** Once `k` blocks of silence cover the remaining intensity, the voice
      is fully off. */
  lemma SilenceReachesZero(intensity: real, k: nat, blockTime: real)
    requires 0.0 <= intensity <= 1.0 && 0.0 <= blockTime
    requires intensity <= blockTime * 5.0 * k as real
    ensures Silence(intensity, k, blockTime) == 0.0
  {
    SilenceFalls(intensity, k, blockTime);
  }

  /** The keyboard row the pointer sits on, measured from 10 below the top
      of the keyboard and kept on the keyboard. */
  function KeyboardRow(touchY: real): (r: real)
    ensures 0.0 <= r <= KeyboardHeight - 26.0
  {
    Clamp(touchY - KeyboardTop - 10.0, 0.0, KeyboardHeight - 26.0)
  }

  /** The pitch under a pointer at `touchX`: `semitones · x / width + 0.5`
      semitones above the base note. */
  function KeyboardFrequency(touchX: real, m: Maths): (f: real)
    ensures PositivePowers(m.pow) ==> 0.0 < f
  {
    var semitone := Semitones * (touchX - KeyboardLeft) / KeyboardWidth + 0.5;
    BaseNote * m.pow(2.0, semitone / 12.0)
  }

  /** The tenseness requested at keyboard row `row`: `1 − cos(t·π/2)` for the
      height fraction `t`, so the top of the keyboard is tense and the bottom
      breathy. */
  function KeyboardTenseness(row: real, m: Maths): (t: real)
    ensures QuarterCosine(m.cos) ==> 0.0 <= t <= 1.0
  {
    var height := Clamp(1.0 - row / (KeyboardHeight - 28.0), 0.0, 1.0);
    1.0 - m.cos(height * Pi * 0.5)
  }

  /** A touch the keyboard can pick up: alive and at or below its top. */
  predicate OnKeyboard(t: Touch)
    reads t
  {
    t.alive && t.y >= KeyboardTop
  }

  /** The index of the last of the first `n` touches that the keyboard can
      pick up, or −1 when there is none (the search does not stop at the
      first). */
  function LastOnKeyboard(ts: seq<Touch>, n: int): (k: int)
    requires 0 <= n <= |ts|
    reads ts
    ensures -1 <= k < n
    ensures 0 <= k ==> OnKeyboard(ts[k])
    ensures forall l :: k < l < n ==> !OnKeyboard(ts[l])
    decreases n
  {
    if n == 0 then -1
    else if OnKeyboard(ts[n - 1]) then n - 1
    else LastOnKeyboard(ts, n - 1)
  }

  /** The pointer the keyboard picks up from the first `n` touches. */
  function KeyboardTouch(ts: seq<Touch>, n: int): Touch?
    requires 0 <= n <= |ts|
    reads ts
  {
    var k := LastOnKeyboard(ts, n);
    if k < 0 then null else ts[k]
  }

  /** Whether one of the first `n` touches is alive. */
  function AnyAlive(ts: seq<Touch>, n: int): (r: bool)
    requires 0 <= n <= |ts|
    reads ts
    ensures r <==> exists k :: 0 <= k < n && ts[k].alive
    decreases n
  {
    n > 0 && (ts[n - 1].alive || AnyAlive(ts, n - 1))
  }

  /** `GlottisClass`: the state of the voice source. `shape` holds what
      `setupWaveform` derives for the LF waveform; `rd` is the stored,
      unclamped `Rd`. */
  class GlottalSource {
    var timeInWaveform: real
    var oldFrequency: real
    var newFrequency: real
    var uiFrequency: real
    var smoothFrequency: real
    var oldTenseness: real
    var newTenseness: real
    var uiTenseness: real
    var totalTime: real
    var intensity: real
    var loudness: real
    var isTouched: bool
    var isTouchingSomewhere: bool
    var touch: Touch?
    var x: real
    var y: real
    var waveformLength: real
    var frequency: real
    var rd: real
    var shape: WaveShape

    /** Every frequency is positive, so every period has a positive length;
        the phase is never negative; tenseness and intensity are fractions. */
    ghost predicate Valid()
      reads this`oldFrequency, this`newFrequency, this`smoothFrequency, this`uiFrequency, this`frequency,
        this`waveformLength, this`timeInWaveform, this`uiTenseness, this`intensity
    {
      0.0 < oldFrequency && 0.0 < newFrequency && 0.0 < smoothFrequency && 0.0 < uiFrequency &&
      0.0 < frequency && waveformLength == 1.0 / frequency &&
      0.0 <= timeInWaveform &&
      0.0 <= uiTenseness <= 1.0 && 0.0 <= intensity <= 1.0
    }

    /** The constructor: 140 Hz, tenseness 0.6, silent, and the first
        period set up. */
    constructor (lf: LFModel)
      ensures Valid()
      ensures oldFrequency == 140.0 && newFrequency == 140.0 && uiFrequency == 140.0 && smoothFrequency == 140.0
      ensures oldTenseness == 0.6 && newTenseness == 0.6 && uiTenseness == 0.6
      ensures timeInWaveform == 0.0 && totalTime == 0.0 && intensity == 0.0 && loudness == 1.0
      ensures !isTouched && !isTouchingSomewhere && touch == null && x == 240.0 && y == 530.0
      ensures frequency == 140.0 && waveformLength == 1.0 / 140.0
      ensures rd == Rd(0.6) && shape == lf.derive(ShapeRd(Rd(0.6)))
    {
      timeInWaveform := 0.0;
      oldFrequency, newFrequency, uiFrequency, smoothFrequency := 140.0, 140.0, 140.0, 140.0;
      oldTenseness, newTenseness, uiTenseness := 0.6, 0.6, 0.6;
      totalTime := 0.0;
      intensity := 0.0;
      loudness := 1.0;
      isTouched, isTouchingSomewhere := false, false;
      touch := null;
      x, y := 240.0, 530.0;
      waveformLength, frequency, rd := 0.0, 0.0, 0.0;
      shape := WaveShape(0.0, 0.0, 0.0, 0.0, 0.0, 0.0, 0.0);
      new;
      SetupWaveform(0.0, lf);
    }

    /** `getNoiseModulator`: the breath-noise gain of the current phase. */
    function NoiseGain(m: Maths): (g: real)
      reads this
      requires waveformLength != 0.0
      ensures UnitRange(m.sin) && 0.0 <= uiTenseness <= 1.0 && 0.0 <= intensity <= 1.0 ==> 0.1 <= g <= 0.3
    {
      NoiseModulator(uiTenseness, intensity, Voiced(m.sin(Pi * 2.0 * timeInWaveform / waveformLength)))
    }

    /** The sample `runStep` returns: the LF waveform at the current phase,
        scaled by intensity and loudness, plus the modulated breath noise. */
    function Output(noiseSource: real, m: Maths, lf: LFModel): real
      reads this
      requires waveformLength != 0.0
    {
      var aspiration := intensity * (1.0 - m.sqrt(uiTenseness)) * NoiseGain(m) * noiseSource;
      lf.waveform(shape, timeInWaveform / waveformLength) * intensity * loudness +
        aspiration * (0.2 + 0.02 * m.simplex(totalTime * 1.99))
    }

    /** `setupWaveform`: the period's frequency and tenseness interpolated
        between the block's old and new values; `Rd` is stored unclamped and
        the shape is derived from its clamped value. */
    method SetupWaveform(lam: real, lf: LFModel)
      requires Interpolate(oldFrequency, newFrequency, lam) != 0.0
      modifies this`frequency, this`waveformLength, this`rd, this`shape
      ensures frequency == Interpolate(oldFrequency, newFrequency, lam)
      ensures waveformLength == 1.0 / frequency
      ensures rd == Rd(Interpolate(oldTenseness, newTenseness, lam))
      ensures shape == lf.derive(ShapeRd(rd))
    {
      frequency := oldFrequency * (1.0 - lam) + newFrequency * lam;
      var tenseness := oldTenseness * (1.0 - lam) + newTenseness * lam;
      assert tenseness == Interpolate(oldTenseness, newTenseness, lam);
      rd := 3.0 * (1.0 - tenseness);
      waveformLength := 1.0 / frequency;
      var clamped := rd;
      if clamped < 0.5 {
        clamped := 0.5;
      }
      if clamped > 2.7 {
        clamped := 2.7;
      }
      shape := lf.derive(clamped);
    }

    /** `runStep`: the clocks advance by one sample; when the phase passes
        the end of the period it wraps once and the next period is set up. */
    method RunStep(lam: real, noiseSource: real, sampleRate: real, m: Maths, lf: LFModel)
      returns (out: real)
      requires Valid() && 0.0 < sampleRate && 0.0 <= lam <= 1.0
      modifies this`timeInWaveform, this`totalTime, this`frequency, this`waveformLength, this`rd, this`shape
      ensures Valid()
      ensures totalTime == old(totalTime) + 1.0 / sampleRate
      ensures var t := old(timeInWaveform) + 1.0 / sampleRate;
        if t > old(waveformLength) then
          timeInWaveform == t - old(waveformLength) &&
          frequency == Interpolate(oldFrequency, newFrequency, lam) && waveformLength == 1.0 / frequency &&
          rd == Rd(Interpolate(oldTenseness, newTenseness, lam)) && shape == lf.derive(ShapeRd(rd))
        else
          timeInWaveform == t && frequency == old(frequency) && waveformLength == old(waveformLength) &&
          rd == old(rd) && shape == old(shape)
      ensures out == Output(noiseSource, m, lf)
    {
      var timeStep := 1.0 / sampleRate;
      timeInWaveform := timeInWaveform + timeStep;
      totalTime := totalTime + timeStep;
      if timeInWaveform > waveformLength {
        NextPeriod(lam, lf);
      }
      out := Output(noiseSource, m, lf);
    }

    /** The wrap of `runStep`: the phase moves back by one period and the
        next period is set up. */
    method NextPeriod(lam: real, lf: LFModel)
      requires Valid() && 0.0 <= lam <= 1.0 && timeInWaveform > waveformLength
      modifies this`timeInWaveform, this`frequency, this`waveformLength, this`rd, this`shape
      ensures Valid()
      ensures timeInWaveform == old(timeInWaveform) - old(waveformLength)
      ensures frequency == Interpolate(oldFrequency, newFrequency, lam) && waveformLength == 1.0 / frequency
      ensures rd == Rd(Interpolate(oldTenseness, newTenseness, lam)) && shape == lf.derive(ShapeRd(rd))
    {
      timeInWaveform := timeInWaveform - waveformLength;
      SetupWaveform(lam, lf);
    }

    /** `finishBlock`: the smoothed pitch moves towards the request, the
        block buffers rotate and take new targets with vibrato and wander,
        and the voicing envelope takes one step. */
    method FinishBlock(blockTime: real, alwaysVoice: bool, autoWobble: bool, m: Maths)
      requires Valid() && -1.0 < Vibrato(totalTime, autoWobble, m)
      modifies this`smoothFrequency, this`oldFrequency, this`newFrequency, this`oldTenseness,
        this`newTenseness, this`intensity
      ensures Valid()
      ensures smoothFrequency == SmoothTowards(old(smoothFrequency), uiFrequency)
      ensures oldFrequency == old(newFrequency) && oldTenseness == old(newTenseness)
      ensures newFrequency == WithVibrato(smoothFrequency, old(Vibrato(totalTime, autoWobble, m)))
      ensures newTenseness == TargetTenseness(old(WanderingTenseness(uiTenseness, totalTime, m)),
        !isTouched && (alwaysVoice || isTouchingSomewhere), uiTenseness, old(intensity))
      ensures intensity == IntensityStep(old(intensity), isTouched || alwaysVoice || isTouchingSomewhere, blockTime)
    {
      var vibrato := Vibrato(totalTime, autoWobble, m);
      var wander := WanderingTenseness(uiTenseness, totalTime, m);
      SmoothPitch();
      RotateTenseness(wander, !isTouched && (alwaysVoice || isTouchingSomewhere),
        isTouched || alwaysVoice || isTouchingSomewhere, blockTime);
      RotatePitch(vibrato);
    }

    /** The pitch buffers of `finishBlock`: the new pitch becomes the old one
        and the smoothed pitch with vibrato the new one. */
    method RotatePitch(vibrato: real)
      requires 0.0 < smoothFrequency && -1.0 < vibrato
      modifies this`oldFrequency, this`newFrequency
      ensures oldFrequency == old(newFrequency)
      ensures newFrequency == WithVibrato(smoothFrequency, vibrato)
    {
      oldFrequency := newFrequency;
      newFrequency := smoothFrequency * (1.0 + vibrato);
    }

    /** The tenseness buffers and the voicing envelope of `finishBlock`:
        while the voice is requested but the keyboard is not held, the new
        tenseness is raised by `(3 − uiTenseness)·(1 − intensity)`; then the
        envelope takes its step. */
    method RotateTenseness(wander: real, lift: bool, voicing: bool, blockTime: real)
      modifies this`oldTenseness, this`newTenseness, this`intensity
      ensures oldTenseness == old(newTenseness)
      ensures newTenseness == TargetTenseness(wander, lift, uiTenseness, old(intensity))
      ensures intensity == IntensityStep(old(intensity), voicing, blockTime)
    {
      oldTenseness := newTenseness;
      newTenseness := wander;
      if lift {
        newTenseness := newTenseness + (3.0 - uiTenseness) * (1.0 - intensity);
      }
      if voicing {
        intensity := intensity + IntensityRise;
      } else {
        intensity := intensity - blockTime * 5.0;
      }
      intensity := Clamp(intensity, 0.0, 1.0);
    }

    /** The pitch smoothing at the start of `finishBlock`. */
    method SmoothPitch()
      requires 0.0 < smoothFrequency
      modifies this`smoothFrequency
      ensures smoothFrequency == SmoothTowards(old(smoothFrequency), uiFrequency)
    {
      if uiFrequency > smoothFrequency {
        smoothFrequency := Min(smoothFrequency * 1.1, uiFrequency);
      }
      if uiFrequency < smoothFrequency {
        smoothFrequency := Max(smoothFrequency / 1.1, uiFrequency);
      }
    }

    /** `handleTouches` of the keyboard: a released pointer is let go; when
        none is held the last alive touch on the keyboard is picked up; a held
        pointer sets the requested pitch, tenseness and loudness. */
    method HandleTouches(touches: seq<Touch>, m: Maths)
      requires Valid() && PositivePowers(m.pow) && QuarterCosine(m.cos)
      modifies this`touch, this`isTouched, this`isTouchingSomewhere, this`uiFrequency, this`smoothFrequency,
        this`uiTenseness, this`loudness, this`x, this`y
      ensures Valid()
      ensures touch == (if old(touch) != null && old(touch.alive) then old(touch) else KeyboardTouch(touches, |touches|))
      ensures isTouched == (touch != null)
      ensures isTouchingSomewhere == (touch != null || AnyAlive(touches, |touches|))
      ensures touch != null ==>
        uiFrequency == KeyboardFrequency(touch.x, m) &&
        smoothFrequency == (if intensity == 0.0 then uiFrequency else old(smoothFrequency)) &&
        uiTenseness == KeyboardTenseness(KeyboardRow(touch.y), m) &&
        loudness == m.pow(uiTenseness, 0.25) &&
        x == touch.x && y == KeyboardRow(touch.y) + KeyboardTop + 10.0
      ensures touch == null ==>
        uiFrequency == old(uiFrequency) && smoothFrequency == old(smoothFrequency) &&
        uiTenseness == old(uiTenseness) && loudness == old(loudness) && x == old(x) && y == old(y)
    {
      SelectTouch(touches);
      if touch != null {
        isTouchingSomewhere := true;
        FollowTouch(m);
      }
      isTouched := touch != null;
    }

    /** The first half of `handleTouches`: a released pointer is let go and,
        when none is held, the touch list is searched for a new one. */
    method SelectTouch(touches: seq<Touch>)
      modifies this`touch, this`isTouchingSomewhere
      ensures touch == (if old(touch) != null && old(touch.alive) then old(touch) else KeyboardTouch(touches, |touches|))
      ensures isTouchingSomewhere == ((old(touch) == null || !old(touch.alive)) && AnyAlive(touches, |touches|))
    {
      isTouchingSomewhere := false;
      if touch != null && !touch.alive {
        touch := null;
      }
      if touch == null {
        for j := 0 to |touches|
          invariant touch == KeyboardTouch(touches, j)
          invariant isTouchingSomewhere == AnyAlive(touches, j)
        {
          var candidate := touches[j];
          if !candidate.alive {
            continue;
          }
          isTouchingSomewhere := true;
          if candidate.y < KeyboardTop {
            continue;
          }
          touch := candidate;
        }
      }
    }

    /** The second half of `handleTouches`: the held pointer sets the
        requested pitch (and the smoothed pitch too while the voice is
        silent), the tenseness, the loudness and the marker position. */
    method FollowTouch(m: Maths)
      requires Valid() && PositivePowers(m.pow) && QuarterCosine(m.cos) && touch != null
      modifies this`uiFrequency, this`smoothFrequency, this`uiTenseness, this`loudness, this`x, this`y
      ensures Valid()
      ensures uiFrequency == KeyboardFrequency(touch.x, m)
      ensures smoothFrequency == (if intensity == 0.0 then uiFrequency else old(smoothFrequency))
      ensures uiTenseness == KeyboardTenseness(KeyboardRow(touch.y), m)
      ensures loudness == m.pow(uiTenseness, 0.25)
      ensures x == touch.x && y == KeyboardRow(touch.y) + KeyboardTop + 10.0
    {
      var row := KeyboardRow(touch.y);
      uiFrequency := KeyboardFrequency(touch.x, m);
      if intensity == 0.0 {
        smoothFrequency := uiFrequency;
      }
      uiTenseness := KeyboardTenseness(row, m);
      loudness := m.pow(uiTenseness, 0.25);
      x := touch.x;
      y := row + KeyboardTop + 10.0;
    }
  }
}
