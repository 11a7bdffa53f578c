/** The audio callback that drives the synthesiser: for every output sample
    the glottis runs once and the tract twice (the tract runs at twice the
    audio rate), and at the end of each block both take their once-per-block
    step. */
module AudioSystem {
  import opened Numeric
  import opened Touches
  import opened Glottis
  import opened Junctions
  import opened Tract

  /** The number of samples in one audio block. */
  const BlockLength: nat := 2048

  /** The length of a block in seconds at `sampleRate` samples per second. */
  function BlockTime(sampleRate: real): (t: real)
    requires 0.0 < sampleRate
    ensures 0.0 < t
    ensures t * sampleRate == BlockLength as real
  {
    BlockLength as real / sampleRate
  }

  /** The arrays of the tract that a step or a block end may write. */
  ghost function TractArrays(tract: VocalTract): set<array<real>>
  {
    {tract.R, tract.L, tract.noseR, tract.noseL, tract.diameter, tract.noseDiameter, tract.noseA, tract.A,
     tract.reflection, tract.newReflection}
  }

  /** A clock that started at `start` after `samples` samples at
      `sampleRate` samples per second. */
  function Clock(start: real, samples: nat, sampleRate: real): real
    requires 0.0 < sampleRate
  {
    if samples == 0 then start else Clock(start, samples - 1, sampleRate) + 1.0 / sampleRate
  }

  /** The clock advances linearly: `samples` samples add `samples / sampleRate`. */
  lemma {:induction false} ClockIsLinear(start: real, samples: nat, sampleRate: real)
    requires 0.0 < sampleRate
    ensures Clock(start, samples, sampleRate) == start + samples as real / sampleRate
  {
    if samples > 0 {
      ClockIsLinear(start, samples - 1, sampleRate);
      assert (samples - 1) as real / sampleRate + 1.0 / sampleRate == samples as real / sampleRate;
    }
  }

  /** The interpolation points of sample `j` of `n`: the glottis and the
      first tract step at `j/n` in [0, 1), the second tract step half a
      sample later, strictly inside (0, 1). */
  lemma SampleFractions(j: int, n: int)
    requires 0 <= j < n
    ensures 0.0 <= j as real / n as real < 1.0
    ensures 0.0 < (j as real + 0.5) / n as real < 1.0
    ensures j as real / n as real < (j as real + 0.5) / n as real
  {
    var r := n as real;
    assert r / r == 1.0 && 0.0 / r == 0.0;
    QuotientsOrdered(j as real, j as real + 0.5, r);
    QuotientsOrdered(j as real + 0.5, r, r);
    if 0 < j {
      QuotientsOrdered(0.0, j as real, r);
    }
  }

  /** Both sources keep their invariants between samples. */
  ghost predicate Ready(glottis: GlottalSource, tract: VocalTract)
    reads glottis, tract, tract.noseDiameter, tract.noseA
  {
    glottis.Valid() && tract.Valid()
  }

  /** The mix of one output sample: the lip and nose outputs of the two
      tract steps, scaled by 1/8. */
  function Mix(lip1: real, nose1: real, lip2: real, nose2: real): (y: real)
    ensures -1.0 <= lip1 <= 1.0 && -1.0 <= nose1 <= 1.0 && -1.0 <= lip2 <= 1.0 && -1.0 <= nose2 <= 1.0 ==>
      -0.5 <= y <= 0.5
    ensures lip1 == 0.0 && nose1 == 0.0 && lip2 == 0.0 && nose2 == 0.0 ==> y == 0.0
  {
    (lip1 + nose1 + lip2 + nose2) * 0.125
  }

  /** `AudioSystemClass`: the block length, the sample rate of the audio
      context and the block time derived from them. */
  class AudioEngine {
    var blockLength: nat
    var blockTime: real
    var sampleRate: real
    var started: bool
    var soundOn: bool

    ghost predicate Valid()
      reads this
    {
      blockLength == BlockLength && 0.0 < sampleRate && blockTime == BlockTime(sampleRate)
    }

    /** The constructor: a block of 2048 samples at the context's sample
        rate, silent and not started. */
    constructor (contextSampleRate: real)
      requires 0.0 < contextSampleRate
      ensures Valid()
      ensures sampleRate == contextSampleRate && blockLength == 2048
      ensures blockTime * sampleRate == 2048.0
      ensures !started && !soundOn
    {
      blockLength := BlockLength;
      started := false;
      soundOn := false;
      sampleRate := contextSampleRate;
      blockTime := BlockLength as real / contextSampleRate;
    }

    /** `doScriptProcessor`: fills `outArray` from the two noise inputs,
        sample by sample, then ends the block. Every output sample lies in
        [−0.5, 0.5], the glottis clock advances by one block, and the block
        buffers of pitch and reflection coefficients rotate. */
    method DoScriptProcessor(glottis: GlottalSource, tract: VocalTract, touches: seq<Touch>,
                             inputArray1: array<real>, inputArray2: array<real>, outArray: array<real>,
                             m: Maths, lf: LFModel, alwaysVoice: bool, autoWobble: bool)
      requires Valid() && glottis.Valid() && tract.Valid()
      requires UnitRange(m.sin) && UnitRange(m.simplex)
      requires inputArray1.Length == outArray.Length && inputArray2.Length == outArray.Length
      requires outArray !in TractArrays(tract)
      modifies outArray, glottis, tract, TractArrays(tract)
      ensures glottis.Valid() && tract.Valid()
      ensures forall j :: 0 <= j < outArray.Length ==> -0.5 <= outArray[j] <= 0.5
      ensures glottis.totalTime == Clock(old(glottis.totalTime), outArray.Length, sampleRate)
      ensures glottis.oldFrequency == old(glottis.newFrequency) && glottis.oldTenseness == old(glottis.newTenseness)
      ensures forall i :: 1 <= i < N ==> tract.reflection[i] == old(tract.newReflection[i])
    {
      FillBlock(glottis, tract, touches, inputArray1, inputArray2, outArray, m, lf, sampleRate);
      EndBlock(glottis, tract, m, blockTime, alwaysVoice, autoWobble);
    }
  }

  /** The sample loop of `doScriptProcessor`: sample `j` of `n` runs the
      glottis at `j/n` and the tract at `j/n` and `(j + ½)/n`. */
  method FillBlock(glottis: GlottalSource, tract: VocalTract, touches: seq<Touch>,
                   inputArray1: array<real>, inputArray2: array<real>, outArray: array<real>,
                   m: Maths, lf: LFModel, sampleRate: real)
    requires glottis.Valid() && tract.Valid() && 0.0 < sampleRate
    requires inputArray1.Length == outArray.Length && inputArray2.Length == outArray.Length
    requires outArray != tract.R && outArray != tract.L && outArray != tract.noseR && outArray != tract.noseL
    requires outArray != tract.noseDiameter && outArray != tract.noseA
    modifies outArray, glottis`timeInWaveform, glottis`totalTime, glottis`frequency, glottis`waveformLength,
      glottis`rd, glottis`shape, tract.R, tract.L, tract.noseR, tract.noseL, tract`lipOutput,
      tract`noseOutput, tract`transients
    ensures glottis.Valid() && tract.Valid()
    ensures forall j :: 0 <= j < outArray.Length ==> -0.5 <= outArray[j] <= 0.5
    ensures glottis.totalTime == Clock(old(glottis.totalTime), outArray.Length, sampleRate)
  {
    var n := outArray.Length;
    var j := 0;
    while j < n
      invariant 0 <= j <= n
      invariant Ready(glottis, tract)
      invariant forall k :: 0 <= k < j ==> -0.5 <= outArray[k] <= 0.5
      invariant glottis.totalTime == Clock(old(glottis.totalTime), j, sampleRate)
    {
      WriteSample(glottis, tract, touches, j, inputArray1[j], inputArray2[j], outArray, m, lf, sampleRate,
                  old(glottis.totalTime));
      j := j + 1;
    }
  }

  /** Sample `j` of the block, written into `outArray[j]`. */
  method WriteSample(glottis: GlottalSource, tract: VocalTract, touches: seq<Touch>, j: nat,
                     aspirationNoise: real, fricativeNoise: real, outArray: array<real>, m: Maths, lf: LFModel,
                     sampleRate: real, ghost start: real)
    requires glottis.Valid() && tract.Valid() && 0.0 < sampleRate && j < outArray.Length
    requires outArray != tract.R && outArray != tract.L && outArray != tract.noseR && outArray != tract.noseL
    requires outArray != tract.noseDiameter && outArray != tract.noseA
    requires glottis.totalTime == Clock(start, j, sampleRate)
    modifies outArray, glottis`timeInWaveform, glottis`totalTime, glottis`frequency, glottis`waveformLength,
      glottis`rd, glottis`shape, tract.R, tract.L, tract.noseR, tract.noseL, tract`lipOutput,
      tract`noseOutput, tract`transients
    ensures glottis.Valid() && tract.Valid()
    ensures glottis.totalTime == Clock(start, j + 1, sampleRate)
    ensures -0.5 <= outArray[j] <= 0.5
    ensures forall k :: 0 <= k < outArray.Length && k != j ==> outArray[k] == old(outArray[k])
  {
    var y, _, _ := Sample(glottis, tract, touches, j, outArray.Length, aspirationNoise, fricativeNoise, m, lf,
                       sampleRate, start);
    outArray[j] := y;
  }

  /** Output sample `j` of `n`: the glottis runs at `j/n`, the tract at
      `j/n` and `(j + ½)/n`, with the glottis's current noise modulator;
      `lip1` and `nose1` are the outputs of the first tract step. */
  method Sample(glottis: GlottalSource, tract: VocalTract, touches: seq<Touch>, j: nat, n: nat,
                aspirationNoise: real, fricativeNoise: real, m: Maths, lf: LFModel,
                sampleRate: real, ghost start: real)
    returns (y: real, ghost lip1: real, ghost nose1: real)
    requires glottis.Valid() && tract.Valid() && 0.0 < sampleRate && j < n
    requires glottis.totalTime == Clock(start, j, sampleRate)
    modifies glottis`timeInWaveform, glottis`totalTime, glottis`frequency, glottis`waveformLength,
      glottis`rd, glottis`shape, tract.R, tract.L, tract.noseR, tract.noseL, tract`lipOutput,
      tract`noseOutput, tract`transients
    ensures glottis.Valid() && tract.Valid()
    ensures glottis.totalTime == Clock(start, j + 1, sampleRate)
    ensures var t := old(glottis.timeInWaveform) + 1.0 / sampleRate;
      if t > old(glottis.waveformLength) then
        glottis.timeInWaveform == t - old(glottis.waveformLength) &&
        glottis.frequency == Interpolate(glottis.oldFrequency, glottis.newFrequency, j as real / n as real) &&
        glottis.rd == Rd(Interpolate(glottis.oldTenseness, glottis.newTenseness, j as real / n as real))
      else
        glottis.timeInWaveform == t && glottis.frequency == old(glottis.frequency) && glottis.rd == old(glottis.rd)
    ensures tract.transients == Survivors(Aged(Survivors(Aged(old(tract.transients), 1.0 / (sampleRate * 2.0))),
                                               1.0 / (sampleRate * 2.0)))
    ensures -1.0 <= lip1 <= 1.0 && -1.0 <= nose1 <= 1.0
    ensures y == Mix(lip1, nose1, tract.R[N - 1], tract.noseR[NoseLength - 1])
    ensures -0.5 <= y <= 0.5
  {
    SampleFractions(j, n);
    var lam1 := j as real / n as real;
    var lam2 := (j as real + 0.5) / n as real;
    var glottalOutput := glottis.RunStep(lam1, aspirationNoise, sampleRate, m, lf);
    assert glottis.totalTime == Clock(start, j + 1, sampleRate);
    ghost var glottisAfter := (glottis.timeInWaveform, glottis.frequency, glottis.rd);
    y, lip1, nose1 := TractSample(tract, touches, glottalOutput, fricativeNoise, lam1, lam2, glottis.NoiseGain(m),
                                  m.pow, sampleRate);
    assert (glottis.timeInWaveform, glottis.frequency, glottis.rd) == glottisAfter;
  }

  /** The two tract steps of one output sample and their mix; `lip1` and
      `nose1` are the outputs of the first step. */
  method TractSample(tract: VocalTract, touches: seq<Touch>, glottalOutput: real, fricativeNoise: real,
                     lam1: real, lam2: real, modulator: real, pow: (real, real) -> real, sampleRate: real)
    returns (y: real, ghost lip1: real, ghost nose1: real)
    requires tract.Valid() && 0.0 < sampleRate
    modifies tract.R, tract.L, tract.noseR, tract.noseL, tract`lipOutput, tract`noseOutput, tract`transients
    ensures tract.Valid()
    ensures tract.transients == Survivors(Aged(Survivors(Aged(old(tract.transients), 1.0 / (sampleRate * 2.0))),
                                               1.0 / (sampleRate * 2.0)))
    ensures tract.lipOutput == tract.R[N - 1] && tract.noseOutput == tract.noseR[NoseLength - 1]
    ensures -1.0 <= lip1 <= 1.0 && -1.0 <= nose1 <= 1.0
    ensures y == Mix(lip1, nose1, tract.lipOutput, tract.noseOutput)
    ensures -0.5 <= y <= 0.5
  {
    tract.RunStep(glottalOutput, fricativeNoise, lam1, touches, modulator, pow, sampleRate);
    var lip, nose := tract.lipOutput, tract.noseOutput;
    tract.RunStep(glottalOutput, fricativeNoise, lam2, touches, modulator, pow, sampleRate);
    y := Mix(lip, nose, tract.lipOutput, tract.noseOutput);
    lip1, nose1 := lip, nose;
  }

  /** The end of `doScriptProcessor`: the glottis and then the tract take
      their once-per-block step. */
  method EndBlock(glottis: GlottalSource, tract: VocalTract, m: Maths, blockTime: real,
                  alwaysVoice: bool, autoWobble: bool)
    requires glottis.Valid() && tract.Valid() && 0.0 <= blockTime
    requires UnitRange(m.sin) && UnitRange(m.simplex)
    modifies glottis`smoothFrequency, glottis`oldFrequency, glottis`newFrequency, glottis`oldTenseness,
      glottis`newTenseness, glottis`intensity
    modifies tract.diameter, tract.noseDiameter, tract.noseA, tract.A, tract.reflection, tract.newReflection,
      tract`transients, tract`lastObstruction, tract`reflectionLeft, tract`reflectionRight, tract`reflectionNose,
      tract`newReflectionLeft, tract`newReflectionRight, tract`newReflectionNose
    ensures glottis.Valid() && tract.Valid()
    ensures glottis.smoothFrequency == SmoothTowards(old(glottis.smoothFrequency), glottis.uiFrequency)
    ensures glottis.oldFrequency == old(glottis.newFrequency) && glottis.oldTenseness == old(glottis.newTenseness)
    ensures glottis.newFrequency == WithVibrato(glottis.smoothFrequency, Vibrato(glottis.totalTime, autoWobble, m))
    ensures glottis.newTenseness == TargetTenseness(WanderingTenseness(glottis.uiTenseness, glottis.totalTime, m),
      !glottis.isTouched && (alwaysVoice || glottis.isTouchingSomewhere), glottis.uiTenseness, old(glottis.intensity))
    ensures glottis.intensity == IntensityStep(old(glottis.intensity),
      glottis.isTouched || alwaysVoice || glottis.isTouchingSomewhere, blockTime)
    ensures forall i :: 0 <= i < N ==>
      tract.diameter[i] == SegmentStep(old(tract.diameter[i]), tract.targetDiameter[i], i, blockTime * MovementSpeed)
    ensures tract.lastObstruction == LastObstruction(old(tract.diameter[..]))
    ensures tract.transients == old(tract.transients) +
      (if old(tract.lastObstruction) > -1 && tract.lastObstruction == -1 && old(tract.noseA[0]) < TransientNoseThreshold
       then [Transient(old(tract.lastObstruction), 0.0, 0.2, 0.3, 200.0)] else [])
    ensures tract.noseDiameter[0] == VelumStep(old(tract.noseDiameter[0]), tract.velumTarget, blockTime * MovementSpeed)
    ensures tract.noseA[0] == Area(tract.noseDiameter[0])
    ensures forall i :: 1 <= i < NoseLength ==>
      tract.noseDiameter[i] == old(tract.noseDiameter[i]) && tract.noseA[i] == old(tract.noseA[i])
    ensures forall i :: 0 <= i < N ==> tract.A[i] == Area(tract.diameter[i])
    ensures forall i :: 1 <= i < N ==>
      tract.reflection[i] == old(tract.newReflection[i]) &&
      tract.newReflection[i] == ReflectionCoefficient(Area(tract.diameter[i - 1]), Area(tract.diameter[i]))
    ensures ThreePort(tract.reflectionLeft, tract.reflectionRight, tract.reflectionNose) ==
      old(ThreePort(tract.newReflectionLeft, tract.newReflectionRight, tract.newReflectionNose))
    ensures ThreePort(tract.newReflectionLeft, tract.newReflectionRight, tract.newReflectionNose) ==
      NoseJunctionCoefficients(Area(tract.diameter[NoseStart]), Area(tract.diameter[NoseStart + 1]), tract.noseA[0])
  {
    VibratoBounds(glottis.totalTime, autoWobble, m);
    glottis.FinishBlock(blockTime, alwaysVoice, autoWobble, m);
    tract.FinishBlock(blockTime);
  }
}
