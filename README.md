# Pink Trombone in Dafny

Pink Trombone is a voice synthesiser. It models the vocal tract as a
Kelly–Lochbaum waveguide: a row of 44 cylindrical segments for the mouth,
with a 28-segment nasal branch at segment 17. A Liljencrants–Fant glottal
source excites the waveguide. Pointers on two canvases play it. On the
tract canvas, the tongue handle sets the rest shape of the mouth. Any
other pointer carves a constriction into the target shape, or opens the
velum when it is below the midline past the nose. On the glottis
keyboard, a pointer sets pitch and tenseness. The audio callback fills a
block of 2048 samples. For each sample it steps the glottis once and the
tract twice. At the end of the block it rotates the per-block parameters,
and it moves the walls of the tract towards their targets.

The project models this core:

- `numeric.dfy` (module `Numeric`): the clamping and movement primitives,
  and the linear interpolation between the previous block and the current
  one.
- `junctions.dfy` (module `Junctions`): the scattering junctions as pure
  functions of areas and incoming waves.
- `touches.dfy` (module `Touches`): a pointer (a `Touch` object that
  several owners hold by reference) and the UI's list of pointers.
- `glottis.dfy` (module `Glottis`): the glottal source as a class whose
  methods update its fields in place.
- `tract.dfy` (module `Tract`): the waveguide as a class over arrays. Each
  method is proved against specification functions on sequences, such as
  `Propagated`, `InjectTransients`, `InjectTurbulence`, `Survivors` and
  `LastObstruction`.
- `tract_ui.dfy` (module `TractUI`): the tongue handle and the
  constriction carving.
- `audio_system.dfy` (module `AudioSystem`): the block callback that ties
  them together.

The source relies on a few functions of the browser: `Math.sin`, `cos`,
`pow`, `sqrt`, the simplex noise, the LF waveform and the canvas geometry
(`getIndex`, `getDiameter`). In the model these are function-typed
parameters. Each comes with the range facts that a caller must supply,
for example that cosine stays within [-1, 1].

Each sample lies a fraction of the way through its block. The source
calls this fraction `lambda`; the model calls it `lam`. The source
interpolates the coefficients of the nose junction as
`new * (1 - lambda) + old * lambda`. This is the reverse of the interior
junctions, which use `old * (1 - lambda) + new * lambda`. The model keeps
the order as written, in `Junctions.Blend`.

## Model

| member | source | states |
|---|---|---|
| Numeric.Clamp | lib/math.ts:1-5 | the result lies in [lo, hi] when lo <= hi; a value already in range is returned unchanged; below lo gives lo, above hi gives hi |
| Numeric.ClampIdempotent | lib/math.ts:1-5 | clamping twice to the same range equals clamping once |
| Numeric.ClampSymmetric | lib/math.ts:1-5 | clamping to [-b, b] yields a value of magnitude at most b, and leaves a value of magnitude at most b unchanged |
| Numeric.MoveTowards | lib/math.ts:7-10 | the result lies between current and target; it moves up by at most amountUp and down by at most amountDown; it stays put when current equals target |
| Numeric.MoveTowardsReaches | lib/math.ts:7-10 | when the target is within one step, the target is reached exactly |
| Numeric.Interpolate | lib/Tract.ts:208-209 | lambda 0 gives the previous value, lambda 1 gives the current one, and every lambda in between gives a value between the two |
| Junctions.AreaRatio | lib/Tract.ts:168-169 | the ratio (a-b)/(a+b) of two non-negative areas lies in [-1, 1]; it is 0 exactly when the areas are equal, positive exactly when the tube narrows, 1 exactly when the right area is 0 and -1 exactly when the left area is 0 |
| Junctions.AreaRatioAntisymmetric | lib/Tract.ts:168-169 | swapping the two areas negates the coefficient |
| Junctions.ReflectionCoefficient | lib/Tract.ts:165-169 | a closed right segment gives 0.999; otherwise the coefficient is 0 exactly when the areas are equal and positive exactly when the tube narrows, and it always lies in [-1, 1] |
| Junctions.Scatter | lib/Tract.ts:207-213 | a two-port junction conserves the sum of the waves; with coefficient 0 both waves pass through; what one wave loses the other gains |
| Junctions.EqualAreasTransparent | lib/Tract.ts:163-170 | a junction between equal areas lets both waves through unchanged |
| Junctions.PortCoefficient | lib/Tract.ts:179-181 | a port of the three-way junction gets a coefficient in [-1, 1], and a closed port gets -1 |
| Junctions.NoseJunctionCoefficients | lib/Tract.ts:177-181 | the three coefficients sum to -1, each lies in [-1, 1], and a closed velum gives the nose -1 |
| Junctions.PortCoefficientsSum | lib/Tract.ts:177-181 | (2a - s)/s summed over the three ports is -1 |
| Junctions.Blend | lib/Tract.ts:217-224 | blending two coefficient sets that both sum to -1 keeps the sum at -1; lambda 0 gives the new set and lambda 1 the old one, as the source orders them |
| Junctions.ThreePortScatter | lib/Tract.ts:216-226 | the outgoing waves sum to (2 + the coefficient sum) times the incoming sum, so the junction conserves the sum when the coefficients sum to -1 |
| Junctions.ClosedNoseIsTwoPort | lib/Tract.ts:216-226 | with the velum closed (nose area 0) the three-way junction sends nothing into the nose and acts as a two-port junction between the mouth segments |
| Touches.Touch.constructor | lib/UI.ts:255-265 | a new touch is alive, starts now, has end time 0 and fricative intensity 0, and stores its id, position, index and diameter |
| Touches.FricativeIntensity | lib/UI.ts:378-390 | the intensity lies in [0, 1]; a live touch ramps up to 1 over 0.1 s from its start and a released touch falls to 0 over 0.1 s from its end |
| Touches.Expirations | lib/UI.ts:376 | marks, element by element, which touches are released and more than a second past their end |
| Touches.Intensities | lib/UI.ts:378-390 | gives, element by element, each touch's fricative intensity at the given time |
| Touches.UnexpiredAppend | lib/UI.ts:374-377 | dropping the expired touches distributes over concatenation |
| Touches.KeptAppend | lib/UI.ts:374-377 | the list that survives the sweep distributes over concatenation |
| Touches.UnexpiredExactly | lib/UI.ts:374-377 | a touch survives exactly when it occurs at a position not marked expired |
| Touches.KeptExactly | lib/UI.ts:374-377 | a touch is kept exactly when it was in the list and has not expired |
| Touches.SpliceStep | lib/UI.ts:374-377 | one step of the backwards splice loop turns the list after position j+1 into the list after position j |
| Touches.TouchTracker.constructor | lib/UI.ts:255-266 | the UI starts with no touches |
| Touches.TouchTracker.AddTouch | lib/UI.ts:266 | a new touch is appended at the end of the list |
| Touches.TouchTracker.GetTouchById | lib/UI.ts:273-279 | null exactly when no live touch has the id; otherwise a live touch with that id that is in the list, namely the first one |
| Touches.TouchTracker.EndTouches | lib/UI.ts:295-303 | every live touch whose id is among the released ones becomes not alive with end time now; no other touch changes; the list is unchanged |
| Touches.TouchTracker.UpdateTouches | lib/UI.ts:372-392 | the new list is exactly the old list without the expired touches, in order; every survivor's fricative intensity is its value at the given time |
| Touches.TouchTracker.UpdateTouchAt | lib/UI.ts:375-390 | an expired touch is spliced out and left unchanged; otherwise the list is kept and the touch gets its intensity |
| Glottis.ShapeRd | lib/Glottis.ts:327-329 | the Rd used for the wave shape lies in [0.5, 2.7], and an Rd already in range is used unchanged |
| Glottis.ShapeRdIsClamp | lib/Glottis.ts:327-329 | the two sequential guards are the clamp of Rd to [0.5, 2.7] |
| Glottis.Rd | lib/Glottis.ts:324 | a tenseness in [0, 1] gives Rd in [0, 3], and full tenseness gives 0 |
| Glottis.Voiced | lib/Glottis.ts:268-274 | the voiced factor lies in [0.1, 0.3] and is 0.1 in the closed half of the period |
| Glottis.NoiseModulator | lib/Glottis.ts:267-280 | the modulator lies in [0.1, 0.3]; it is 0.3 when tenseness or intensity is 0 and equals the voiced factor at full tenseness and intensity |
| Glottis.SmoothTowards | lib/Glottis.ts:293-302 | the smoothed pitch moves towards the UI pitch, by at most a factor of 1.1 per block, without overshoot; it stays put exactly when it already matches |
| Glottis.SmoothReaches | lib/Glottis.ts:293-302 | a target within a factor of 1.1 is reached in one block |
| Glottis.VibratoBounds | lib/Glottis.ts:283-292 | the vibrato stays within ±0.065, or within ±0.665 when auto-wobble is on, so the pitch stays positive |
| Glottis.WithVibrato | lib/Glottis.ts:304 | a positive pitch with vibrato above -1 stays positive, and zero vibrato leaves it unchanged |
| Glottis.TargetTenseness | lib/Glottis.ts:306-311 | without the lift, or at full intensity, the target is the wandering UI tenseness; with the lift it rises by at most 3 minus the UI tenseness |
| Glottis.IntensityStep | lib/Glottis.ts:313-316 | the intensity stays in [0, 1]; a voiced block raises it by exactly 0.13, stopping at 1; an unvoiced block lowers it by exactly 5 · blockTime, stopping at 0 |
| Glottis.VoiceClimbs | lib/Glottis.ts:313-316 | k voiced blocks raise the intensity by at least 0.13 k, up to 1, and from an intensity in [0, 1] leave exactly min(1, intensity + 0.13 k) |
| Glottis.EightBlocksToFullVoice | lib/Glottis.ts:313-316 | from silence, eight voiced blocks reach full intensity |
| Glottis.SilentFallIsLinear | lib/Glottis.ts:313-316 | k unvoiced blocks of blockTime seconds add up to a fall of 5 · blockTime · k |
| Glottis.SilenceTracksFall | lib/Glottis.ts:313-316 | after k unvoiced blocks the intensity is its start minus the fall so far, or 0 once that fall exceeds it |
| Glottis.SilenceFalls | lib/Glottis.ts:313-316 | k unvoiced blocks leave exactly max(0, intensity − 5 · blockTime · k) |
| Glottis.SilenceReachesZero | lib/Glottis.ts:313-316 | once 5 · blockTime · k covers the intensity, k unvoiced blocks silence the voice completely |
| Glottis.KeyboardRow | lib/Glottis.ts:230-232 | the row on the keyboard is clamped to [0, height - 26] |
| Glottis.KeyboardFrequency | lib/Glottis.ts:233-234 | the frequency picked on the keyboard is positive |
| Glottis.KeyboardTenseness | lib/Glottis.ts:237-238 | the tenseness picked on the keyboard lies in [0, 1] |
| Glottis.LastOnKeyboard | lib/Glottis.ts:218-226 | the index picked is the last live touch on the keyboard among the first n, or -1 when there is none |
| Glottis.AnyAlive | lib/Glottis.ts:219-222 | true exactly when one of the first n touches is alive |
| Glottis.GlottalSource.constructor | lib/Glottis.ts:54-94 | the initial pitch is 140 Hz, the tenseness 0.6, the intensity 0 and the loudness 1; nothing is touched and the marker sits at (240, 530); the first period lasts 1/140 s with the shape of Rd(0.6) |
| Glottis.GlottalSource.NoiseGain | lib/Glottis.ts:267-280 | the noise modulator of the current state lies in [0.1, 0.3] |
| Glottis.GlottalSource.SetupWaveform | lib/Glottis.ts:319-372 | frequency and tenseness are interpolated between the old and new block values; the period is 1/frequency; Rd is 3(1 - tenseness); the shape is derived from Rd clamped to [0.5, 2.7] |
| Glottis.GlottalSource.RunStep | lib/Glottis.ts:246-265 | time advances by one sample; when the period is over it restarts with a new waveform; the output is the LF sample plus modulated aspiration noise; the state stays valid |
| Glottis.GlottalSource.NextPeriod | lib/Glottis.ts:250-253 | the position in the waveform wraps back by one period, and the waveform is set up anew |
| Glottis.GlottalSource.FinishBlock | lib/Glottis.ts:282-317 | the pitch is smoothed, the old values take the new ones, the new pitch carries the vibrato, the new tenseness is the target tenseness, and the intensity takes one step |
| Glottis.GlottalSource.RotatePitch | lib/Glottis.ts:303-304 | the old pitch takes the new one, and the new pitch is the smoothed pitch with vibrato |
| Glottis.GlottalSource.RotateTenseness | lib/Glottis.ts:305-316 | the old tenseness takes the new one; the new tenseness is the target; the intensity takes one step |
| Glottis.GlottalSource.SmoothPitch | lib/Glottis.ts:293-302 | the smoothed pitch takes one step towards the UI pitch |
| Glottis.GlottalSource.HandleTouches | lib/Glottis.ts:212-244 | a released touch is dropped; with no touch, the last live touch on the keyboard is taken; a held touch sets pitch, tenseness, loudness and the marker position from its place on the keyboard; the touched flags say whether a touch is held or any touch is alive |
| Glottis.GlottalSource.SelectTouch | lib/Glottis.ts:213-226 | keeps a live touch, and otherwise picks the last live keyboard touch; it records whether it saw any live touch |
| Glottis.GlottalSource.FollowTouch | lib/Glottis.ts:228-242 | pitch, tenseness and loudness follow the held touch; the smoothed pitch jumps only when silent |
| Tract.ClickGainNext | lib/Tract.ts:289-296 | one more transient adds its half amplitude at its own segment and nowhere else |
| Tract.ClickGainElsewhere | lib/Tract.ts:289-296 | a segment that no transient sits on gets no click |
| Tract.InjectTransients | lib/Tract.ts:289-296 | injecting transients keeps the waves well sized |
| Tract.InjectTransientsLocal | lib/Tract.ts:289-296 | each mouth segment gains exactly the click gain in both directions; the nose is untouched |
| Tract.Thinness | lib/Tract.ts:328 | the thinness factor lies in [0, 1]: 0 from diameter 0.7 up, 1 at 0.575 and below |
| Tract.Openness | lib/Tract.ts:329 | the openness factor lies in [0, 1]: 0 at diameter 0.3 and below, 1 from 0.3 + 1/30 up |
| Tract.TurbulenceNeedsNarrowOpening | lib/Tract.ts:325-335 | a closed (diameter <= 0.3) or wide (>= 0.7) constriction makes no noise anywhere |
| Tract.TurbulenceSplits | lib/Tract.ts:325-335 | the noise goes to the two segments after the constriction, split by the fractional part of its index, and the two shares sum to the whole |
| Tract.TurbulencePastLipsDropped | lib/Tract.ts:332-335 | a constriction at segment N-2 puts its first share on the last segment and drops the second, which would land past the lips |
| Tract.Constrictions | lib/Tract.ts:306-316 | one constriction per touch; a touch outside segments 2..N, closed, or with zero intensity makes none; otherwise the noise is scaled by 0.66 times its intensity |
| Tract.TurbulenceGainNext | lib/Tract.ts:305-318 | one more constriction adds its noise to exactly its two segments |
| Tract.TurbulenceGainQuiet | lib/Tract.ts:305-318 | a segment near no constriction gets no noise |
| Tract.InjectTurbulence | lib/Tract.ts:305-318 | injecting turbulence keeps the waves well sized |
| Tract.InjectTurbulenceLocal | lib/Tract.ts:305-318 | each mouth segment gains exactly its turbulence gain in both directions; the nose is untouched |
| Tract.Emit | lib/Tract.ts:232-233 | the stored wave lies in [-1, 1], and equals the damped wave whenever that is in range |
| Tract.Propagated | lib/Tract.ts:203-269 | one propagation step yields well-sized waves that all lie in [-1, 1] |
| Tract.JunctionsConserve | lib/Tract.ts:207-226 | every interior junction of the mouth and of the nose conserves the sum of its waves, and so does the three-way junction once both coefficient sets sum to -1 |
| Tract.Area | lib/Tract.ts:161 | areas are non-negative, and positive for a non-zero diameter |
| Tract.SlowReturn | lib/Tract.ts:127-132 | the slow-return factor lies in [0.6, 1] |
| Tract.SlowReturnMonotone | lib/Tract.ts:127-132 | the factor does not decrease towards the lips |
| Tract.SegmentStep | lib/Tract.ts:133-138 | a wall moves towards its target without overshoot: opening by at most one step, closing by at most two |
| Tract.SegmentStepReaches | lib/Tract.ts:133-138 | a target within one step is reached exactly |
| Tract.VelumStep | lib/Tract.ts:149-155 | the velum moves towards its target without overshoot, opening by at most a quarter step and closing by at most a tenth, and stays open if both ends are open |
| Tract.LastObstruction | lib/Tract.ts:122-126 | the last closed segment, or -1 when every segment is open |
| Tract.InitialDiameter | lib/Tract.ts:69-79 | every initial diameter is 0.6, 1.1 or 1.5: 0.6 exactly for segments below 7N/44 − 0.5, 1.5 exactly from 12N/44 on, 1.1 in between |
| Tract.InitialDiameterWidens | lib/Tract.ts:69-79 | the initial mouth widens from the glottis to the lips |
| Tract.NoseProfile | lib/Tract.ts:99-106 | the nasal diameters lie in [0.4, 1.9] |
| Tract.Older | lib/Tract.ts:295 | ageing a transient advances its time alive and changes nothing else |
| Tract.Aged | lib/Tract.ts:289-296 | ageing keeps the number of transients |
| Tract.Survivors | lib/Tract.ts:297-302 | the sweep never adds transients |
| Tract.SurvivorsAppend | lib/Tract.ts:297-302 | the sweep distributes over concatenation |
| Tract.SurvivorsExactly | lib/Tract.ts:297-302 | a transient survives exactly when its time alive is within its lifetime |
| Tract.VocalTract.constructor | lib/Tract.ts:47-118 | silent waves, no transients and no obstruction; the initial mouth profile as current, rest and target shape; the nose profile with the velum at 0.01; the first nose coefficient is -1 because the nose was still closed when it was computed; a valid state |
| Tract.VocalTract.InitialCoefficients | lib/Tract.ts:107-117 | the coefficients are computed from the initial shape while the nose is still closed, then the velum is set to 0.01, giving a valid state |
| Tract.VocalTract.CalculateReflections | lib/Tract.ts:159-182 | the areas are the squared diameters; every interior coefficient shifts to the old set and gets the coefficient of its two areas; the three-way junction does the same with coefficients that sum to -1 |
| Tract.VocalTract.ComputeAreas | lib/Tract.ts:160-162 | each area is its squared diameter |
| Tract.VocalTract.ShiftInteriorReflections | lib/Tract.ts:163-170 | every interior coefficient shifts to the old set and gets the coefficient of its two areas; the end coefficients are kept |
| Tract.VocalTract.CalculateNoseReflections | lib/Tract.ts:184-193 | the nasal areas are the squared diameters, and each nasal coefficient is the area ratio of its neighbours |
| Tract.VocalTract.ComputeNoseAreas | lib/Tract.ts:185-187 | each nasal area is its squared diameter |
| Tract.VocalTract.AddTransient | lib/Tract.ts:277-286 | appends a transient at the position, with lifetime 0.2, strength 0.3 and exponent 200 |
| Tract.VocalTract.ReshapeTract | lib/Tract.ts:120-157 | each wall takes one segment step; the last obstruction is read from the old walls; a click is added exactly when an obstruction opens while the velum is nearly shut; the velum takes one step and its area follows |
| Tract.VocalTract.MoveWalls | lib/Tract.ts:123-139 | each wall takes one segment step, and the last obstruction is found in the old walls |
| Tract.VocalTract.ProcessTransients | lib/Tract.ts:288-303 | the waves gain the clicks of the old transients; the transients become the aged survivors; every survivor sits on a segment |
| Tract.VocalTract.SoundTransient | lib/Tract.ts:290-295 | one transient adds its half amplitude at its segment and ages |
| Tract.VocalTract.SoundTransients | lib/Tract.ts:289-296 | the waves gain every click, and every transient ages by dt |
| Tract.VocalTract.RemoveExpiredTransients | lib/Tract.ts:297-302 | the transients become exactly the survivors, in order |
| Tract.VocalTract.AddTurbulenceNoiseAtIndex | lib/Tract.ts:320-336 | each mouth segment gains its share of the noise in both directions; writes past the end are dropped |
| Tract.VocalTract.AddTurbulenceNoise | lib/Tract.ts:305-318 | the waves become the old waves with the turbulence of every touch injected |
| Tract.VocalTract.MouthJunctions | lib/Tract.ts:203-226 | every outgoing mouth wave, and the wave sent into the nose, is that of the specification, computed from the current waves |
| Tract.VocalTract.InteriorMouthJunctions | lib/Tract.ts:207-213 | every interior junction's outgoing waves are those of the specification |
| Tract.VocalTract.NoseJunctions | lib/Tract.ts:245-252 | every outgoing nasal wave is that of the specification |
| Tract.VocalTract.EmitInto | lib/Tract.ts:228-233 | each segment stores the emitted wave entering it from either side |
| Tract.VocalTract.PropagateMouth | lib/Tract.ts:203-242 | the mouth waves become those of the propagated specification; the lip output is the last right-going wave |
| Tract.VocalTract.PropagateNose | lib/Tract.ts:244-269 | the nasal waves become those of the propagated specification; the nose output is the last right-going nasal wave |
| Tract.VocalTract.Propagate | lib/Tract.ts:203-269 | the waves become the propagated specification of the old waves and coefficients, and the outputs are read off |
| Tract.VocalTract.Excite | lib/Tract.ts:199-200 | the waves gain the clicks and then the turbulence, and the transients become the aged survivors |
| Tract.VocalTract.RunStep | lib/Tract.ts:195-270 | the waves become the excited waves propagated; the transients are the aged survivors; all waves and both outputs lie in [-1, 1] |
| Tract.VocalTract.FinishBlock | lib/Tract.ts:272-275 | the walls take one step towards their targets and the velum one step towards its target, with the nose's first area recomputed and the rest of the nose unchanged; a click is queued exactly when the last obstruction opens with the velum nearly closed; the areas are recomputed, the coefficients shift, and the new ones (the mouth's and the nose junction's) are those of the new walls |
| TractUI.Placements | lib/TractUI.ts:518-521 | every touch's index and diameter are recomputed from its position |
| TractUI.Round | lib/TractUI.ts:592 | rounding lands within half a unit of its argument |
| TractUI.Ceil | lib/TractUI.ts:593 | the ceiling is the least integer not below its argument |
| TractUI.LastGrab | lib/TractUI.ts:513-531 | the last touch among the first n that can grab the tongue, or -1 |
| TractUI.FromPoint | lib/TractUI.ts:538-543 | the reach factor lies in [0, 1.05] |
| TractUI.TongueIndex | lib/TractUI.ts:550-558 | the tongue index is clamped to within the reach of the centre, and an index already in reach is kept |
| TractUI.TongueWithinReach | lib/TractUI.ts:538-558 | the tongue index never strays more than 8.925 segments from the centre |
| TractUI.RestDiameterBounds | lib/TractUI.ts:496-507 | the rest diameter of the blade lies in [0.3, 2.7] |
| TractUI.ConstrictionWidth | lib/TractUI.ts:582-585 | the width lies in [5, 10]: 10 before segment 25 and 5 from the tip on |
| TractUI.WidthNarrowsTowardsLips | lib/TractUI.ts:582-585 | the width does not grow towards the lips |
| TractUI.Shrink | lib/TractUI.ts:597-600 | no shrink at the centre, full shrink beyond the width, and a fraction in between |
| TractUI.Carve | lib/TractUI.ts:601-605 | a carved target lies between the constriction and the old target, and is never raised |
| TractUI.WindowCoversConstriction | lib/TractUI.ts:592-594 | the loop window reaches every segment that the constriction shapes |
| TractUI.IdleTouch | lib/TractUI.ts:579-591 | a touch that is dead, too deep or off the tract leaves the target alone |
| TractUI.CarvingLowers | lib/TractUI.ts:567-608 | carving never raises a target, and never makes a non-negative one negative |
| TractUI.AnyOpensNose | lib/TractUI.ts:566-576 | true exactly when some live touch is past the nose and below the midline |
| TractUI.TongueControl.constructor | lib/TractUI.ts:37-64 | the tongue starts at index 12.9 and diameter 2.43 with no touch; the blade's rest shape is set from it; the tract's current and target shapes equal the rest shape |
| TractUI.TongueControl.SetRestDiameter | lib/TractUI.ts:496-507 | each blade segment gets the rest diameter of the tongue position, and the other segments are kept |
| TractUI.TongueControl.HandleTouches | lib/TractUI.ts:509-609 | the tongue touch is kept while alive or else the last grabbing touch; it moves the tongue within reach; the targets are the rest shape with every touch carved in; the velum opens exactly when a touch opens the nose |
| TractUI.TongueControl.MoveTongue | lib/TractUI.ts:510-559 | the tongue touch is selected, and it moves the tongue or leaves it where it was |
| TractUI.TongueControl.ReshapeTargets | lib/TractUI.ts:561-608 | the targets become the rest shape with every touch carved in, and the velum target is 0.4 or 0.01 |
| TractUI.TongueControl.SelectTongueTouch | lib/TractUI.ts:513-531 | the touch is the last grabbing touch |
| TractUI.TongueControl.FollowTongue | lib/TractUI.ts:533-559 | the tongue diameter is clamped to the handle's ring and the index to its reach |
| TractUI.TongueControl.Constrict | lib/TractUI.ts:565-608 | each target is carved by every touch in list order, and the velum target reflects whether any touch opens the nose |
| TractUI.TongueControl.CarveConstriction | lib/TractUI.ts:586-607 | each segment in the window is carved by the constriction, and the others are kept |
| TractUI.TongueControl.CarveAt | lib/TractUI.ts:594-605 | one segment is carved and no other changes |
| AudioSystem.BlockTime | lib/AudioSystem.ts:23 | a block lasts a positive time, exactly 2048 samples |
| AudioSystem.ClockIsLinear | lib/AudioSystem.ts:74-93 | counting samples one by one advances the clock by samples / sampleRate |
| AudioSystem.SampleFractions | lib/AudioSystem.ts:79-80 | both lambdas of a sample are fractions of the block, and the half-sample one comes later |
| AudioSystem.Mix | lib/AudioSystem.ts:89 | the output is an eighth of the four tract outputs, so bounded outputs give a sample in [-0.5, 0.5], and silence gives silence |
| AudioSystem.AudioEngine.constructor | lib/AudioSystem.ts:14-24 | blocks are 2048 samples long and blockTime times the sample rate is 2048 |
| AudioSystem.AudioEngine.DoScriptProcessor | lib/AudioSystem.ts:74-93 | every output sample lies in [-0.5, 0.5]; the glottis clock advances by one block; the per-block values rotate; glottis and tract stay valid |
| AudioSystem.FillBlock | lib/AudioSystem.ts:78-90 | the whole block is filled with samples in [-0.5, 0.5], and the clock advances one sample per entry |
| AudioSystem.WriteSample | lib/AudioSystem.ts:79-89 | one sample is stored at index j in [-0.5, 0.5], every other entry of the output is unchanged, and the clock advances by one sample |
| AudioSystem.Sample | lib/AudioSystem.ts:79-89 | the glottis takes one step at j/n, starting a new period at that interpolation point when the old one is over, and the clock advances by one sample; the tract's transients age twice by half a sample, the expired ones dropped each time; the sample is the mix of the first tract step's outputs and the final lip and nose outputs, and lies in [-0.5, 0.5] |
| AudioSystem.TractSample | lib/AudioSystem.ts:85-89 | the sample is the mix of the first step's lip and nose outputs (each in [-1, 1]) and the second step's, so it lies in [-0.5, 0.5]; the transients age twice by half a sample, the expired ones dropped each time |
| AudioSystem.EndBlock | lib/AudioSystem.ts:91-92 | the glottis's block step (pitch smoothing, vibrato, tenseness, intensity, rotation) and then the tract's (walls, velum, click, areas, coefficients), each as its own contract states |

## Left out

- The Liljencrants–Fant derivation of the waveform (`setupWaveform` after the clamp of Rd, and `normalizedLFWaveform`) is a parameter `lf`. The model states which Rd it receives, not the waveform it computes.
- `Math.sin`, `Math.cos`, `Math.pow`, `Math.sqrt`, the simplex noise and the canvas geometry (`getIndex`, `getDiameter`) are function parameters, because they are transcendental or call into the browser. Their ranges are stated as preconditions.
- Drawing, the DOM and Web Audio are not modelled: canvases, buttons, `startSound`, muting, and the noise buffers and filters of `AudioSystem`. The two noise inputs of the callback are its parameters.
- `maxAmplitude` and `noseMaxAmplitude` are left out. They only drive the drawing, and they are sampled at random through `Math.random`.
- `newDiameter` is never read after it is set, so it is left out.
- Arithmetic is on exact reals. IEEE rounding, NaN and infinities are not modelled.
- The source keeps module-level state (`sampleRate`, `time`, `alwaysVoice`, `autoWobble`, the UI touch list). The model passes these explicitly.
- The junction scratch arrays of the tract are fresh local arrays. The source rewrites them fully before it reads them in every step.
- Tract.VocalTract.AddTurbulenceNoiseAtIndex: for an index of N-2 or more the source writes to R and L past segment N-1. A `Float64Array` ignores writes past its end, so the guarded writes of the model do exactly what the source does.
- Tract.VocalTract.constructor: the source computes the first three-way coefficients while the nasal areas are still zero. The model reproduces this, so the first nose coefficient is -1.
- TractUI.TongueControl.SetRestDiameter: the test `i == bladeStart - 2` can never hold inside the loop, which starts at bladeStart. The model keeps it as written.
- `src/main.ts` is a copy of the library wiring and is not modelled separately.
- Glottis.GlottalSource.FinishBlock: the requirement that the vibrato stays above -1 is supplied by the caller through `Glottis.VibratoBounds`.
- AudioSystem.AudioEngine.DoScriptProcessor: the contract bounds each output sample and states the clock and the rotations. It does not state each sample's exact value or the tract's transients after the block; those are stated one step at a time by `Tract.VocalTract.RunStep` and `Glottis.GlottalSource.RunStep`.
- AudioSystem.TractSample: the waves after each of the two steps are stated by `Tract.VocalTract.RunStep` and are not restated here; the contract names the first step's outputs and the final outputs that make up the sample.
- AudioSystem.Sample: as for TractSample, the tract's waves are left to `Tract.VocalTract.RunStep`, and of the glottis's new waveform only the period, pitch and Rd are restated.
- AudioSystem.FillBlock: the contract bounds every sample and states the clock; it does not chain the per-sample states through the loop, so it does not give each sample's exact value. The loop body is `AudioSystem.WriteSample`, which stores one sample from `AudioSystem.Sample` and restates only its bound and the clock.
- `Math.gaussian` and `moveTouches` lie outside the audio core and are not modelled.
