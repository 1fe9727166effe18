# Voice orb controller: a verified model

This project models the audio-to-visual core of `VoiceOrbController`, the
controller behind a microphone-driven "voice orb" scene in three.js. Each
animation frame the controller does four things:

- It reads two byte snapshots from a Web Audio analyser: 1024 time-domain
  samples and 512 frequency magnitudes.
- It extracts three features from them: amplitude (RMS), bass energy and
  spectral tilt. Without a live microphone it substitutes a gentle idle
  animation.
- It steps a three-state machine, idle → listening → speaking, whose
  thresholds have hysteresis.
- It maps the features and the state's intensity onto shader uniforms, the
  bloom strength, the particle colour and opacity, and the scene's rotation.

Around the frame loop sit `start` and `stop`, which acquire and release the
microphone and the animation frame.

Modules, one per file:

- `MathUtil` (`math_util.dfy`): `MathUtils.clamp` and the arithmetic facts
  the proofs use.
- `OrbStates` (`orb_states.dfy`): the state machine `updateState` as the
  function `Next`, `getStateIntensity`, and paths of states over a run of
  frames. Hysteresis is proved here: a swing narrower than the falloff
  never makes the state flap.
- `AudioFeatures` (`audio_features.dfy`): the three extractors as functions
  of byte sequences, plus the idle-animation substitutes.
- `RenderMapping` (`render_mapping.dfy`): the affine maps of
  `updateUniforms` and `updateParticles`, with their bounds and
  monotonicity.
- `OrbMaterials` (`orb_materials.dfy`): uniform boxes, the two orb
  materials and the write sequence of `updateUniforms`. This is where the
  sharing of uniform boxes is modelled (see Findings).
- `VoiceOrb` (`voice_orb.dfy`): the class `VoiceOrbController`. Its
  extractors are loops over the buffers, proved against the
  `AudioFeatures` functions. `UpdateState` is proved against `Next`,
  `UpdateUniforms` against `MapUniforms`, `UpdateParticles` against
  `MapParticles`, `Animate` against `Step`, and `Start` and `Stop` against
  `Started`, `Stopped` and `StopReleases`.

Modelling choices:

- Numbers are exact reals, and bytes are integers in [0, 255].
- `Math.sqrt` is a parameter `sqrt` that is trusted to return the exact
  non-negative root (`IsSqrt`). For that reason the amplitude is
  specified through its square.
- Each frame's host inputs are a `FrameInput`:
  - the frame id returned by `requestAnimationFrame`;
  - the clock's delta and elapsed time;
  - the analyser snapshots;
  - the two `Math.sin` values of the idle animation.
- The outcome of the microphone request is an `Acquisition`.
- Resources handed back by `stop` are appended to the log field `released`.
  This makes "releases nothing twice" a statement about state.

## Model

| member | source | states |
|---|---|---|
| MathUtil.Clamp | src/voiceOrbScene.ts:422 | the clamped value lies in [lo, hi], equals x when x already does, and equals the nearer bound otherwise |
| OrbStates.Next | src/voiceOrbScene.ts:456-467 | moves at most one rank; an unchanged rank means an unchanged state; rises exactly when the amplitude exceeds the threshold above; falls exactly when it is below the threshold beneath minus falloff and no rise applies |
| OrbStates.Intensity | src/voiceOrbScene.ts:503-512 | the gain lies in [0.6, 1.4] |
| OrbStates.IntensityOrder | src/voiceOrbScene.ts:503-512 | the gain strictly increases along idle < listening < speaking, in both directions of the iff |
| OrbStates.NextMonotoneInAmplitude | src/voiceOrbScene.ts:456-467 | a louder frame never ends in a lower state |
| OrbStates.NextMonotoneInState | src/voiceOrbScene.ts:456-467 | with falloff >= 0, a higher state stays at least as high after the same frame |
| OrbStates.ReversalNeedsWideSwing | src/voiceOrbScene.ts:456-467 | a rise directly followed by a fall, or the reverse, needs amplitudes more than falloff apart |
| OrbStates.SettlesWithinTwoFrames | src/voiceOrbScene.ts:456-467 | with falloff >= 0, at a constant amplitude the state is fixed after two frames |
| OrbStates.HysteresisBands | src/voiceOrbScene.ts:223-227 | with falloff >= 0 and listening <= speaking, in [listening - falloff, listening] both idle and listening hold, and in [speaking - falloff, speaking] both listening and speaking hold |
| OrbStates.StatePath | src/voiceOrbScene.ts:456-467 | the path has one more state than amplitudes, starts at the initial state and follows Next frame by frame |
| OrbStates.StatePathNoSkips | src/voiceOrbScene.ts:458-465 | consecutive states on any path are adjacent |
| OrbStates.ExtremesSeparatedByListening | src/voiceOrbScene.ts:458-465 | on such a path every passage between idle and speaking goes through listening |
| OrbStates.ConfiguredDipKeepsListening | src/voiceOrbScene.ts:223-227 | with 0.05/0.12/0.02, amplitudes 0.0, 0.06, 0.06, 0.04 from idle give idle, listening, listening, listening |
| OrbStates.RisenPathNeverFalls | src/voiceOrbScene.ts:462-465 | inside a window no wider than falloff, a state safe from falling never falls |
| OrbStates.FallenPathNeverRises | src/voiceOrbScene.ts:458-461 | inside such a window, a state safe from rising never rises |
| OrbStates.NarrowSwingNeverFlaps | src/voiceOrbScene.ts:456-467 | amplitudes confined to a window no wider than falloff give a path that only rises or only falls |
| OrbStates.QuietPathStaysIdle | src/voiceOrbScene.ts:458 | from idle, amplitudes never above the listening threshold keep every state idle |
| AudioFeatures.CenteredSquareBound | src/voiceOrbScene.ts:418 | a sample's squared distance from 128 is at most 128 * 128 |
| AudioFeatures.SquareSum | src/voiceOrbScene.ts:416-420 | the square sum is at most 128 * 128 per sample |
| AudioFeatures.SquareSumStep | src/voiceOrbScene.ts:417-420 | each loop step adds ((b - 128) / 128)^2 to the scaled square sum |
| AudioFeatures.SquareSumZeroIffSilent | src/voiceOrbScene.ts:416-420 | the square sum is zero exactly when every sample is 128 |
| AudioFeatures.MeanSquare | src/voiceOrbScene.ts:416-421 | for a non-empty buffer, the mean of ((b - 128) / 128)^2 lies in [0, 1] and is zero exactly on silence |
| AudioFeatures.LiveAmplitude | src/voiceOrbScene.ts:411-423 | for a non-empty buffer and a true square root, the amplitude lies in [0, 1], its square is the mean square (the clamp never bites), and it is 0 exactly on a buffer of 128s |
| AudioFeatures.Sum | src/voiceOrbScene.ts:431-434 | a sum of magnitudes is at most 255 per bin |
| AudioFeatures.SumStep | src/voiceOrbScene.ts:432-434 | each loop step adds magnitude / 255 to the scaled sum |
| AudioFeatures.SumZeroIffAllZero | src/voiceOrbScene.ts:431-434 | a sum of magnitudes is zero exactly when every bin is zero |
| AudioFeatures.BinCount | src/voiceOrbScene.ts:430 | exactly 1 when len * 0.08 is below 1 (no division by zero), otherwise exactly floor(len * 0.08); at most the length of a non-empty buffer |
| AudioFeatures.BassEnergy | src/voiceOrbScene.ts:425-436 | for a non-empty spectrum, bass lies in [0, 1] and is zero exactly when the bass bins are all zero |
| AudioFeatures.WeightedSumZero | src/voiceOrbScene.ts:443-450 | the weighted sum of bin index times magnitude is zero whenever the plain sum is, so the zero-total guard loses no centroid |
| AudioFeatures.WeightedSumStep | src/voiceOrbScene.ts:445-448 | each loop step adds magnitude / 255 times the bin index to the scaled weighted sum |
| AudioFeatures.WeightedSumBound | src/voiceOrbScene.ts:443-449 | for a non-empty spectrum, the weighted sum is at most (len - 1) times the sum |
| AudioFeatures.Centroid | src/voiceOrbScene.ts:451 | for a non-zero total, the centroid lies in [0, len - 1] |
| AudioFeatures.Tilt | src/voiceOrbScene.ts:438-454 | tilt lies in [-1, 1] and is exactly 0 on an all-zero spectrum |
| AudioFeatures.TiltNeedsNoClamp | src/voiceOrbScene.ts:450-453 | on a non-zero spectrum the clamp never changes the remapped centroid, which stays below 1 |
| AudioFeatures.LiveFeatures | src/voiceOrbScene.ts:400-402 | for non-empty buffers and a true square root, live features are in range; the amplitude's square is the mean square; silence gives amplitude 0; an all-zero spectrum gives bass 0 and tilt 0 |
| AudioFeatures.IdleAmplitude | src/voiceOrbScene.ts:413 | for a sine value in [-1, 1] the idle amplitude lies in [0.01, 0.03] |
| AudioFeatures.IdleTilt | src/voiceOrbScene.ts:440 | for a sine value in [-1, 1] the idle tilt lies in [-0.2, 0.2] |
| AudioFeatures.IdleFeatures | src/voiceOrbScene.ts:411-441 | for sine values in [-1, 1], idle features are in range, the amplitude is at most 0.03 and bass is the constant 0.05 |
| RenderMapping.MapUniforms | src/voiceOrbScene.ts:471-481 | the shell clock runs at 0.8 of the core's, the shell tilt is half the core's, and bloom above its 0.8 base is 0.9 times the core amplitude above its 0.02 floor |
| RenderMapping.UniformsFloor | src/voiceOrbScene.ts:472-481 | core uAmplitude >= 0.02 and bloom strength >= 0.8 for non-negative amplitude and intensity |
| RenderMapping.UniformsInDisplayRange | src/voiceOrbScene.ts:469-481 | for in-range features and gain, every uniform and the bloom strength lie in fixed bounds; bloom lies in [0.8, 2.06] |
| RenderMapping.UniformsMonotone | src/voiceOrbScene.ts:472-481 | for non-negative amplitude and intensity, core amplitude, shell amplitude and bloom never decrease in amplitude or intensity |
| RenderMapping.ShellTrailsCore | src/voiceOrbScene.ts:472-477 | for non-negative amplitude, a rise in intensity moves the shell amplitude by 0.4 times the core's change, never more than the core |
| RenderMapping.Pulse | src/voiceOrbScene.ts:493 | the pulse lies in [1, 1.6] for amplitude in [0, 1] |
| RenderMapping.MapParticles | src/voiceOrbScene.ts:492-500 | the hue shift always lies in [-0.2, 0.2]; for amplitude in [0, 1] the size target lies in [0.035, 0.055], the opacity in [0.4, 1] and the lightness offset in [0, 0.1] |
| RenderMapping.RotationStepBounds | src/voiceOrbScene.ts:493-500 | for amplitude in [0, 1] and delta >= 0, the scene turns by between 0.1 * delta and 0.16 * delta |
| RenderMapping.HueShiftNeedsNoClamp | src/voiceOrbScene.ts:496 | for in-range features the hue clamp never bites: the shift lies in [-0.05, 0.15] |
| RenderMapping.ParticlesMonotone | src/voiceOrbScene.ts:493-500 | with delta >= 0, a louder frame never slows the rotation, shrinks the size target or lowers the opacity |
| OrbMaterials.Uniform.constructor | src/voiceOrbScene.ts:264-267 | a new uniform box holds its initial value |
| OrbMaterials.OrbMaterial.constructor | src/voiceOrbScene.ts:263-277 | a material with four fresh, distinct boxes, all zero |
| OrbMaterials.OrbMaterial.Spread | src/voiceOrbScene.ts:279-284 | a material spread from another holds that material's own boxes |
| OrbMaterials.WriteUniforms | src/voiceOrbScene.ts:471-479 | the shell shows its values; with separate boxes the core shows its own; with shared boxes the core shows the shell's |
| OrbMaterials.SpreadMaterialsFrame | src/voiceOrbScene.ts:263-290 | as written: both materials show the shell's values, so the core clock runs at 0.8 speed and a silent frame drops the core below its 0.02 floor |
| OrbMaterials.SeparateMaterialsFrame | src/voiceOrbScene.ts:469-481 | with separate boxes each material shows its own mapping, and the core keeps the time and the 0.02 floor |
| VoiceOrb.StopReleases | src/voiceOrbScene.ts:326-340 | stop hands back a frame, a source node or a stream exactly when it is held, and exactly one release per held handle |
| VoiceOrb.Stopped | src/voiceOrbScene.ts:326-340 | after stop nothing runs and no handle is held |
| VoiceOrb.StopIdempotent | src/voiceOrbScene.ts:326-340 | stopping twice equals stopping once, and the second stop releases nothing |
| VoiceOrb.Started | src/voiceOrbScene.ts:305-324 | start leaves the controller running; it is a no-op when already running; from quiet, input is live exactly when a source node was made, and a stream is held exactly unless the request failed |
| VoiceOrb.StartThenStopReleasesAcquired | src/voiceOrbScene.ts:305-340 | from quiet (not running, no handle held), a stop after a start hands back the first frame and exactly what the start acquired |
| VoiceOrb.FrameFeatures | src/voiceOrbScene.ts:400-402 | for a well-formed frame and a true square root, a frame's features are in range; on the fallback path bass is 0.05 and amplitude at most 0.03 |
| VoiceOrb.Step | src/voiceOrbScene.ts:403-406 | one frame moves the state at most one rank (corrected wiring, see Findings) |
| VoiceOrb.StepDisplayable | src/voiceOrbScene.ts:469-500 | with delta >= 0, any frame on in-range features leaves every shown parameter in its display range, and the rotation grows by 0.1 to 0.16 times delta (corrected wiring, see Findings) |
| VoiceOrb.LouderStepNeverDimmer | src/voiceOrbScene.ts:403-406 | with delta >= 0 and in-range features, a louder frame never shows a lower state, a dimmer core, a weaker bloom or a slower rotation |
| VoiceOrb.IdleModeNeverRises | src/voiceOrbScene.ts:412-413 | for a well-formed frame (analyser-sized buffers, sine values in [-1, 1], delta >= 0), without a live source the state never rises, and idle stays idle |
| VoiceOrb.IdleAnimationStaysIdle | src/voiceOrbScene.ts:411-413 | for sine values in [-1, 1], an orb with no microphone stays idle over any run of frames |
| VoiceOrb.VoiceOrbController.constructor | src/voiceOrbScene.ts:222-299 | idle, stopped, no handle held, zero uniforms in separate boxes, bloom 0.8, particle opacity 0.6 (corrected wiring, see Findings) |
| VoiceOrb.VoiceOrbController.Start | src/voiceOrbScene.ts:305-324 | the new lifecycle is Started; already running, nothing changes; otherwise input is live exactly when a source node was made, and the first frame is rendered as Step (corrected wiring, see Findings) |
| VoiceOrb.VoiceOrbController.Stop | src/voiceOrbScene.ts:326-340 | the new lifecycle is Stopped, the log grows by StopReleases, and the visuals are untouched |
| VoiceOrb.VoiceOrbController.Animate | src/voiceOrbScene.ts:395-409 | while running, on a well-formed frame, the frame id is recorded, and the visuals become Step of the old visuals on this frame's features (corrected wiring, see Findings) |
| VoiceOrb.VoiceOrbController.ComputeAmplitude | src/voiceOrbScene.ts:411-423 | on a 1024-sample buffer and a true square root, on a live source the loop computes LiveAmplitude: in [0, 1], and 0 exactly on silence; otherwise the idle amplitude |
| VoiceOrb.VoiceOrbController.ComputeBassEnergy | src/voiceOrbScene.ts:425-436 | on a 512-bin spectrum, on a live source the loop computes BassEnergy, zero exactly when the bass bins are; otherwise the constant 0.05 |
| VoiceOrb.VoiceOrbController.ComputeSpectrumTilt | src/voiceOrbScene.ts:438-454 | on a 512-bin spectrum, on a live source the loop computes Tilt: in [-1, 1], and 0 on an all-zero spectrum; otherwise the idle tilt |
| VoiceOrb.VoiceOrbController.UpdateState | src/voiceOrbScene.ts:456-467 | the new state is Next of the old one, at most one rank away |
| VoiceOrb.VoiceOrbController.UpdateUniforms | src/voiceOrbScene.ts:469-482 | both materials and the bloom follow the mapping at the current intensity; the core keeps the 0.02 floor (corrected wiring, see Findings) |
| VoiceOrb.VoiceOrbController.UpdateParticles | src/voiceOrbScene.ts:492-501 | hue, lightness and opacity follow MapParticles, and the rotation grows by its step |

## Left out

- The GLSL shaders, the scene, geometry, lights, renderer and composer set-up, the particle positions drawn with `Math.random`, and the `composer.render()` call. These are GPU and three.js configuration.
- `updateCamera` and the damping of the particle size with `MathUtils.damp` (an exponential). The damping target of the particle size is modelled as `sizeTarget`.
- `offsetHSL`: the particle colour is represented by its HSL offset (hue shift, lightness shift) from the fixed base colour.
- `Math.sqrt` is trusted to return the exact root, and JavaScript doubles are exact reals, so rounding is not modelled. The `Math.sin` values of the idle animation are frame inputs.
- The Web Audio side: `getUserMedia`, `createMediaStreamSource`, `connect`, `AudioContext.resume` and `close`, the analyser's FFT and smoothing, and the `console.error` log. The snapshots and the request's outcome are inputs. The two frequency reads of one frame are taken to return the same snapshot.
- `requestAnimationFrame`, `cancelAnimationFrame` and `Clock`: frame ids, delta and elapsed time are inputs. `Animate` requires a running controller, because only a running controller has a frame scheduled.
- The awaits inside `start`: the model runs `start` in one step. So a `stop`, or a second `start`, that arrives while the microphone request is still pending is not modelled. Nothing in the source guards that window.
- `resize`, the renderer and material parts of `dispose`, the colour uniforms (`uBaseColor`, `uHighlightColor`), the optional width and height, `createVoiceOrbScene`, and src/main.ts. These are pass-throughs to the host or UI wiring.
- VoiceOrb.VoiceOrbController.ComputeAmplitude: states the square of the amplitude only through `LiveAmplitude`'s contract, not in its own `ensures`.

## Findings

| source | as written | input that shows it | evidently intended | confidence | as-written member | corrected member |
|---|---|---|---|---|---|---|
| src/voiceOrbScene.ts:279-284 | The shell material's uniforms are `{ ...orbUniforms, … }`. The spread copies the references to the core's `uTime`, `uAmplitude`, `uBassAmplitude` and `uSpectrumTilt` boxes, and three.js's `ShaderMaterial` keeps the object it is given. `updateUniforms` writes the core's values and then the shell's into the same boxes, so both materials render the shell's values. | Any frame with elapsed time 1.0: the core's `uTime` is 0.8, not 1.0. A silent frame: the core's `uAmplitude` is 0.0, not the 0.02 floor. | Each material has its own boxes, so the core shows `amplitude * intensity + 0.02`, `bass * intensity`, the full tilt and the real time. | high; not executed | OrbMaterials.SpreadMaterialsFrame | OrbMaterials.SeparateMaterialsFrame |

The controller in this model builds the two materials with separate boxes
(`VoiceOrb.VoiceOrbController.constructor`). Its `UpdateUniforms` proves the
intended values and the 0.02 glow floor.
