# Gesture-Flow control layer in Dafny

Gesture-Flow draws a cloud of particles that morphs between five shapes:
heart, flower, saturn, scan and fireworks. Hand gestures seen through the
camera steer it. This project models the layer between the hand detector
and the GPU:

- **Store** (`store.dfy`, from `store.ts`). The application store is a class
  `AppStore` with the store's fields. Its actions are methods:
  - `setShape` and `completeMorph` run the Idle/Morphing state machine;
  - `triggerScatter` adds to the scatter intensity, capped at 2.0;
  - `triggerHole` appends a time-stamped hole;
  - `updateEffects` is the per-frame step that decays the scatter value and
    drops holes older than 2.5 s;
  - the rest are the mode setter, `setConfig`, `setHandState` and the toggles.

  The arithmetic inside the actions is pure functions: `CappedScatter`,
  `Decayed` and `LiveHoles`. Lemmas about them cover geometric decay,
  reaching zero in bounded time, and the order and lifetime of the hole
  filter.
- **Gesture recognition** (`vision.dfy`, from `services/visionService.ts`).
  The module-level accumulators of `detectHands` are the fields of the class
  `GestureTracker`, and `DetectHands` performs one call. It covers:
  - throttling;
  - pinch, spread, palm centre and roll from the landmarks, with the
    fingertip loop as a `while` loop;
  - outlier-rejecting centre smoothing and velocity smoothing;
  - the wave trigger and the flick debouncer;
  - the lost-hand edge.

  `DetectHands` is proved against the value-level specification
  `DetectStep`, and the store update it causes is `ApplyStep`. Properties
  are stated on `DetectStep`.
- **Frame loop** (`particles.dfy`, from `components/Particles.tsx`). The
  material uniforms and the mesh rotation are the class `ParticleView`. The
  two hole uniform buffers are arrays. `Frame` is the `useFrame` callback:
  - it blends into scan mode;
  - it runs `updateEffects` and then reads scatter and holes;
  - it packs the holes into five slots;
  - it advances and clamps the morph, calling `completeMorph`;
  - it eases pinch, spread and rotation.

  `SyncTargetShape` is the effect that resets the morph when the target
  shape changes.
- **Buffer generator** (`shapes.dfy`, from `utils/shapes.ts`).
  `GenerateParticles` fills a zeroed array of `3 * count` reals, one
  triple per particle. The scan grid is modelled exactly. The random
  shapes take their draws and the library math as parameters.

Shared pieces:

- `numeric.dfy`: `lerp`, `Math.min` and `Math.max`, clamp, and a square-root
  specification.
- `types.dfy`: the value types of `types.ts`, and the object spread used by
  `setHandState` and `setConfig`.

Numbers are exact reals, and every constant of the source is an exact
decimal. Library functions are parameters: `Math.sqrt`, `Math.atan2`,
`Math.sin`, `Math.cos`, `Math.cbrt`, `Math.acos`, `Math.PI`, and the two
fixed quaternion tilts. So are the clock readings, the `Math.random()`
hole ids and the per-particle random draws.

Three behaviours of the code are easy to misread:

- Outlier rejection uses the slow factor 0.01 only when the distance is
  strictly greater than 0.3, and only when the previous centre's x is
  non-zero (`services/visionService.ts:129`).
- The velocity is the distance from the new raw centre to the previous
  smoothed centre, not the movement of the smoothed centre
  (`services/visionService.ts:123-142`).
- One-hand spread is `0.5 + avgTipDist * 2`, which has no upper cap; only
  two-hand spread is clamped to [0.5, 2.5] (`services/visionService.ts:110-119`).

## Model

| member | source | states |
|---|---|---|
| Numeric.Min | store.ts:74 | `Math.min` returns one of its arguments, and that argument is at most both |
| Numeric.Max | services/visionService.ts:82 | `Math.max` returns one of its arguments, and that argument is at least both |
| Numeric.Clamp | services/visionService.ts:82 | `max(lo, min(hi, x))` lies in [lo, hi]; it is `x` inside the range, `lo` below it and `hi` above it |
| Numeric.LerpStep | services/visionService.ts:41 | `lerp(a, b, t)` moves `a` by exactly the fraction `t` of the gap `b - a` |
| Numeric.LerpOnSegment | services/visionService.ts:41 | for `t` in [0, 1], `lerp` lies between its two end points |
| Numeric.LerpStaysIn | services/visionService.ts:41 | lerping inside an interval by a fraction in [0, 1] stays inside it |
| Types.MergeFullPatch | store.ts:56 | merging a patch that names every hand field replaces the whole hand state |
| Types.MergeLostPatch | services/visionService.ts:192 | the lost-hand patch clears `detected` and `velocity` and keeps pinch, spread, centre and rotation |
| Store.CappedScatter | store.ts:71-75 | the new intensity is at most 2. It is `old + intensity` while that is at most 2, and exactly 2 beyond. It does not fall for a non-negative trigger, and it stays non-negative |
| Store.Decayed | store.ts:86-91 | a non-positive value is kept. A positive value drops strictly, and becomes 0 exactly when `s * 0.92 < 0.01`; otherwise it becomes `s * 0.92`, which is at least 0.01. The result stays in [0, s] |
| Store.DecayedTimesBounds | store.ts:86-91 | repeated decay is non-increasing and never negative |
| Store.DecayedTimesGeometric | store.ts:86-91 | after k frames the value is at most `s * 0.92^k` |
| Store.PowBernoulli | store.ts:89 | `0.92^k` is positive and at most `1 / (1 + 0.08 k)` |
| Store.DecayedTimesSnaps | store.ts:90 | once `s * 0.92^k` is below 0.01, the decayed value is exactly 0 |
| Store.DecayHorizon | store.ts:86-91 | the frame bound `floor(1250 s) + 1` is at least 1 and exceeds `1250 s` |
| Store.DecayReachesZero | store.ts:86-91 | every non-negative scatter value is exactly 0 after `DecayHorizon(s)` frames, and stays 0 afterwards |
| Store.LiveHoles | store.ts:94 | the hole filter never lengthens the list |
| Store.LiveHolesAppend | store.ts:94 | the filter distributes over concatenation, so it keeps the original order |
| Store.LiveHolesMembers | store.ts:94 | a hole survives exactly when it was in the list and `now - timestamp < 2.5` |
| Store.LiveHolesAllAlive | store.ts:94 | every surviving hole is younger than 2.5 s |
| Store.LiveHolesKeepsAll | store.ts:97 | a filter that drops nothing returns the same list, so skipping the write loses nothing |
| Store.HoleLifetimeWindow | store.ts:94 | a hole stamped `t` is kept for `now < t + 2.5` and dropped for `now >= t + 2.5`, whatever surrounds it |
| Store.AppStore.constructor | store.ts:5-38 | the initial store: saturn, high mode, 12000 particles, gold colour, no hand, scatter, holes and pinch enabled, idle, no scatter, no holes |
| Store.AppStore.SetPerformanceMode | store.ts:41-48 | sets the mode and a particle count of 4000 for saver or 12000 for high; size, noise and colour are kept |
| Store.AppStore.SetShape | store.ts:51-54 | the current shape changes nothing. Another shape sets the target, `isMorphing` and progress 0 and keeps the current shape, even mid-morph |
| Store.AppStore.SetConfig | store.ts:55 | the configuration becomes the old one overwritten by the patch |
| Store.AppStore.SetHandState | store.ts:56 | the hand state becomes the old one overwritten by the patch |
| Store.AppStore.ToggleCamera | store.ts:57 | flips the camera flag only |
| Store.AppStore.ToggleRotationControl | store.ts:59 | flips the rotation-control flag only |
| Store.AppStore.ToggleScatter | store.ts:60 | flips the scatter flag only |
| Store.AppStore.ToggleHole | store.ts:61 | flips the hole flag only |
| Store.AppStore.TogglePinch | store.ts:62 | flips the pinch flag only |
| Store.AppStore.StartMorph | store.ts:64 | sets `isMorphing` only |
| Store.AppStore.CompleteMorph | store.ts:65-69 | the target becomes the current shape, the store is idle with progress 0, and afterwards current equals target |
| Store.AppStore.TriggerScatter | store.ts:71-75 | ignored while scatter is off. Otherwise the intensity is capped at 2, and [0, 2] is preserved for non-negative triggers |
| Store.AppStore.TriggerHole | store.ts:77-82 | ignored while holes are off. Otherwise exactly one hole with the given position, id and stamp is appended, and the earlier ones are unchanged |
| Store.AppStore.UpdateEffects | store.ts:84-100 | scatter becomes `Decayed(old)` and holes become the live ones in order, although the state is written only when one changed; [0, 2] is preserved |
| Vision.DistNonneg | services/visionService.ts:78-81 | a landmark distance is non-negative |
| Vision.PinchStrength | services/visionService.ts:82 | pinch lies in [0, 1]. It is 1 for a distance of at most 0.02 and 0 for a distance of at least 0.12 |
| Vision.PinchMonotone | services/visionService.ts:82 | pinch never grows as the fingers move apart |
| Vision.TwoHandSpread | services/visionService.ts:106-110 | two-hand spread lies in [0.5, 2.5] and is `2.5 d` whenever that lies in the range |
| Vision.WristsPointFourApart | services/visionService.ts:110 | wrists 0.4 apart give spread 1.0 |
| Vision.OneHandSpread | services/visionService.ts:118-119 | one-hand spread is at least 0.5 |
| Vision.TipDistSumNonneg | services/visionService.ts:112-117 | the summed fingertip distances are non-negative |
| Vision.TotalTipDist | services/visionService.ts:112-117 | the `forEach` loop computes the sum of the four fingertip-to-wrist distances, which is non-negative |
| Vision.RawSignals | services/visionService.ts:63-120 | raw pinch lies in [0, 1]. Raw spread is at least 0.5, and with two hands at most 2.5 |
| Vision.ReadSignals | services/visionService.ts:63-120 | the imperative first half of a detection computes `RawSignals` |
| Vision.ThrottleStep | services/visionService.ts:52-57 | a call before the detector exists or within the throttle interval changes nothing, which in saver mode means within 50 ms. Any other call stamps `lastPredictionTime` |
| Vision.NoHandStep | services/visionService.ts:188-194 | with no hand the accumulators are kept and nothing fires. The lost-hand patch is sent exactly when the hand was detected |
| Vision.CenterSmoothing | services/visionService.ts:123-136 | the centre closes 0.01 of the gap exactly when a known centre (x non-zero) is more than 0.3 away, and 0.2 otherwise. The result lies between the old and the raw centre |
| Vision.VelocityAndWave | services/visionService.ts:142-154 | velocity becomes `0.7 old + 0.3 distFromLast` and stays non-negative. A scatter of `4 v` fires exactly when scatter is on and `v > 0.05` |
| Vision.FlickGate | services/visionService.ts:156-177 | the fingertip and counter move only while holes are on, and the counter stays in {0, 1}. A hole fires only with holes on, at the world mapping of the smoothed centre, and resets the counter |
| Vision.DetectStepCalm | services/visionService.ts:43-195 | every call keeps pinch in [0, 1], spread at least 0.5, velocity non-negative and the counter in {0, 1}, and publishes only such values |
| Vision.FlickRunBound | services/visionService.ts:164-176 | over any run of frames the counter stays in {0, 1}, and twice the number of holes is at most the number of frames plus the starting count |
| Vision.FlickRunFast | services/visionService.ts:164-176 | `2n` consecutive fast frames give exactly `n` holes and leave the counter at 0 |
| Vision.FlickScenario | services/visionService.ts:164-176 | the speeds 0.15, 0.15, 0.02, 0.15, 0.15 give exactly two holes |
| Vision.GestureTracker.constructor | services/visionService.ts:8-19 | the initial accumulators: centre (0, 0), pinch 0, spread 1, rotation 0, velocity 0, tip (0, 0), counter 0, last prediction 0 |
| Vision.GestureTracker.DetectHands | services/visionService.ts:43-195 | one call leaves the accumulators at `DetectStep` of the old ones, and the store at the old store with that step's scatter, hole and hand patch applied in the source's order |
| Vision.GestureTracker.TrackHands | services/visionService.ts:62-187 | the branch with a hand computes `HandStep` and its store actions |
| Vision.GestureTracker.SmoothSample | services/visionService.ts:123-146 | the smoothing assignments compute `Smooth` of the old accumulators |
| Vision.GestureTracker.TrackFlick | services/visionService.ts:157-177 | the flick branch records the tip, advances the counter by `FlickStep`, and appends a hole exactly when it fires |
| Particles.ScanBlend | components/Particles.tsx:293-298 | the scan blend stays in [0, 1] and closes a tenth of the gap to its target each frame |
| Particles.ScanBlendConverges | components/Particles.tsx:298 | after n frames in one mode the gap is `0.9^n` of the initial gap |
| Particles.MorphStep | components/Particles.tsx:320-332 | idle holds progress at 0. While morphing, the frame completes exactly when `u + 2 delta >= 1`, and completion sets progress to exactly 1. Progress stays in [0, 1] for non-negative deltas |
| Particles.MorphRunProgress | components/Particles.tsx:320-332 | an unfinished morph has advanced by exactly twice the elapsed frame time; once that reaches the gap, the morph has completed at progress 1 |
| Particles.PackingSeesFirstFive | components/Particles.tsx:309-318 | holes past the fifth are never read |
| Particles.ShownHolesAreLive | components/Particles.tsx:300-318 | right after `updateEffects(now)` every filled slot shows a hole younger than 2.5 s, and every other slot has time -100 |
| Particles.TargetsFor | components/Particles.tsx:337-347 | the target is the hand's pinch and spread when a hand is detected with pinch enabled, and (0, 1) otherwise. The easing fraction is 0.15 with a hand and 0.05 without |
| Particles.GestureUniformsInRange | components/Particles.tsx:349-350 | easing keeps the pinch uniform in [0, 1], and the spread uniform in [0.5, 2.5] while the published spread is in that range |
| Particles.RotationApproaches | components/Particles.tsx:352-364 | while following a hand, yaw and pitch close 5% and roll 10% of the gap to `(1.5 cy, 1.5 cx, rotation)`. Otherwise every angle decays by 2% |
| Particles.ParticleView.constructor | components/Particles.tsx:246-259 | the initial uniforms: morph, pinch, scatter and scan at 0, spread 1, hole positions 0 and hole times -100 |
| Particles.ParticleView.SyncTargetShape | components/Particles.tsx:279-284 | a new target shape resets the morph uniform to 0; the same target leaves it alone |
| Particles.ParticleView.PackHoles | components/Particles.tsx:309-318 | slot i takes the position and time of hole i when there is one. Otherwise its time becomes -100 and its position is left as it was |
| Particles.ParticleView.AdvanceMorph | components/Particles.tsx:320-332 | the morph uniform becomes `MorphStep`'s progress, and `completeMorph` runs exactly when the step completes |
| Particles.ParticleView.EaseGestures | components/Particles.tsx:334-364 | pinch and spread ease towards `TargetsFor` and the rotation takes one `RotationStep`; pinch stays in [0, 1] |
| Particles.ParticleView.Frame | components/Particles.tsx:286-365 | time, scan blend, decayed scatter, the live holes packed after `updateEffects`, the morph step with its store completion, and the gesture easing. The blend uniforms stay in [0, 1] |
| Shapes.CeilSqrt | utils/shapes.ts:78 | the grid side is the least `s` with `s * s >= count` |
| Shapes.ScanCellInGrid | utils/shapes.ts:78-80 | both grid indices lie below the side, and `i = row * side + col` |
| Shapes.ScanCellsDistinct | utils/shapes.ts:79-80 | two different particles never share a grid cell |
| Shapes.ScanPointInPlane | utils/shapes.ts:70-88 | scan particles lie in x in [-4, 4) and y in [-2.25, 2.25) on z = 0 |
| Shapes.ThicknessRanges | utils/shapes.ts:24 | the heart's depth lies in [-1, 1), and the untilted flower's in [-0.75, 0.75) |
| Shapes.RingRanges | utils/shapes.ts:56-61 | a saturn ring radius lies in [2.2, 4.2) and its jitter in [-0.05, 0.05) |
| Shapes.FireworksRadiusRange | utils/shapes.ts:96 | the fireworks radius lies in [0, 4) |
| Shapes.GenerateParticles | utils/shapes.ts:4-110 | a fresh buffer of exactly `3 count` slots, where particle i fills exactly slots `3i`, `3i+1` and `3i+2` with its x, y and z |

## Left out

- The MediaPipe calls (`initializeVision`, `detectForVideo`) are foreign I/O. The detector's result is an input, and `ready` says whether the detector exists.
- The vertex and fragment shaders, and the camera, video texture and canvas plumbing of `App.tsx` and `components/UI.tsx`, are presentation and I/O.
- React and zustand plumbing (memoisation, selectors, subscriber notification) is left out. State is passed to the methods explicitly.
- `setLanguage`, `setVideoSize` and `setVideoTexture` are plain field writes with no logic, and the language and video fields are not modelled.
- The configuration effect that copies size, colour and noise into the material (`components/Particles.tsx:261-268`) and the video-texture effect are not modelled. Neither takes part in the frame loop's logic.
- The geometry memo that rebuilds the buffers when count or shape changes is not modelled. Only `GenerateParticles`, which it calls, is modelled.
- The early return of `useFrame` before the mesh is mounted is not modelled. `Frame` models a mounted mesh.
- Particles.ParticleView.Frame: `currentShape`, `targetShape`, `isMorphing` and `isRotationControlEnabled` are render-time selectors in the source, read inside the frame callback. The model takes them as the store's values at the start of the frame. If the store changed since the last render, the source would still use the older values.
- The hole stamps come from `performance.now() / 1000`, but `updateEffects` is called with the three.js clock's elapsed time. These are different clocks. Both are free parameters here and are not reconciled, so the 2.5 s lifetime holds in whichever unit the caller supplies.
- IEEE doubles and the `Float32Array` buffer are modelled as exact reals. Rounding is not modelled.
- Library trigonometry, `Math.sqrt`, `Math.cbrt` and the quaternion tilts are parameters. Apart from the square-root specification used for non-negativity, nothing is proved about them, so the random shapes are stated only through their draw-dependent ranges.
- Shapes.CeilSqrt: computed on naturals. The floating-point `Math.ceil(Math.sqrt(count))` it stands for is not modelled.
- Store.AppStore: `morphProgress` is only ever reset to 0 and never advanced, and the model keeps it at 0 as an invariant. The real progress is the `uMorph` uniform in `ParticleView`.
- Vision.DetectStepCalm: no upper bound on spread is stated for one hand, because the source does not cap it.
