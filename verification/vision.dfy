/** The gesture recognition step (services/visionService.ts, `detectHands`):
    one landmark sample is turned into pinch, spread, centre, rotation and
    velocity signals, smoothed against module-level accumulators, and may fire
    a scatter (wave) or a hole (flick) in the store. The landmark detector,
    `Math.sqrt` and `Math.atan2` are inputs. */
module Vision {
  import opened Types
  import opened Numeric
  import Store

  /** A normalised landmark in camera space (the detector's z is unused). */
  datatype Point = Point(x: real, y: real)

  /** One detected hand: the 21 landmarks of the hand topology. */
  type Hand = seq<Point>

  const LandmarkCount: nat := 21
  const Wrist: nat := 0
  const ThumbTip: nat := 4
  const IndexMcp: nat := 5
  const IndexTip: nat := 8
  const PinkyMcp: nat := 17
  const FingerTips: seq<nat> := [8, 12, 16, 20]

  const SaverIntervalMs: real := 50.0
  const PinchNear: real := 0.02
  const PinchRange: real := 0.1
  const SpreadMin: real := 0.5
  const SpreadMax: real := 2.5
  const SpreadGain: real := 2.5
  const TeleportDist: real := 0.3
  const SmoothFactor: real := 0.2
  const TeleportFactor: real := 0.01
  const VelocityFactor: real := 0.3
  const WaveThreshold: real := 0.05
  const WaveGain: real := 4.0
  const FlickSpeed: real := 0.12
  const FlickFrames: nat := 2

  /** Every hand carries the full landmark set. */
  predicate WellFormed(hands: seq<Hand>)
  {
    forall i :: 0 <= i < |hands| ==> |hands[i]| >= LandmarkCount
  }

  /** `Math.sqrt(Math.pow(p.x - q.x, 2) + Math.pow(p.y - q.y, 2))`. */
  function Dist(sqrt: real -> real, p: Point, q: Point): real
  {
    sqrt((p.x - q.x) * (p.x - q.x) + (p.y - q.y) * (p.y - q.y))
  }

  lemma SquareNonneg(a: real)
    ensures 0.0 <= a * a
  {
    if a < 0.0 {
      MulNonneg(-a, -a);
    } else {
      MulNonneg(a, a);
    }
  }

  lemma DistNonneg(sqrt: real -> real, p: Point, q: Point)
    requires IsSqrt(sqrt)
    ensures 0.0 <= Dist(sqrt, p, q)
  {
    SquareNonneg(p.x - q.x);
    SquareNonneg(p.y - q.y);
  }

  // ---------------------------------------------------------------------
  // The pure pieces of one sample

  /** Under `saver` a call within 50 ms of the last processed one is dropped;
      under `high` the interval is 0. */
  function ThrottleInterval(mode: PerformanceMode): real
  {
    if mode == Saver then SaverIntervalMs else 0.0
  }

  predicate Throttled(mode: PerformanceMode, now: real, lastPrediction: real)
  {
    now - lastPrediction < ThrottleInterval(mode)
  }

  /** `Math.max(0, Math.min(1, 1 - (dist - 0.02) / 0.1))`. */
  function PinchStrength(pinchDist: real): (r: real)
    ensures 0.0 <= r <= 1.0
    ensures pinchDist <= PinchNear ==> r == 1.0
    ensures PinchNear + PinchRange <= pinchDist ==> r == 0.0
  {
    Clamp(0.0, 1.0, 1.0 - (pinchDist - PinchNear) / PinchRange)
  }

  /** Closing the fingers never weakens the pinch. */
  lemma PinchMonotone(d1: real, d2: real)
    requires d1 <= d2
    ensures PinchStrength(d2) <= PinchStrength(d1)
  {
    assert (d1 - PinchNear) / PinchRange <= (d2 - PinchNear) / PinchRange;
  }

  /** Two hands: `clamp(handsDist * 2.5, 0.5, 2.5)`. */
  function TwoHandSpread(handsDist: real): (r: real)
    ensures SpreadMin <= r <= SpreadMax
    ensures SpreadMin <= handsDist * SpreadGain <= SpreadMax ==> r == handsDist * SpreadGain
  {
    Clamp(SpreadMin, SpreadMax, handsDist * SpreadGain)
  }

  /** One hand: `0.5 + 2 * (totalTipDist / 4)`; not capped above. */
  function OneHandSpread(totalTipDist: real): (r: real)
    ensures 0.0 <= totalTipDist ==> SpreadMin <= r
  {
    SpreadMin + (totalTipDist / 4.0) * 2.0
  }

  /** The palm centre: mean of wrist, index knuckle and pinky knuckle. */
  function Palm(h: Hand): Point
    requires |h| >= LandmarkCount
  {
    Point((h[Wrist].x + h[IndexMcp].x + h[PinkyMcp].x) / 3.0,
          (h[Wrist].y + h[IndexMcp].y + h[PinkyMcp].y) / 3.0)
  }

  predicate TipsIn(h: Hand, tips: seq<nat>)
  {
    |h| > Wrist && forall k :: 0 <= k < |tips| ==> tips[k] < |h|
  }

  /** The running `totalTipDist` after the listed fingertips, in order. */
  function TipDistSum(sqrt: real -> real, h: Hand, tips: seq<nat>): real
    requires TipsIn(h, tips)
  {
    if tips == [] then 0.0
    else TipDistSum(sqrt, h, tips[..|tips| - 1]) + Dist(sqrt, h[tips[|tips| - 1]], h[Wrist])
  }

  lemma {:induction false} TipDistSumNonneg(sqrt: real -> real, h: Hand, tips: seq<nat>)
    requires TipsIn(h, tips)
    ensures IsSqrt(sqrt) ==> 0.0 <= TipDistSum(sqrt, h, tips)
  {
    if tips != [] && IsSqrt(sqrt) {
      TipDistSumNonneg(sqrt, h, tips[..|tips| - 1]);
      DistNonneg(sqrt, h[tips[|tips| - 1]], h[Wrist]);
    }
  }

  /** The `tips.forEach` loop: sum the four fingertip-to-wrist distances. */
  method TotalTipDist(sqrt: real -> real, h: Hand) returns (total: real)
    requires |h| >= LandmarkCount
    ensures total == TipDistSum(sqrt, h, FingerTips)
    ensures IsSqrt(sqrt) ==> 0.0 <= total
  {
    total := 0.0;
    var k := 0;
    while k < |FingerTips|
      invariant 0 <= k <= |FingerTips|
      invariant total == TipDistSum(sqrt, h, FingerTips[..k])
    {
      assert FingerTips[..k + 1][..k] == FingerTips[..k];
      total := total + Dist(sqrt, h[FingerTips[k]], h[Wrist]);
      k := k + 1;
    }
    assert FingerTips[..k] == FingerTips;
    TipDistSumNonneg(sqrt, h, FingerTips);
  }

  /** The raw, unsmoothed signals of one sample. */
  datatype Signals = Signals(pinch: real, spread: real, center: Point, rotation: real)

  function RawSignals(sqrt: real -> real, atan2: (real, real) -> real, hands: seq<Hand>): (s: Signals)
    requires WellFormed(hands) && |hands| > 0
    ensures 0.0 <= s.pinch <= 1.0
    ensures IsSqrt(sqrt) ==> SpreadMin <= s.spread
    ensures |hands| > 1 ==> s.spread <= SpreadMax
  {
    var h1 := hands[0];
    var pinch := PinchStrength(Dist(sqrt, h1[ThumbTip], h1[IndexTip]));
    var palm1 := Palm(h1);
    var rotation := atan2(h1[PinkyMcp].y - h1[IndexMcp].y, h1[PinkyMcp].x - h1[IndexMcp].x);
    if |hands| > 1 then
      var palm2 := Palm(hands[1]);
      Signals(pinch, TwoHandSpread(Dist(sqrt, h1[Wrist], hands[1][Wrist])),
              Point((palm1.x + palm2.x) / 2.0, (palm1.y + palm2.y) / 2.0), rotation)
    else
      TipDistSumNonneg(sqrt, h1, FingerTips);
      Signals(pinch, OneHandSpread(TipDistSum(sqrt, h1, FingerTips)), palm1, rotation)
  }

  /** The first half of `detectHands`: pinch, palm centre, roll and spread
      of the raw sample, with the fingertip loop for a single hand. */
  method ReadSignals(sqrt: real -> real, atan2: (real, real) -> real, hands: seq<Hand>) returns (raw: Signals)
    requires WellFormed(hands) && |hands| > 0
    ensures raw == RawSignals(sqrt, atan2, hands)
    ensures 0.0 <= raw.pinch <= 1.0
    ensures IsSqrt(sqrt) ==> SpreadMin <= raw.spread
  {
    var h1 := hands[0];
    var pinchStrength := PinchStrength(Dist(sqrt, h1[ThumbTip], h1[IndexTip]));
    var palm1 := Palm(h1);
    var rawX, rawY := palm1.x, palm1.y;
    var rotation := atan2(h1[PinkyMcp].y - h1[IndexMcp].y, h1[PinkyMcp].x - h1[IndexMcp].x);
    var spreadDistance: real;
    if |hands| > 1 {
      var palm2 := Palm(hands[1]);
      rawX := (rawX + palm2.x) / 2.0;
      rawY := (rawY + palm2.y) / 2.0;
      spreadDistance := TwoHandSpread(Dist(sqrt, h1[Wrist], hands[1][Wrist]));
    } else {
      var totalTipDist := TotalTipDist(sqrt, h1);
      spreadDistance := OneHandSpread(totalTipDist);
    }
    raw := Signals(pinchStrength, spreadDistance, Point(rawX, rawY), rotation);
  }

  /** Outlier rejection: a jump of more than 0.3 from a known centre is
      tracked at 0.01; everything else at 0.2. */
  function CenterLerpFactor(last: Point, distFromLast: real): real
  {
    if last.x != 0.0 && distFromLast > TeleportDist then TeleportFactor else SmoothFactor
  }

  datatype FlickResult = FlickResult(count: nat, fire: bool)

  /** The flick debouncer: a fast fingertip frame counts, the second
      consecutive one fires and resets, a slow frame resets. */
  function FlickStep(count: nat, tipSpeed: real): FlickResult
  {
    if tipSpeed > FlickSpeed then
      if count + 1 >= FlickFrames then FlickResult(0, true) else FlickResult(count + 1, false)
    else
      FlickResult(0, false)
  }

  /** Hand-centre in [-1, 1] with y pointing up, as published. */
  function PublishedCenter(c: Point): Vec3
  {
    Vec3((c.x - 0.5) * 2.0, -(c.y - 0.5) * 2.0, 0.0)
  }

  /** The world position of a flick-created hole. */
  function HoleWorldPosition(c: Point): Vec3
  {
    Vec3((c.x - 0.5) * 12.0, -(c.y - 0.5) * 9.0, 0.0)
  }

  // ---------------------------------------------------------------------
  // The whole step on values

  /** The module-level accumulators of the vision service. */
  datatype Accumulators = Accumulators(
    center: Point,
    pinch: real,
    spread: real,
    rotation: real,
    velocity: real,
    tip: Point,
    fastFrames: nat,
    lastPrediction: real)

  /** What one call asks of the store: a scatter amount, a hole position and
      a hand-state patch, each optional. */
  datatype StepResult = StepResult(acc: Accumulators, scatter: Option<real>, hole: Option<Vec3>, hand: Option<HandPatch>)

  /** The smoothing stage: the centre follows the raw centre at the outlier
      factor, pinch, spread and the negated roll at 0.2, and velocity is the
      distance from the last centre smoothed at 0.3. */
  function Smooth(acc: Accumulators, raw: Signals, distFromLast: real): Accumulators
  {
    var f := CenterLerpFactor(acc.center, distFromLast);
    acc.(
      center := Point(Lerp(acc.center.x, raw.center.x, f), Lerp(acc.center.y, raw.center.y, f)),
      pinch := Lerp(acc.pinch, raw.pinch, SmoothFactor),
      spread := Lerp(acc.spread, raw.spread, SmoothFactor),
      rotation := Lerp(acc.rotation, -raw.rotation, SmoothFactor),
      velocity := Lerp(acc.velocity, distFromLast, VelocityFactor))
  }

  /** The wave detector: scatter `4 v` while the smoothed velocity exceeds 0.05. */
  function WaveTrigger(scatterOn: bool, velocity: real): Option<real>
  {
    if scatterOn && velocity > WaveThreshold then Some(velocity * WaveGain) else None
  }

  /** The index fingertip relative to the wrist. */
  function RelativeTip(h: Hand): Point
    requires |h| >= LandmarkCount
  {
    Point(h[IndexTip].x - h[Wrist].x, h[IndexTip].y - h[Wrist].y)
  }

  /** The hand state published after a processed sample. */
  function Published(acc: Accumulators): HandState
  {
    HandState(true, acc.pinch, acc.spread, PublishedCenter(acc.center), acc.rotation, acc.velocity)
  }

  /** A processed sample with at least one hand. */
  function HandStep(acc: Accumulators, scatterOn: bool, holeOn: bool,
                    sqrt: real -> real, atan2: (real, real) -> real, hands: seq<Hand>): StepResult
    requires WellFormed(hands) && |hands| > 0
  {
    var raw := RawSignals(sqrt, atan2, hands);
    var smoothed := Smooth(acc, raw, Dist(sqrt, raw.center, acc.center));
    var relTip := RelativeTip(hands[0]);
    var flick := FlickStep(acc.fastFrames, Dist(sqrt, relTip, acc.tip));
    var acc' := if holeOn then smoothed.(tip := relTip, fastFrames := flick.count) else smoothed;
    StepResult(
      acc',
      WaveTrigger(scatterOn, acc'.velocity),
      if holeOn && flick.fire then Some(HoleWorldPosition(acc'.center)) else None,
      Some(FullPatch(Published(acc'))))
  }

  /** One call of `detectHands` on values: `ready` says the detector exists,
      the flags and `detected` are read from the store. */
  function DetectStep(acc: Accumulators, ready: bool, mode: PerformanceMode,
                      scatterOn: bool, holeOn: bool, detected: bool, now: real,
                      sqrt: real -> real, atan2: (real, real) -> real, hands: seq<Hand>): StepResult
    requires WellFormed(hands)
  {
    if !ready || Throttled(mode, now, acc.lastPrediction) then
      StepResult(acc, None, None, None)
    else if |hands| == 0 then
      StepResult(acc.(lastPrediction := now), None, None, if detected then Some(LostHandPatch) else None)
    else
      HandStep(acc.(lastPrediction := now), scatterOn, holeOn, sqrt, atan2, hands)
  }

  /** `triggerScatter(amount)`, when the step asks for it. */
  function WithScatter(s: Store.StoreState, amount: Option<real>): Store.StoreState
  {
    if amount.Some? && s.isScatterEnabled
    then s.(scatterIntensity := Store.CappedScatter(s.scatterIntensity, amount.value))
    else s
  }

  /** `triggerHole(position)`, when the step asks for it. */
  function WithHole(s: Store.StoreState, position: Option<Vec3>, holeId: real, holeStamp: real): Store.StoreState
  {
    if position.Some? && s.isHoleEnabled
    then s.(holes := s.holes + [HoleInteraction(holeId, position.value, holeStamp)])
    else s
  }

  /** `setHandState(patch)`, when the step asks for it. */
  function WithHand(s: Store.StoreState, patch: Option<HandPatch>): Store.StoreState
  {
    if patch.Some? then s.(handState := MergeHand(s.handState, patch.value)) else s
  }

  /** The store actions a step performs, in the source's order. */
  function ApplyStep(s: Store.StoreState, r: StepResult, holeId: real, holeStamp: real): Store.StoreState
  {
    WithHand(WithHole(WithScatter(s, r.scatter), r.hole, holeId, holeStamp), r.hand)
  }

  // ---------------------------------------------------------------------
  // Properties of the step

  /** A throttled call (or one before the detector exists) changes nothing;
      otherwise the call is stamped. */
  lemma ThrottleStep(acc: Accumulators, ready: bool, mode: PerformanceMode, scatterOn: bool, holeOn: bool,
                     detected: bool, now: real, sqrt: real -> real, atan2: (real, real) -> real, hands: seq<Hand>)
    requires WellFormed(hands)
    ensures var r := DetectStep(acc, ready, mode, scatterOn, holeOn, detected, now, sqrt, atan2, hands);
      && (!ready || Throttled(mode, now, acc.lastPrediction) ==> r == StepResult(acc, None, None, None))
      && (ready && !Throttled(mode, now, acc.lastPrediction) ==> r.acc.lastPrediction == now)
      && (mode == Saver && now - acc.lastPrediction < 50.0 ==> r.acc == acc)
  {
  }

  /** With no hand the accumulators keep their values, nothing fires, and the
      lost-hand patch is sent only on the detected -> not detected edge. */
  lemma NoHandStep(acc: Accumulators, mode: PerformanceMode, scatterOn: bool, holeOn: bool,
                   detected: bool, now: real, sqrt: real -> real, atan2: (real, real) -> real)
    requires !Throttled(mode, now, acc.lastPrediction)
    ensures var r := DetectStep(acc, true, mode, scatterOn, holeOn, detected, now, sqrt, atan2, []);
      && r.acc == acc.(lastPrediction := now)
      && r.scatter == None && r.hole == None
      && (r.hand.Some? <==> detected)
      && (detected ==> r.hand == Some(LostHandPatch))
  {
  }

  /** The smoothed centre moves towards the raw centre by 0.01 of the gap
      exactly when a known centre is more than 0.3 away, by 0.2 otherwise,
      and so always lies on the segment between the two. */
  lemma CenterSmoothing(acc: Accumulators, scatterOn: bool, holeOn: bool,
                        sqrt: real -> real, atan2: (real, real) -> real, hands: seq<Hand>)
    requires WellFormed(hands) && |hands| > 0
    ensures var raw := RawSignals(sqrt, atan2, hands);
      var d := Dist(sqrt, raw.center, acc.center);
      var c := HandStep(acc, scatterOn, holeOn, sqrt, atan2, hands).acc.center;
      var f := if acc.center.x != 0.0 && d > TeleportDist then TeleportFactor else SmoothFactor;
      && c.x - acc.center.x == f * (raw.center.x - acc.center.x)
      && c.y - acc.center.y == f * (raw.center.y - acc.center.y)
      && Min(acc.center.x, raw.center.x) <= c.x <= Max(acc.center.x, raw.center.x)
      && Min(acc.center.y, raw.center.y) <= c.y <= Max(acc.center.y, raw.center.y)
  {
  }

  /** Velocity is `0.7 old + 0.3 distFromLast`, stays non-negative, and a wave
      fires `4 v` exactly when scatter is on and `v > 0.05`. */
  lemma VelocityAndWave(acc: Accumulators, scatterOn: bool, holeOn: bool,
                        sqrt: real -> real, atan2: (real, real) -> real, hands: seq<Hand>)
    requires WellFormed(hands) && |hands| > 0
    requires IsSqrt(sqrt) && 0.0 <= acc.velocity
    ensures var raw := RawSignals(sqrt, atan2, hands);
      var r := HandStep(acc, scatterOn, holeOn, sqrt, atan2, hands);
      var v := r.acc.velocity;
      && v == 0.7 * acc.velocity + 0.3 * Dist(sqrt, raw.center, acc.center)
      && 0.0 <= v
      && (r.scatter.Some? <==> scatterOn && v > WaveThreshold)
      && (r.scatter.Some? ==> r.scatter.value == 4.0 * v)
  {
    var raw := RawSignals(sqrt, atan2, hands);
    DistNonneg(sqrt, raw.center, acc.center);
  }

  /** The fingertip tracker and the flick counter move only while holes are
      enabled, the counter stays in {0, 1}, and a hole fires only from the
      counter with holes enabled. */
  lemma FlickGate(acc: Accumulators, scatterOn: bool, holeOn: bool,
                  sqrt: real -> real, atan2: (real, real) -> real, hands: seq<Hand>)
    requires WellFormed(hands) && |hands| > 0
    requires acc.fastFrames <= 1
    ensures var r := HandStep(acc, scatterOn, holeOn, sqrt, atan2, hands);
      && (!holeOn ==> r.acc.tip == acc.tip && r.acc.fastFrames == acc.fastFrames && r.hole == None)
      && r.acc.fastFrames <= 1
      && (r.hole.Some? ==> holeOn && r.acc.fastFrames == 0 && r.hole.value == HoleWorldPosition(r.acc.center))
  {
  }

  /** Invariant of the accumulators between calls. */
  ghost predicate Calm(acc: Accumulators)
  {
    && 0.0 <= acc.pinch <= 1.0
    && SpreadMin <= acc.spread
    && 0.0 <= acc.velocity
    && acc.fastFrames <= 1
  }

  /** Every call keeps the accumulators calm, and a published hand state has
      pinch in [0, 1], spread at least 0.5 and a non-negative velocity. */
  lemma DetectStepCalm(acc: Accumulators, ready: bool, mode: PerformanceMode, scatterOn: bool, holeOn: bool,
                       detected: bool, now: real, sqrt: real -> real, atan2: (real, real) -> real, hands: seq<Hand>)
    requires WellFormed(hands) && IsSqrt(sqrt) && Calm(acc)
    ensures var r := DetectStep(acc, ready, mode, scatterOn, holeOn, detected, now, sqrt, atan2, hands);
      && Calm(r.acc)
      && (r.hand.Some? && r.hand.value.detected == Some(true) ==>
            r.hand.value.pinchStrength.Some? && 0.0 <= r.hand.value.pinchStrength.value <= 1.0
            && r.hand.value.spreadDistance.Some? && SpreadMin <= r.hand.value.spreadDistance.value
            && r.hand.value.velocity.Some? && 0.0 <= r.hand.value.velocity.value)
  {
    if ready && !Throttled(mode, now, acc.lastPrediction) && |hands| > 0 {
      var a := acc.(lastPrediction := now);
      var raw := RawSignals(sqrt, atan2, hands);
      DistNonneg(sqrt, raw.center, a.center);
      LerpStaysIn(0.0, 1.0, a.pinch, raw.pinch, SmoothFactor);
      assert SpreadMin <= Lerp(a.spread, raw.spread, SmoothFactor);
      FlickGate(a, scatterOn, holeOn, sqrt, atan2, hands);
    }
  }

  /** Wrists 0.4 apart give spread exactly 1.0. */
  lemma WristsPointFourApart()
    ensures TwoHandSpread(0.4) == 1.0
  {
  }

  // ---------------------------------------------------------------------
  // The flick counter over a run of frames

  datatype FlickTally = FlickTally(holes: nat, count: nat)

  /** Holes fired, and the final counter, after feeding `speeds` in order. */
  function FlickRun(count: nat, speeds: seq<real>): FlickTally
    decreases |speeds|
  {
    if speeds == [] then FlickTally(0, count)
    else
      var step := FlickStep(count, speeds[0]);
      var rest := FlickRun(step.count, speeds[1..]);
      FlickTally(rest.holes + (if step.fire then 1 else 0), rest.count)
  }

  /** Each hole needs two fast frames of its own, and the counter never
      leaves {0, 1}. */
  lemma {:induction false} FlickRunBound(count: nat, speeds: seq<real>)
    requires count <= 1
    ensures FlickRun(count, speeds).count <= 1
    ensures 2 * FlickRun(count, speeds).holes <= |speeds| + count
    decreases |speeds|
  {
    if speeds != [] {
      FlickRunBound(FlickStep(count, speeds[0]).count, speeds[1..]);
    }
  }

  /** A run of `2 n` fast frames from a reset counter fires exactly `n` holes. */
  lemma {:induction false} FlickRunFast(n: nat, speeds: seq<real>)
    requires |speeds| == 2 * n
    requires forall k :: 0 <= k < |speeds| ==> speeds[k] > FlickSpeed
    ensures FlickRun(0, speeds) == FlickTally(n, 0)
  {
    if n > 0 {
      FlickRunFast(n - 1, speeds[2..]);
      assert speeds[1..][1..] == speeds[2..];
    }
  }

  /** Speeds 0.15, 0.15, 0.02, 0.15, 0.15 fire exactly two holes. */
  lemma FlickScenario()
    ensures FlickRun(0, [0.15, 0.15, 0.02, 0.15, 0.15]).holes == 2
  {
    var s := [0.15, 0.15, 0.02, 0.15, 0.15];
    assert s[1..][1..] == [0.02, 0.15, 0.15];
    assert s[1..][1..][1..] == [0.15, 0.15];
    FlickRunFast(1, [0.15, 0.15]);
  }

  // ---------------------------------------------------------------------
  // The service

  /** The module-level variables of the vision service. */
  class GestureTracker {
    var lastHandCenter: Point
    var lastPinch: real
    var lastSpread: real
    var lastRotation: real
    var smoothedVelocity: real
    var lastTipPos: Point
    var consecutiveFastFrames: nat
    var lastPredictionTime: real

    ghost function Snapshot(): Accumulators
      reads this
    {
      Accumulators(lastHandCenter, lastPinch, lastSpread, lastRotation, smoothedVelocity,
                   lastTipPos, consecutiveFastFrames, lastPredictionTime)
    }

    /** The values at module load. */
    constructor ()
      ensures Snapshot() == Accumulators(Point(0.0, 0.0), 0.0, 1.0, 0.0, 0.0, Point(0.0, 0.0), 0, 0.0)
      ensures Calm(Snapshot())
    {
      lastHandCenter := Point(0.0, 0.0);
      lastPinch, lastSpread, lastRotation := 0.0, 1.0, 0.0;
      smoothedVelocity := 0.0;
      lastTipPos := Point(0.0, 0.0);
      consecutiveFastFrames := 0;
      lastPredictionTime := 0.0;
    }

    /** Process one sample taken at `now` (ms). `hands` is the detector's
        result; `holeId` and `holeStamp` are the random id and the clock
        reading (s) a triggered hole receives. */
    method DetectHands(store: Store.AppStore, ready: bool, now: real, hands: seq<Hand>,
                       sqrt: real -> real, atan2: (real, real) -> real,
                       holeId: real, holeStamp: real)
      requires WellFormed(hands) && store.Valid()
      modifies this, store
      ensures store.Valid()
      ensures var r := DetectStep(old(Snapshot()), ready, old(store.performanceMode),
                                  old(store.isScatterEnabled), old(store.isHoleEnabled),
                                  old(store.handState.detected), now, sqrt, atan2, hands);
        && Snapshot() == r.acc
        && store.Snapshot() == ApplyStep(old(store.Snapshot()), r, holeId, holeStamp)
    {
      if !ready {
        return;
      }
      if now - lastPredictionTime < ThrottleInterval(store.performanceMode) {
        return;
      }
      lastPredictionTime := now;
      var scatterOn, holeOn := store.isScatterEnabled, store.isHoleEnabled;

      if |hands| > 0 {
        TrackHands(store, scatterOn, holeOn, hands, sqrt, atan2, holeId, holeStamp);
      } else {
        if store.handState.detected {
          store.SetHandState(LostHandPatch);
        }
      }
    }

    /** The branch of `detectHands` that sees at least one hand. */
    method TrackHands(store: Store.AppStore, scatterOn: bool, holeOn: bool, hands: seq<Hand>,
                      sqrt: real -> real, atan2: (real, real) -> real,
                      holeId: real, holeStamp: real)
      requires WellFormed(hands) && |hands| > 0 && store.Valid()
      requires scatterOn == store.isScatterEnabled && holeOn == store.isHoleEnabled
      modifies this, store
      ensures store.Valid()
      ensures var r := HandStep(old(Snapshot()), scatterOn, holeOn, sqrt, atan2, hands);
        && Snapshot() == r.acc
        && store.Snapshot() == ApplyStep(old(store.Snapshot()), r, holeId, holeStamp)
    {
      ghost var acc := Snapshot();
      ghost var r := HandStep(acc, scatterOn, holeOn, sqrt, atan2, hands);
      ghost var s0 := store.Snapshot();
      var raw := ReadSignals(sqrt, atan2, hands);
      SmoothSample(raw, sqrt);
      assert s0 == old(store.Snapshot());

      if scatterOn {
        if smoothedVelocity > WaveThreshold {
          store.TriggerScatter(smoothedVelocity * WaveGain);
        }
      }
      assert r.scatter == WaveTrigger(scatterOn, smoothedVelocity);
      ghost var s1 := WithScatter(s0, r.scatter);
      assert store.Snapshot() == s1;

      if holeOn {
        TrackFlick(store, RelativeTip(hands[0]), sqrt, holeId, holeStamp);
      }
      assert Snapshot() == r.acc;
      assert store.Snapshot() == WithHole(s1, r.hole, holeId, holeStamp);

      store.SetHandState(FullPatch(HandState(true, lastPinch, lastSpread, PublishedCenter(lastHandCenter),
                                             lastRotation, smoothedVelocity)));
    }

    /** The smoothing assignments of `detectHands`. */
    method SmoothSample(raw: Signals, sqrt: real -> real)
      modifies this
      ensures Snapshot() == Smooth(old(Snapshot()), raw, Dist(sqrt, raw.center, old(lastHandCenter)))
    {
      var distFromLast := Dist(sqrt, raw.center, lastHandCenter);
      var lerpFactor := SmoothFactor;
      if lastHandCenter.x != 0.0 && distFromLast > TeleportDist {
        lerpFactor := TeleportFactor;
      }
      var smoothedX := Lerp(lastHandCenter.x, raw.center.x, lerpFactor);
      var smoothedY := Lerp(lastHandCenter.y, raw.center.y, lerpFactor);
      lastHandCenter := Point(smoothedX, smoothedY);
      lastPinch := Lerp(lastPinch, raw.pinch, SmoothFactor);
      lastSpread := Lerp(lastSpread, raw.spread, SmoothFactor);
      lastRotation := Lerp(lastRotation, -raw.rotation, SmoothFactor);
      smoothedVelocity := Lerp(smoothedVelocity, distFromLast, VelocityFactor);
    }

    /** The flick branch of `detectHands`: track the fingertip, count fast
        frames and trigger a hole at the smoothed centre on the second one. */
    method TrackFlick(store: Store.AppStore, relTip: Point, sqrt: real -> real, holeId: real, holeStamp: real)
      requires store.Valid()
      modifies this, store
      ensures store.Valid()
      ensures var f := FlickStep(old(consecutiveFastFrames), Dist(sqrt, relTip, old(lastTipPos)));
        && Snapshot() == old(Snapshot()).(tip := relTip, fastFrames := f.count)
        && store.Snapshot() == WithHole(old(store.Snapshot()),
                                        if f.fire then Some(HoleWorldPosition(lastHandCenter)) else None,
                                        holeId, holeStamp)
    {
      var tipSpeed := Dist(sqrt, relTip, lastTipPos);
      lastTipPos := relTip;
      if tipSpeed > FlickSpeed {
        consecutiveFastFrames := consecutiveFastFrames + 1;
        if consecutiveFastFrames >= FlickFrames {
          store.TriggerHole(HoleWorldPosition(lastHandCenter), holeId, holeStamp);
          consecutiveFastFrames := 0;
        }
      } else {
        consecutiveFastFrames := 0;
      }
    }
  }
}
