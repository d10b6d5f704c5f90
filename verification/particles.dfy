/** The per-frame bookkeeping of the particle mesh (components/Particles.tsx):
    the `useFrame` callback that advances the morph, packs the live holes into
    the fixed shader slots, blends into scan mode and eases the gesture
    uniforms and the mesh rotation, and the effect that resets the morph when
    the target shape changes. The shader programs themselves are not modelled. */
module Particles {
  import opened Types
  import opened Numeric
  import Store

  /** Number of hole slots the vertex shader declares. */
  const MaxHoles: nat := 5
  /** Morph progress per second of frame time. */
  const MorphSpeed: real := 2.0
  /** Time written into an unused hole slot: far enough in the past that the
      shader's hole effect has faded. */
  const NoHoleTime: real := -100.0
  /** Per-frame fraction of the scan-mode blend. */
  const ScanBlendRate: real := 0.1
  /** Easing fraction of pinch and spread without a hand and with one. */
  const IdleEase: real := 0.05
  const TrackedEase: real := 0.15
  /** Easing fractions of the mesh rotation. */
  const RollEase: real := 0.1
  const TiltEase: real := 0.05
  const ReleaseEase: real := 0.02
  /** Radians of tilt per unit of published hand centre. */
  const TiltGain: real := 1.5

  // ---------------------------------------------------------------------
  // Scan mode

  /** Scan mode: idle on the scan grid, or morphing towards it and past the
      half-way point. */
  predicate InScanMode(current: ShapeType, target: ShapeType, isMorphing: bool, morph: real)
  {
    (current == Scan && !isMorphing) || (target == Scan && isMorphing && morph > 0.5)
  }

  /** The blend uniform eases towards 1 in scan mode and towards 0 outside it,
      closing a tenth of the gap every frame. */
  function ScanBlend(blend: real, inScan: bool): (r: real)
    ensures 0.0 <= blend <= 1.0 ==> 0.0 <= r <= 1.0
    ensures r - (if inScan then 1.0 else 0.0) == 0.9 * (blend - (if inScan then 1.0 else 0.0))
  {
    var target := if inScan then 1.0 else 0.0;
    LerpStep(blend, target, ScanBlendRate);
    if 0.0 <= blend <= 1.0 then LerpStaysIn(0.0, 1.0, blend, target, ScanBlendRate); Lerp(blend, target, ScanBlendRate)
    else Lerp(blend, target, ScanBlendRate)
  }

  /** Repeated frames in scan mode leave a gap to full blend of `0.9^n` times
      the initial gap. */
  function ScanBlendAfter(blend: real, inScan: bool, n: nat): real
  {
    if n == 0 then blend else ScanBlend(ScanBlendAfter(blend, inScan, n - 1), inScan)
  }

  lemma {:induction false} ScanBlendConverges(blend: real, inScan: bool, n: nat)
    ensures var target := if inScan then 1.0 else 0.0;
      ScanBlendAfter(blend, inScan, n) - target == Store.Pow(0.9, n) * (blend - target)
  {
    if n > 0 {
      ScanBlendConverges(blend, inScan, n - 1);
    }
  }

  // ---------------------------------------------------------------------
  // Morph progress

  /** The morph uniform after one frame, and whether the frame completes the
      morph in the store. */
  datatype MorphOutcome = MorphOutcome(progress: real, complete: bool)

  /** While morphing the progress advances by `2 delta`; reaching 1 clamps it
      to exactly 1 and completes the morph; when idle it is held at 0. */
  function MorphStep(isMorphing: bool, morph: real, delta: real): (o: MorphOutcome)
    ensures !isMorphing ==> o == MorphOutcome(0.0, false)
    ensures isMorphing ==> (o.complete <==> 1.0 <= morph + MorphSpeed * delta)
    ensures o.complete ==> o.progress == 1.0
    ensures 0.0 <= morph && 0.0 <= delta ==> 0.0 <= o.progress <= 1.0
    ensures isMorphing && 0.0 <= delta ==> morph <= o.progress || o.progress == 1.0
  {
    if isMorphing then
      var next := morph + delta * MorphSpeed;
      if next >= 1.0 then MorphOutcome(1.0, true) else MorphOutcome(next, false)
    else
      MorphOutcome(0.0, false)
  }

  /** Total frame time of a run of frames. */
  function Sum(deltas: seq<real>): real
  {
    if |deltas| == 0 then 0.0 else deltas[0] + Sum(deltas[1..])
  }

  /** Frames of a morph, starting from `morph`, until the first frame that
      completes it. */
  function MorphRun(morph: real, deltas: seq<real>): MorphOutcome
    decreases |deltas|
  {
    if |deltas| == 0 then MorphOutcome(morph, false)
    else
      var o := MorphStep(true, morph, deltas[0]);
      if o.complete then o else MorphRun(o.progress, deltas[1..])
  }

  /** A morph that has not completed has advanced by exactly twice the frame
      time, which is still short of 1; so once twice the elapsed frame time
      reaches the remaining gap, the morph has completed. */
  lemma {:induction false} MorphRunProgress(morph: real, deltas: seq<real>)
    requires |deltas| > 0
    decreases |deltas|
    ensures var o := MorphRun(morph, deltas);
      && (!o.complete ==> o.progress == morph + MorphSpeed * Sum(deltas) < 1.0)
      && (1.0 <= morph + MorphSpeed * Sum(deltas) ==> o.complete && o.progress == 1.0)
  {
    var o := MorphStep(true, morph, deltas[0]);
    if !o.complete && |deltas| > 1 {
      MorphRunProgress(o.progress, deltas[1..]);
    }
  }

  // ---------------------------------------------------------------------
  // Hole slots

  /** Slot `k` of the 15 hole coordinates after packing: the coordinate of
      hole `k / 3` when there is one, otherwise the slot keeps what it held. */
  function SlotCoord(holes: seq<HoleInteraction>, prev: seq<real>, k: nat): real
    requires |prev| == 3 * MaxHoles && k < 3 * MaxHoles
  {
    if k / 3 < |holes| then Coord(holes[k / 3].position, k % 3) else prev[k]
  }

  /** Slot `i` of the 5 hole times after packing. */
  function SlotTime(holes: seq<HoleInteraction>, i: nat): real
  {
    if i < |holes| then holes[i].timestamp else NoHoleTime
  }

  /** Holes past the fifth are never read: packing sees only the first five. */
  lemma PackingSeesFirstFive(holes: seq<HoleInteraction>, prev: seq<real>, k: nat, i: nat)
    requires |prev| == 3 * MaxHoles && k < 3 * MaxHoles && i < MaxHoles
    ensures var first := holes[..if |holes| < MaxHoles then |holes| else MaxHoles];
      && SlotCoord(holes, prev, k) == SlotCoord(first, prev, k)
      && SlotTime(holes, i) == SlotTime(first, i)
  {
  }

  /** Right after `updateEffects(now)`, every filled slot shows a hole that is
      still within its lifetime, and every other slot shows no hole. */
  lemma {:induction false} ShownHolesAreLive(holes: seq<HoleInteraction>, now: real, i: nat)
    requires i < MaxHoles
    ensures var live := Store.LiveHoles(holes, now);
      && (i < |live| ==> now - SlotTime(live, i) < Store.HoleLifetime)
      && (|live| <= i ==> SlotTime(live, i) == NoHoleTime)
  {
    var live := Store.LiveHoles(holes, now);
    if i < |live| {
      Store.LiveHolesAllAlive(holes, now);
      assert live[i] in live;
    }
  }

  // ---------------------------------------------------------------------
  // Gesture uniforms and rotation

  /** The pinch and spread the uniforms ease towards, and the easing fraction. */
  datatype GestureTargets = GestureTargets(pinch: real, spread: real, ease: real)

  function TargetsFor(hand: HandState, pinchEnabled: bool): (t: GestureTargets)
    ensures hand.detected && pinchEnabled ==> t.pinch == hand.pinchStrength && t.spread == hand.spreadDistance
    ensures !(hand.detected && pinchEnabled) ==> t.pinch == 0.0 && t.spread == 1.0
    ensures t.ease == (if hand.detected then TrackedEase else IdleEase)
  {
    if hand.detected then
      if pinchEnabled then GestureTargets(hand.pinchStrength, hand.spreadDistance, TrackedEase)
      else GestureTargets(0.0, 1.0, TrackedEase)
    else GestureTargets(0.0, 1.0, IdleEase)
  }

  /** Easing towards the targets keeps the pinch uniform in [0, 1] while the
      published pinch is in [0, 1], and the spread uniform in [0.5, 2.5] while
      the published spread is. */
  lemma GestureUniformsInRange(pinch: real, spread: real, hand: HandState, pinchEnabled: bool)
    requires 0.0 <= pinch <= 1.0 && 0.0 <= hand.pinchStrength <= 1.0
    ensures var t := TargetsFor(hand, pinchEnabled);
      0.0 <= Lerp(pinch, t.pinch, t.ease) <= 1.0
    ensures var t := TargetsFor(hand, pinchEnabled);
      0.5 <= spread <= 2.5 && 0.5 <= hand.spreadDistance <= 2.5 ==> 0.5 <= Lerp(spread, t.spread, t.ease) <= 2.5
  {
    var t := TargetsFor(hand, pinchEnabled);
    LerpStaysIn(0.0, 1.0, pinch, t.pinch, t.ease);
    if 0.5 <= spread <= 2.5 && 0.5 <= hand.spreadDistance <= 2.5 {
      LerpStaysIn(0.5, 2.5, spread, t.spread, t.ease);
    }
  }

  /** The rotation the mesh eases towards while rotation control follows a
      detected hand: roll from the hand, yaw and pitch from its centre. */
  function RotationTarget(hand: HandState): Vec3
  {
    Vec3(hand.handCenter.y * TiltGain, hand.handCenter.x * TiltGain, hand.rotation)
  }

  /** One frame of mesh rotation. */
  function RotationStep(rot: Vec3, hand: HandState, rotationOn: bool): Vec3
  {
    if rotationOn && hand.detected then
      var t := RotationTarget(hand);
      Vec3(Lerp(rot.x, t.x, TiltEase), Lerp(rot.y, t.y, TiltEase), Lerp(rot.z, t.z, RollEase))
    else
      Vec3(Lerp(rot.x, 0.0, ReleaseEase), Lerp(rot.y, 0.0, ReleaseEase), Lerp(rot.z, 0.0, ReleaseEase))
  }

  /** Following a hand closes 5% of the yaw and pitch gap and 10% of the
      roll gap per frame; without one every angle decays by 2% towards 0. */
  lemma RotationApproaches(rot: Vec3, hand: HandState, rotationOn: bool)
    ensures var r := RotationStep(rot, hand, rotationOn);
      var t := RotationTarget(hand);
      rotationOn && hand.detected ==>
        && r.x - t.x == 0.95 * (rot.x - t.x)
        && r.y - t.y == 0.95 * (rot.y - t.y)
        && r.z - t.z == 0.9 * (rot.z - t.z)
    ensures var r := RotationStep(rot, hand, rotationOn);
      !(rotationOn && hand.detected) ==> r == Vec3(0.98 * rot.x, 0.98 * rot.y, 0.98 * rot.z)
  {
    var t := RotationTarget(hand);
    LerpStep(rot.x, t.x, TiltEase);
    LerpStep(rot.y, t.y, TiltEase);
    LerpStep(rot.z, t.z, RollEase);
  }

  // ---------------------------------------------------------------------
  // The mesh and its material uniforms

  class ParticleView {
    var uTime: real
    var uMorph: real
    var uIsScan: real
    var uScatter: real
    var uPinch: real
    var uSpread: real
    /** Positions of the hole slots, three coordinates per slot. */
    const uHoles: array<real>
    /** Creation times of the hole slots. */
    const uHolesTime: array<real>
    /** The mesh rotation (Euler angles x, y, z). */
    var rotation: Vec3
    /** The target shape the morph-reset effect last ran for. */
    var seenTarget: ShapeType

    ghost predicate Valid()
      reads this
    {
      uHoles.Length == 3 * MaxHoles && uHolesTime.Length == MaxHoles && uHoles != uHolesTime
    }

    /** The blend uniforms stay in [0, 1]. */
    ghost predicate InRange()
      reads this
    {
      0.0 <= uMorph <= 1.0 && 0.0 <= uIsScan <= 1.0 && 0.0 <= uPinch <= 1.0
    }

    /** The material as first created: every hole slot empty. */
    constructor (target: ShapeType)
      ensures Valid() && InRange()
      ensures uTime == 0.0 && uMorph == 0.0 && uIsScan == 0.0 && uScatter == 0.0
      ensures uPinch == 0.0 && uSpread == 1.0
      ensures uHoles[..] == seq(3 * MaxHoles, _ => 0.0)
      ensures uHolesTime[..] == seq(MaxHoles, _ => NoHoleTime)
      ensures rotation == Vec3(0.0, 0.0, 0.0) && seenTarget == target
      ensures fresh(uHoles) && fresh(uHolesTime)
    {
      uTime, uMorph, uIsScan, uScatter := 0.0, 0.0, 0.0, 0.0;
      uPinch, uSpread := 0.0, 1.0;
      uHoles := new real[3 * MaxHoles](_ => 0.0);
      uHolesTime := new real[MaxHoles](_ => NoHoleTime);
      rotation := Vec3(0.0, 0.0, 0.0);
      seenTarget := target;
    }

    /** The effect keyed on the target shape: a new target restarts the
        morph uniform from 0. */
    method SyncTargetShape(target: ShapeType)
      modifies this
      ensures target != old(seenTarget) ==> uMorph == 0.0
      ensures target == old(seenTarget) ==> uMorph == old(uMorph)
      ensures seenTarget == target
      ensures uTime == old(uTime) && uIsScan == old(uIsScan) && uScatter == old(uScatter)
      ensures uPinch == old(uPinch) && uSpread == old(uSpread) && rotation == old(rotation)
      ensures old(InRange()) ==> InRange()
    {
      if target != seenTarget {
        uMorph := 0.0;
      }
      seenTarget := target;
    }

    /** Copy the first five holes into the slots; a slot without a hole gets
        the empty time and keeps its old position. */
    method PackHoles(holes: seq<HoleInteraction>)
      requires Valid()
      modifies uHoles, uHolesTime
      ensures forall k :: 0 <= k < 3 * MaxHoles ==> uHoles[k] == SlotCoord(holes, old(uHoles[..]), k)
      ensures forall i :: 0 <= i < MaxHoles ==> uHolesTime[i] == SlotTime(holes, i)
    {
      ghost var prev := uHoles[..];
      for i := 0 to MaxHoles
        invariant forall k :: 0 <= k < 3 * i ==> uHoles[k] == SlotCoord(holes, prev, k)
        invariant forall k :: 3 * i <= k < 3 * MaxHoles ==> uHoles[k] == prev[k]
        invariant forall j :: 0 <= j < i ==> uHolesTime[j] == SlotTime(holes, j)
      {
        if i < |holes| {
          uHoles[3 * i] := holes[i].position.x;
          uHoles[3 * i + 1] := holes[i].position.y;
          uHoles[3 * i + 2] := holes[i].position.z;
          uHolesTime[i] := holes[i].timestamp;
        } else {
          uHolesTime[i] := NoHoleTime;
        }
      }
    }

    /** One animation frame at clock reading `time`, `delta` seconds after the
        previous one. The shape flags are those of the last render, taken here
        as the store's values when the frame starts. */
    method Frame(store: Store.AppStore, time: real, delta: real)
      requires Valid() && store.Valid()
      modifies this, uHoles, uHolesTime, store
      ensures Valid() && store.Valid()
      ensures uTime == time
      ensures uIsScan == ScanBlend(old(uIsScan),
        InScanMode(old(store.currentShape), old(store.targetShape), old(store.isMorphing), old(uMorph)))
      ensures uScatter == Store.Decayed(old(store.scatterIntensity))
      ensures var live := Store.LiveHoles(old(store.holes), time);
        && (forall k :: 0 <= k < 3 * MaxHoles ==> uHoles[k] == SlotCoord(live, old(uHoles[..]), k))
        && (forall i :: 0 <= i < MaxHoles ==> uHolesTime[i] == SlotTime(live, i))
      ensures var m := MorphStep(old(store.isMorphing), old(uMorph), delta);
        var s := old(store.Snapshot()).(
          scatterIntensity := Store.Decayed(old(store.scatterIntensity)),
          holes := Store.LiveHoles(old(store.holes), time));
        && uMorph == m.progress
        && store.Snapshot() == (if m.complete then s.(currentShape := s.targetShape, isMorphing := false) else s)
      ensures var t := TargetsFor(old(store.handState), old(store.isPinchEnabled));
        uPinch == Lerp(old(uPinch), t.pinch, t.ease) && uSpread == Lerp(old(uSpread), t.spread, t.ease)
      ensures rotation == RotationStep(old(rotation), old(store.handState), old(store.isRotationControlEnabled))
      ensures seenTarget == old(seenTarget)
      ensures old(InRange()) && 0.0 <= delta && 0.0 <= old(store.handState.pinchStrength) <= 1.0 ==> InRange()
      ensures old(store.ScatterInRange()) ==> store.ScatterInRange()
    {
      var isMorphing := store.isMorphing;
      var rotationOn := store.isRotationControlEnabled;

      uTime := time;
      uIsScan := ScanBlend(uIsScan, InScanMode(store.currentShape, store.targetShape, isMorphing, uMorph));

      store.UpdateEffects(time);
      uScatter := store.scatterIntensity;
      PackHoles(store.holes);
      AdvanceMorph(store, isMorphing, delta);
      EaseGestures(store.handState, store.isPinchEnabled, rotationOn);
    }

    /** The morph branch of the frame. */
    method AdvanceMorph(store: Store.AppStore, isMorphing: bool, delta: real)
      requires store.Valid()
      modifies this`uMorph, store
      ensures store.Valid()
      ensures var m := MorphStep(isMorphing, old(uMorph), delta);
        && uMorph == m.progress
        && store.Snapshot() == (if m.complete
                                then old(store.Snapshot()).(currentShape := old(store.targetShape), isMorphing := false)
                                else old(store.Snapshot()))
    {
      if isMorphing {
        var nextProgress := uMorph + delta * MorphSpeed;
        if nextProgress >= 1.0 {
          store.CompleteMorph();
          uMorph := 1.0;
        } else {
          uMorph := nextProgress;
        }
      } else {
        uMorph := 0.0;
      }
    }

    /** The pinch, spread and rotation easing of the frame. */
    method EaseGestures(hand: HandState, pinchEnabled: bool, rotationOn: bool)
      modifies this`uPinch, this`uSpread, this`rotation
      ensures var t := TargetsFor(hand, pinchEnabled);
        uPinch == Lerp(old(uPinch), t.pinch, t.ease) && uSpread == Lerp(old(uSpread), t.spread, t.ease)
      ensures rotation == RotationStep(old(rotation), hand, rotationOn)
      ensures 0.0 <= old(uPinch) <= 1.0 && 0.0 <= hand.pinchStrength <= 1.0 ==> 0.0 <= uPinch <= 1.0
    {
      var targets := TargetsFor(hand, pinchEnabled);
      if 0.0 <= uPinch <= 1.0 && 0.0 <= hand.pinchStrength <= 1.0 {
        GestureUniformsInRange(uPinch, uSpread, hand, pinchEnabled);
      }
      uPinch := Lerp(uPinch, targets.pinch, targets.ease);
      uSpread := Lerp(uSpread, targets.spread, targets.ease);
      rotation := RotationStep(rotation, hand, rotationOn);
    }
  }
}
