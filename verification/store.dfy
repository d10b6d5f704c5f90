/** The effect and morph store (store.ts): a mutable application state whose
    actions switch between the Idle and Morphing states, add to a capped
    scatter intensity, append time-stamped holes and, once per frame, decay
    the scatter value and expire old holes. */
module Store {
  import opened Types
  import opened Numeric

  const ScatterCap: real := 2.0
  const DecayFactor: real := 0.92
  const DecayFloor: real := 0.01
  /** Seconds a hole stays in the store. */
  const HoleLifetime: real := 2.5
  const SaverCount: nat := 4000
  const HighCount: nat := 12000

  // ---------------------------------------------------------------------
  // Pure computations inside the actions

  /** `Math.min(2.0, s + intensity)` of `triggerScatter`. */
  function CappedScatter(s: real, intensity: real): (r: real)
    ensures r <= ScatterCap
    ensures s + intensity <= ScatterCap ==> r == s + intensity
    ensures ScatterCap < s + intensity ==> r == ScatterCap
    ensures 0.0 <= intensity && s <= ScatterCap ==> s <= r
    ensures 0.0 <= s && 0.0 <= intensity ==> 0.0 <= r
  {
    Min(ScatterCap, s + intensity)
  }

  /** One frame of scatter decay in `updateEffects`: a positive value shrinks
      by 0.92 and snaps to 0 once below 0.01; anything else is kept. */
  function Decayed(s: real): (r: real)
    ensures s <= 0.0 ==> r == s
    ensures 0.0 < s ==> (r == 0.0 <==> s * DecayFactor < DecayFloor)
    ensures 0.0 < s && r != 0.0 ==> r == s * DecayFactor && DecayFloor <= r
    ensures 0.0 <= s ==> 0.0 <= r <= s
    ensures 0.0 < s ==> r < s
  {
    if 0.0 < s then
      var n := s * DecayFactor;
      if n < DecayFloor then 0.0 else n
    else
      s
  }

  /** The scatter value after `k` frames without a trigger. */
  function DecayedTimes(s: real, k: nat): real
  {
    if k == 0 then s else Decayed(DecayedTimes(s, k - 1))
  }

  /** `b^k`. */
  function Pow(b: real, k: nat): real
  {
    if k == 0 then 1.0 else b * Pow(b, k - 1)
  }

  /** `holes.filter(h => now - h.timestamp < 2.5)`. */
  function LiveHoles(holes: seq<HoleInteraction>, now: real): (r: seq<HoleInteraction>)
    ensures |r| <= |holes|
  {
    if holes == [] then []
    else (if Alive(holes[0], now) then [holes[0]] else []) + LiveHoles(holes[1..], now)
  }

  /** The filter's test: the hole is younger than its lifetime. */
  predicate Alive(h: HoleInteraction, now: real)
  {
    now - h.timestamp < HoleLifetime
  }

  /** `mode === 'saver' ? 4000 : 12000` of `setPerformanceMode`. */
  function ParticleCountFor(mode: PerformanceMode): nat
  {
    if mode == Saver then SaverCount else HighCount
  }

  // ---------------------------------------------------------------------
  // Properties of the pure computations

  /** Decay is monotonically non-increasing and never negative. */
  lemma {:induction false} DecayedTimesBounds(s: real, k: nat)
    requires 0.0 <= s
    ensures 0.0 <= DecayedTimes(s, k + 1) <= DecayedTimes(s, k) <= s
  {
    if k > 0 {
      DecayedTimesBounds(s, k - 1);
    }
  }

  /** After `k` frames the scatter value is at most `s * 0.92^k`. */
  lemma {:induction false} DecayedTimesGeometric(s: real, k: nat)
    requires 0.0 <= s
    ensures 0.0 <= DecayedTimes(s, k) <= s * Pow(DecayFactor, k)
  {
    if k > 0 {
      DecayedTimesGeometric(s, k - 1);
      var p := DecayedTimes(s, k - 1);
      assert p * DecayFactor <= s * Pow(DecayFactor, k - 1) * DecayFactor;
    }
  }

  /** Bernoulli's inequality for the decay factor: `0.92^k * (1 + 0.08 k) <= 1`. */
  lemma {:induction false} PowBernoulli(k: nat)
    ensures 0.0 < Pow(DecayFactor, k)
    ensures Pow(DecayFactor, k) * (1.0 + 0.08 * k as real) <= 1.0
  {
    if k > 0 {
      PowBernoulli(k - 1);
      var p := Pow(DecayFactor, k - 1);
      var m := (k - 1) as real;
      assert Pow(DecayFactor, k) == 0.92 * p;
      calc {
        Pow(DecayFactor, k) * (1.0 + 0.08 * k as real);
        == p * (0.92 * (1.08 + 0.08 * m));
        == p * (1.0 + 0.08 * m - 0.0064 * m - 0.0064);
        <= { assert 0.0 <= p * (0.0064 * m + 0.0064); }
           p * (1.0 + 0.08 * m);
      }
    }
  }

  /** Once `s * 0.92^k` is below the floor, `k >= 1` frames have snapped the
      value to exactly 0. */
  lemma {:induction false} DecayedTimesSnaps(s: real, k: nat)
    requires 0.0 <= s && 1 <= k
    requires s * Pow(DecayFactor, k) < DecayFloor
    ensures DecayedTimes(s, k) == 0.0
  {
    DecayedTimesGeometric(s, k - 1);
    var p := DecayedTimes(s, k - 1);
    assert p * DecayFactor <= s * Pow(DecayFactor, k - 1) * DecayFactor;
  }

  /** A bound on the frames decay needs to reach 0 from `s`. */
  function DecayHorizon(s: real): (k: nat)
    requires 0.0 <= s
    ensures 1 <= k
    ensures 1250.0 * s < k as real
  {
    (1250.0 * s).Floor as nat + 1
  }

  /** Scatter converges to exactly 0: without triggers, `DecayHorizon(s)`
      frames bring any non-negative value to 0, and it stays there. */
  lemma DecayReachesZero(s: real, extra: nat)
    requires 0.0 <= s
    ensures DecayedTimes(s, DecayHorizon(s) + extra) == 0.0
  {
    var k := DecayHorizon(s) + extra;
    PowBernoulli(k);
    var p := Pow(DecayFactor, k);
    var grow := 1.0 + 0.08 * k as real;
    MulNonneg(s, 1.0 - p * grow);
    assert s * p * grow <= s;
    if s * p >= DecayFloor {
      MulNonneg(s * p - DecayFloor, grow);
      assert false;
    }
    DecayedTimesSnaps(s, k);
  }

  /** Filtering distributes over concatenation, so the surviving holes keep
      their original order. */
  lemma {:induction false} LiveHolesAppend(a: seq<HoleInteraction>, b: seq<HoleInteraction>, now: real)
    ensures LiveHoles(a + b, now) == LiveHoles(a, now) + LiveHoles(b, now)
  {
    if a != [] {
      assert (a + b)[1..] == a[1..] + b;
      LiveHolesAppend(a[1..], b, now);
    } else {
      assert a + b == b;
    }
  }

  /** Exactly the holes younger than the lifetime survive. */
  lemma {:induction false} LiveHolesMembers(holes: seq<HoleInteraction>, now: real, h: HoleInteraction)
    ensures h in LiveHoles(holes, now) <==> h in holes && Alive(h, now)
  {
    if holes != [] {
      LiveHolesMembers(holes[1..], now, h);
      assert holes == [holes[0]] + holes[1..];
    }
  }

  /** Every survivor is alive. */
  lemma {:induction false} LiveHolesAllAlive(holes: seq<HoleInteraction>, now: real)
    ensures forall h :: h in LiveHoles(holes, now) ==> Alive(h, now)
  {
    forall h | h in LiveHoles(holes, now)
      ensures Alive(h, now)
    {
      LiveHolesMembers(holes, now, h);
    }
  }

  /** A filter that drops nothing returns its input: this is why skipping the
      write when neither count changed is unobservable. */
  lemma {:induction false} LiveHolesKeepsAll(holes: seq<HoleInteraction>, now: real)
    requires |LiveHoles(holes, now)| == |holes|
    ensures LiveHoles(holes, now) == holes
  {
    if holes != [] {
      var rest := LiveHoles(holes[1..], now);
      assert |rest| <= |holes| - 1;
      assert Alive(holes[0], now);
      LiveHolesKeepsAll(holes[1..], now);
    }
  }

  /** A hole stamped `tau` is live for `now < tau + 2.5` and gone from
      `tau + 2.5` on. */
  lemma HoleLifetimeWindow(before: seq<HoleInteraction>, h: HoleInteraction, after: seq<HoleInteraction>, now: real)
    ensures |LiveHoles(before + [h] + after, now)|
         == |LiveHoles(before, now)| + (if now < h.timestamp + HoleLifetime then 1 else 0) + |LiveHoles(after, now)|
    ensures h in LiveHoles(before + [h] + after, now) <==> now < h.timestamp + HoleLifetime
  {
    LiveHolesAppend(before + [h], after, now);
    LiveHolesAppend(before, [h], now);
    LiveHolesMembers(before + [h] + after, now, h);
  }

  // ---------------------------------------------------------------------
  // The store

  /** Every field of the store, as a value. */
  datatype StoreState = StoreState(
    performanceMode: PerformanceMode,
    currentShape: ShapeType,
    targetShape: ShapeType,
    config: ParticleConfig,
    handState: HandState,
    isCameraEnabled: bool,
    isRotationControlEnabled: bool,
    isScatterEnabled: bool,
    isHoleEnabled: bool,
    isPinchEnabled: bool,
    isMorphing: bool,
    morphProgress: real,
    scatterIntensity: real,
    holes: seq<HoleInteraction>)

  class AppStore {
    var performanceMode: PerformanceMode
    var currentShape: ShapeType
    var targetShape: ShapeType
    var config: ParticleConfig
    var handState: HandState
    var isCameraEnabled: bool
    var isRotationControlEnabled: bool
    var isScatterEnabled: bool
    var isHoleEnabled: bool
    var isPinchEnabled: bool
    var isMorphing: bool
    var morphProgress: real
    var scatterIntensity: real
    var holes: seq<HoleInteraction>

    ghost function Snapshot(): StoreState
      reads this
    {
      StoreState(performanceMode, currentShape, targetShape, config, handState,
                 isCameraEnabled, isRotationControlEnabled, isScatterEnabled,
                 isHoleEnabled, isPinchEnabled, isMorphing, morphProgress,
                 scatterIntensity, holes)
    }

    /** The morph invariant: the two shapes agree when Idle, and the store's
        progress field is only ever reset, never advanced. */
    ghost predicate Valid()
      reads this
    {
      && (!isMorphing ==> currentShape == targetShape)
      && morphProgress == 0.0
    }

    /** The scatter value stays in [0, 2] while every trigger is non-negative. */
    ghost predicate ScatterInRange()
      reads this
    {
      0.0 <= scatterIntensity <= ScatterCap
    }

    constructor ()
      ensures Valid() && ScatterInRange()
      ensures performanceMode == High
      ensures currentShape == Saturn && targetShape == Saturn
      ensures config == ParticleConfig(HighCount, 0.12, 0.2, "#FFD700")
      ensures handState == HandState(false, 0.0, 1.0, Vec3(0.0, 0.0, 0.0), 0.0, 0.0)
      ensures !isCameraEnabled && !isRotationControlEnabled
      ensures isScatterEnabled && isHoleEnabled && isPinchEnabled
      ensures !isMorphing && morphProgress == 0.0
      ensures scatterIntensity == 0.0 && holes == []
    {
      performanceMode := High;
      currentShape, targetShape := Saturn, Saturn;
      config := ParticleConfig(HighCount, 0.12, 0.2, "#FFD700");
      handState := HandState(false, 0.0, 1.0, Vec3(0.0, 0.0, 0.0), 0.0, 0.0);
      isCameraEnabled := false;
      isRotationControlEnabled := false;
      isScatterEnabled, isHoleEnabled, isPinchEnabled := true, true, true;
      isMorphing, morphProgress := false, 0.0;
      scatterIntensity, holes := 0.0, [];
    }

    /** Switch the performance mode and the particle count that goes with it. */
    method SetPerformanceMode(mode: PerformanceMode)
      requires Valid()
      modifies this
      ensures Valid()
      ensures Snapshot() == old(Snapshot()).(
        performanceMode := mode,
        config := old(config).(count := ParticleCountFor(mode)))
    {
      performanceMode := mode;
      config := config.(count := ParticleCountFor(mode));
    }

    /** Request a shape: a no-op for the current shape; otherwise (re)target
        and restart the morph, replacing any pending target. */
    method SetShape(shape: ShapeType)
      requires Valid()
      modifies this
      ensures Valid()
      ensures old(currentShape) == shape ==> Snapshot() == old(Snapshot())
      ensures old(currentShape) != shape ==>
        Snapshot() == old(Snapshot()).(targetShape := shape, isMorphing := true, morphProgress := 0.0)
    {
      if currentShape == shape {
        return;
      }
      targetShape, isMorphing, morphProgress := shape, true, 0.0;
    }

    method SetConfig(patch: ConfigPatch)
      requires Valid()
      modifies this
      ensures Valid()
      ensures Snapshot() == old(Snapshot()).(config := MergeConfig(old(config), patch))
    {
      config := MergeConfig(config, patch);
    }

    method SetHandState(patch: HandPatch)
      requires Valid()
      modifies this
      ensures Valid()
      ensures Snapshot() == old(Snapshot()).(handState := MergeHand(old(handState), patch))
    {
      handState := MergeHand(handState, patch);
    }

    method ToggleCamera()
      requires Valid()
      modifies this
      ensures Valid()
      ensures Snapshot() == old(Snapshot()).(isCameraEnabled := !old(isCameraEnabled))
    {
      isCameraEnabled := !isCameraEnabled;
    }

    method ToggleRotationControl()
      requires Valid()
      modifies this
      ensures Valid()
      ensures Snapshot() == old(Snapshot()).(isRotationControlEnabled := !old(isRotationControlEnabled))
    {
      isRotationControlEnabled := !isRotationControlEnabled;
    }

    method ToggleScatter()
      requires Valid()
      modifies this
      ensures Valid()
      ensures Snapshot() == old(Snapshot()).(isScatterEnabled := !old(isScatterEnabled))
    {
      isScatterEnabled := !isScatterEnabled;
    }

    method ToggleHole()
      requires Valid()
      modifies this
      ensures Valid()
      ensures Snapshot() == old(Snapshot()).(isHoleEnabled := !old(isHoleEnabled))
    {
      isHoleEnabled := !isHoleEnabled;
    }

    method TogglePinch()
      requires Valid()
      modifies this
      ensures Valid()
      ensures Snapshot() == old(Snapshot()).(isPinchEnabled := !old(isPinchEnabled))
    {
      isPinchEnabled := !isPinchEnabled;
    }

    method StartMorph()
      requires Valid()
      modifies this
      ensures Valid()
      ensures Snapshot() == old(Snapshot()).(isMorphing := true)
    {
      isMorphing := true;
    }

    /** Finish the morph: the target becomes the current shape and the store
        returns to Idle. */
    method CompleteMorph()
      requires Valid()
      modifies this
      ensures Valid()
      ensures currentShape == targetShape
      ensures Snapshot() == old(Snapshot()).(
        currentShape := old(targetShape), isMorphing := false, morphProgress := 0.0)
    {
      currentShape, isMorphing, morphProgress := targetShape, false, 0.0;
    }

    /** Add a wave's intensity, capped at 2.0; ignored while scatter is off. */
    method TriggerScatter(intensity: real)
      requires Valid()
      modifies this
      ensures Valid()
      ensures !old(isScatterEnabled) ==> Snapshot() == old(Snapshot())
      ensures old(isScatterEnabled) ==>
        Snapshot() == old(Snapshot()).(scatterIntensity := CappedScatter(old(scatterIntensity), intensity))
      ensures old(ScatterInRange()) && 0.0 <= intensity ==> ScatterInRange()
    {
      if !isScatterEnabled {
        return;
      }
      scatterIntensity := Min(ScatterCap, scatterIntensity + intensity);
    }

    /** Append a hole at `position`, with the caller's random `id` and clock
        reading `stamp` (seconds); ignored while holes are off. */
    method TriggerHole(position: Vec3, id: real, stamp: real)
      requires Valid()
      modifies this
      ensures Valid()
      ensures !old(isHoleEnabled) ==> Snapshot() == old(Snapshot())
      ensures old(isHoleEnabled) ==>
        Snapshot() == old(Snapshot()).(holes := old(holes) + [HoleInteraction(id, position, stamp)])
    {
      if !isHoleEnabled {
        return;
      }
      holes := holes + [HoleInteraction(id, position, stamp)];
    }

    /** The per-frame step: decay the scatter value and drop expired holes,
        writing the state only when one of them changed. */
    method UpdateEffects(now: real)
      requires Valid()
      modifies this
      ensures Valid()
      ensures Snapshot() == old(Snapshot()).(
        scatterIntensity := Decayed(old(scatterIntensity)),
        holes := LiveHoles(old(holes), now))
      ensures old(ScatterInRange()) ==> ScatterInRange()
    {
      var newScatter := scatterIntensity;
      if newScatter > 0.0 {
        newScatter := newScatter * DecayFactor;
        if newScatter < DecayFloor {
          newScatter := 0.0;
        }
      }
      var newHoles := LiveHoles(holes, now);
      if newScatter != scatterIntensity || |newHoles| != |holes| {
        scatterIntensity, holes := newScatter, newHoles;
      } else {
        LiveHolesKeepsAll(holes, now);
      }
    }
  }
}
