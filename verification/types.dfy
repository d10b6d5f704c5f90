/** The value types of the application state (types.ts). Numbers are exact
    reals; the source's `number` is an IEEE double. */
module Types {

  /** The five particle shapes the scene can take. */
  datatype ShapeType = Heart | Flower | Saturn | Scan | Fireworks

  /** `high` runs the detector on every call; `saver` throttles it and uses
      fewer particles. */
  datatype PerformanceMode = High | Saver

  datatype Option<T> = None | Some(value: T)

  datatype Vec3 = Vec3(x: real, y: real, z: real)

  /** Component `c` (0, 1 or 2) of a position. */
  function Coord(v: Vec3, c: nat): real
  {
    if c == 0 then v.x else if c == 1 then v.y else v.z
  }

  /** `ParticleConfig`: particle count, point size, noise strength, colour. */
  datatype ParticleConfig = ParticleConfig(count: nat, size: real, noiseStrength: real, color: string)

  /** `Partial<ParticleConfig>`: the fields `setConfig` overwrites. */
  datatype ConfigPatch = ConfigPatch(
    count: Option<nat>, size: Option<real>, noiseStrength: Option<real>, color: Option<string>)

  /** `HoleInteraction`: one flick-created tunnel, stamped in seconds. */
  datatype HoleInteraction = HoleInteraction(id: real, position: Vec3, timestamp: real)

  /** `HandState`: the smoothed gesture signals published to the scene. */
  datatype HandState = HandState(
    detected: bool,
    pinchStrength: real,
    spreadDistance: real,
    handCenter: Vec3,
    rotation: real,
    velocity: real)

  /** `Partial<HandState>`: the fields `setHandState` overwrites. */
  datatype HandPatch = HandPatch(
    detected: Option<bool>,
    pinchStrength: Option<real>,
    spreadDistance: Option<real>,
    handCenter: Option<Vec3>,
    rotation: Option<real>,
    velocity: Option<real>)

  function OrElse<T>(o: Option<T>, default: T): (r: T)
    ensures o.Some? ==> r == o.value
    ensures o.None? ==> r == default
  {
    match o
    case Some(v) => v
    case None => default
  }

  /** The object spread `{ ...handState, ...patch }`. */
  function MergeHand(h: HandState, p: HandPatch): HandState
  {
    HandState(
      OrElse(p.detected, h.detected),
      OrElse(p.pinchStrength, h.pinchStrength),
      OrElse(p.spreadDistance, h.spreadDistance),
      OrElse(p.handCenter, h.handCenter),
      OrElse(p.rotation, h.rotation),
      OrElse(p.velocity, h.velocity))
  }

  /** The object spread `{ ...config, ...patch }`. */
  function MergeConfig(c: ParticleConfig, p: ConfigPatch): ParticleConfig
  {
    ParticleConfig(
      OrElse(p.count, c.count),
      OrElse(p.size, c.size),
      OrElse(p.noiseStrength, c.noiseStrength),
      OrElse(p.color, c.color))
  }

  /** A patch that names every field. */
  function FullPatch(h: HandState): HandPatch
  {
    HandPatch(Some(h.detected), Some(h.pinchStrength), Some(h.spreadDistance),
              Some(h.handCenter), Some(h.rotation), Some(h.velocity))
  }

  /** `{ detected: false, velocity: 0 }`, sent when the hand is lost. */
  const LostHandPatch: HandPatch :=
    HandPatch(Some(false), None, None, None, None, Some(0.0))

  /** Merging a patch that names every field replaces the whole hand state. */
  lemma MergeFullPatch(h: HandState, h': HandState)
    ensures MergeHand(h, FullPatch(h')) == h'
  {
  }

  /** Losing the hand clears `detected` and `velocity` and keeps the rest. */
  lemma MergeLostPatch(h: HandState)
    ensures MergeHand(h, LostHandPatch) == h.(detected := false, velocity := 0.0)
  {
  }
}
