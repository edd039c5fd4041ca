/** The balance watchdog (Scripts/BoatBalanceScript.cs) as functions: the wheel ground
    tolerance test, the stuck timer, and the frame tick that chooses between damping a flip
    and pushing a stuck boat up.

    Every ray the script casts becomes an input distance. A ray that hits nothing reports
    distance 0 in the engine, and the model takes the distance as given. */
module Balance {
  import opened Transforms

  /** Designer-tuned constants (BoatBalanceScript.cs:11-15). */
  datatype Config = Config(
    preventFlippingUnderUnits: real,
    waitStuckWheelsTime: real,
    wheelOnGroundTolerance: real)

  const DefaultConfig := Config(5.0, 1.0, 0.2)

  /** The script's own fields. */
  datatype Watch = Watch(radius: real, waitStuckWheelsTimer: real, distanceFromGround: real)

  /** The downward ray distance under each wheel. */
  datatype WheelRays = WheelRays(fl: real, fr: real, rl: real, rr: real)

  /** What one frame senses: the downward ray distance under the body, the rays under the
      wheels, the body's speed (velocity magnitude), its local up vector, and the frame's
      elapsed time. */
  datatype Sensors = Sensors(
    groundDistance: real,
    wheels: WheelRays,
    bodySpeed: real,
    up: Vec3,
    dt: real)

  /** StartBalance: timer 0, radius of the front-left wheel, and the current ground
      distance taken as the normal one. */
  function StartBalance(flRadius: real, groundDistance: real): Watch {
    Watch(flRadius, 0.0, groundDistance)
  }

  /** One wheel is out of place when its ray is shorter than the radius less the tolerance,
      or longer than the radius plus the tolerance. */
  predicate WheelOutOfPlace(cfg: Config, radius: real, distance: real) {
    distance < radius - radius * cfg.wheelOnGroundTolerance ||
    distance > radius + radius * cfg.wheelOnGroundTolerance
  }

  predicate IsAnyOfWheelsBelowGround(cfg: Config, radius: real, rays: WheelRays) {
    WheelOutOfPlace(cfg, radius, rays.fl) || WheelOutOfPlace(cfg, radius, rays.fr) ||
    WheelOutOfPlace(cfg, radius, rays.rl) || WheelOutOfPlace(cfg, radius, rays.rr)
  }

  predicate IsLessThenUnitsAboveGround(groundDistance: real, units: real) {
    groundDistance < units
  }

  /** The stuck timer after one evaluation, and whether it reported the boat stuck. */
  datatype StuckCheck = StuckCheck(timer: real, stuck: bool)

  /** AreWheelsStuck: while a wheel is out of place or the body barely moves the timer
      grows; reaching the wait time resets it and reports stuck. Otherwise it resets. */
  function AreWheelsStuck(cfg: Config, timer: real, belowGround: bool, bodySpeed: real, dt: real)
    : StuckCheck
  {
    if belowGround || bodySpeed < 1.0 then
      var t := timer + dt;
      if t >= cfg.waitStuckWheelsTime then StuckCheck(0.0, true) else StuckCheck(t, false)
    else StuckCheck(0.0, false)
  }

  /** UnstuckWheels: the position pushed along local up by the normal ground distance. */
  function UnstuckWheels(position: Vec3, distanceFromGround: real, up: Vec3): Vec3 {
    position.Plus(up.Scale(distanceFromGround))
  }

  /** What a frame did to the boat. FlipDamped stands for the rotation the flip damping
      applies, which is not modelled. */
  datatype Correction = Untouched | FlipDamped | PushedUp

  /** The outcome of a frame: the script's fields, the boat's position, the correction. */
  datatype Tick = Tick(watch: Watch, position: Vec3, correction: Correction)

  /** Update: nothing happens unless the controller reports a minimum speed; high above the
      ground the flip is damped; near it the stuck check runs, and a stuck boat is pushed. */
  function Update(cfg: Config, w: Watch, moving: bool, s: Sensors, position: Vec3): Tick {
    if !moving then Tick(w, position, Untouched)
    else if !IsLessThenUnitsAboveGround(s.groundDistance, cfg.preventFlippingUnderUnits) then
      Tick(w, position, FlipDamped)
    else
      var check := AreWheelsStuck(cfg, w.waitStuckWheelsTimer,
                                  IsAnyOfWheelsBelowGround(cfg, w.radius, s.wheels),
                                  s.bodySpeed, s.dt);
      var next := w.(waitStuckWheelsTimer := check.timer);
      if check.stuck then Tick(next, UnstuckWheels(position, w.distanceFromGround, s.up), PushedUp)
      else Tick(next, position, Untouched)
  }

  /** One frame's inputs: the controller's speed gate and the sensors. */
  datatype Frame = Frame(moving: bool, sensors: Sensors)

  /** A run of frames, first frame first; the correction is the last frame's. */
  function Run(cfg: Config, w: Watch, position: Vec3, frames: seq<Frame>): Tick
    decreases |frames|
  {
    if frames == [] then Tick(w, position, Untouched)
    else
      var t := Update(cfg, w, frames[0].moving, frames[0].sensors, position);
      if |frames| == 1 then t else Run(cfg, t.watch, t.position, frames[1..])
  }

  /** Total time of a run of frames (each script's frame type has its own sum). */
  function Elapsed(frames: seq<Frame>): real
    decreases |frames|
  {
    if frames == [] then 0.0 else frames[0].sensors.dt + Elapsed(frames[1..])
  }
}
