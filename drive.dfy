/** The boat's drive controller (Scripts/BoatController.cs) as functions on a snapshot of
    its fields: the engine/turbo/stun/top-speed state machine driven by the frame tick, and
    the actuation decision taken on every physics tick for the four wheels.

    Floats are modelled as reals; every comparison of the source is kept with its own
    strictness. The rounded wheel speed and the interpolated steer angle are inputs. */
module Drive {

  /** Designer-tuned constants (BoatController.cs:45-57). The steer-angle pair, the spin
      constants and the centre of mass feed only computations that are inputs here. */
  datatype Config = Config(
    minimumSpeed: real,
    engineSpeed: real,
    turboSpeed: real,
    hillAngle: real,
    decelerationSpeed: real,
    turboTime: real,
    maxTorque: real,
    maxBreakTorque: real,
    maxReverseSpeed: real)

  /** The values the component ships with. */
  const DefaultConfig := Config(50.0, 350.0, 500.0, 60.0, 100.0, 5.0, 200.0, 100.0, -50.0)

  /** The largest finite single-precision float, used by FreezeBoat. */
  const MaxFloat: real := 340282346638528859811704183484516925440.0

  /** A wheel's friction curve: four shape parameters and the stiffness scale. */
  datatype FrictionCurve = FrictionCurve(
    extremumSlip: real,
    extremumValue: real,
    asymptoteSlip: real,
    asymptoteValue: real,
    stiffness: real)

  /** What the controller reads from and writes into one wheel collider. */
  datatype Wheel = Wheel(
    radius: real,
    motorTorque: real,
    brakeTorque: real,
    steerAngle: real,
    forwardFriction: FrictionCurve,
    sidewaysFriction: FrictionCurve)

  /** The four wheels: front pair steers, rear pair drives and brakes. */
  datatype Wheels = Wheels(fl: Wheel, fr: Wheel, rl: Wheel, rr: Wheel)

  /** The fields the frame tick works on: the top-speed gate, engine, turbo, stun, hill
      and spin state. */
  datatype Engine = Engine(
    topSpeed: real,
    engineOn: bool,
    isTurbo: bool,
    turboTimer: real,
    engineStopped: bool,
    stopEngineTimer: real,
    stopEngineTime: real,
    goingUpHill: bool,
    spinning: bool)

  /** Every private field of the controller, and its four wheels. */
  datatype State = State(
    engine: Engine,
    maxTorque: real,
    maxBrakeTorque: real,
    currentSpeed: real,
    braked: bool,
    forwardFriction: real,
    sidewayFriction: real,
    slipForwardFriction: real,
    slipSidewayFriction: real,
    wheels: Wheels)

  /** The frame-tick fields at rest: every number 0, every flag false. */
  const IdleEngine := Engine(0.0, false, false, 0.0, false, 0.0, 0.0, false, false)

  /** The fields as the component is created: every number 0, every flag false. */
  function Fresh(wheels: Wheels): State {
    State(IdleEngine, 0.0, 0.0, 0.0, false, 0.0, 0.0, 0.0, 0.0, wheels)
  }

  /** SetEngineValues: reset the engine state; wheels and friction are kept. */
  function SetEngineValues(cfg: Config, s: State): State {
    s.(maxTorque := cfg.maxTorque, braked := false, maxBrakeTorque := cfg.maxBreakTorque,
       currentSpeed := 0.0, engine := IdleEngine)
  }

  /** SetDriftValues: the normal stiffness is captured from the rear-right wheel, the slip
      stiffness is the constant 2. */
  function SetDriftValues(s: State): State {
    s.(forwardFriction := s.wheels.rr.forwardFriction.stiffness,
       sidewayFriction := s.wheels.rr.sidewaysFriction.stiffness,
       slipForwardFriction := 2.0, slipSidewayFriction := 2.0)
  }

  /** Start: the state once the wheels are bound. */
  function Start(cfg: Config, wheels: Wheels): State {
    SetDriftValues(SetEngineValues(cfg, Fresh(wheels)))
  }

  /** The speed gate the balance watchdog and the triggers read. */
  predicate HasMinimumSpeed(e: Engine) {
    e.topSpeed > 0.0
  }

  function Turbo(cfg: Config, e: Engine, on: bool): Engine {
    if on then e.(isTurbo := true, topSpeed := cfg.turboSpeed, turboTimer := 0.0)
    else e.(isTurbo := false, topSpeed := cfg.engineSpeed)
  }

  function StartEngine(cfg: Config, e: Engine): Engine {
    if !e.isTurbo then e.(topSpeed := cfg.engineSpeed, engineOn := true) else e
  }

  function StopEngine(cfg: Config, e: Engine): Engine {
    if !e.isTurbo then e.(topSpeed := cfg.minimumSpeed, engineOn := false) else e
  }

  function UpdateTurbo(cfg: Config, e: Engine, dt: real): Engine {
    if e.isTurbo then
      var t := e.(turboTimer := e.turboTimer + dt);
      if t.turboTimer > cfg.turboTime then Turbo(cfg, t, false) else t
    else e
  }

  /** The pitch band of a climb that is too steep: strictly between 270 and 270 + HillAngle. */
  predicate InHillBand(cfg: Config, pitch: real) {
    pitch < cfg.hillAngle + 270.0 && pitch > 270.0
  }

  function CheckUpHill(cfg: Config, e: Engine, pitch: real): Engine {
    if InHillBand(cfg, pitch) then Turbo(cfg, e.(goingUpHill := true), false) else e
  }

  function StopEngineFor(cfg: Config, e: Engine, seconds: real): Engine {
    StopEngine(cfg, e.(stopEngineTimer := 0.0, stopEngineTime := seconds, engineStopped := true))
  }

  function RemoveStopEngineFor(cfg: Config, e: Engine): Engine {
    StartEngine(cfg, e.(stopEngineTimer := 0.0, engineStopped := false))
  }

  function UpdateStopEngineFor(cfg: Config, e: Engine, dt: real): Engine {
    var t := e.(stopEngineTimer := e.stopEngineTimer + dt);
    if t.stopEngineTimer > t.stopEngineTime then RemoveStopEngineFor(cfg, t) else t
  }

  function FreezeBoat(cfg: Config, e: Engine): Engine {
    StopEngineFor(cfg, e, MaxFloat)
  }

  function SetStartingSpeed(cfg: Config, e: Engine): Engine {
    e.(topSpeed := cfg.minimumSpeed)
  }

  /** SpinIt raises the flag; the deferred DisableSpin callback clears it. */
  function SpinIt(e: Engine): Engine {
    e.(spinning := true)
  }

  function DisableSpin(e: Engine): Engine {
    e.(spinning := false)
  }

  /** The inputs of one frame: elapsed time, the body's pitch (euler x), and whether the
      engine key W and the turbo key E went down this frame. */
  datatype Frame = Frame(dt: real, pitch: real, keyW: bool, keyE: bool)

  /** Update: the frame tick. */
  function Update(cfg: Config, e: Engine, f: Frame): Engine {
    var hill := CheckUpHill(cfg, e, f.pitch);
    var stun := if hill.engineStopped then UpdateStopEngineFor(cfg, hill, f.dt) else hill;
    if stun.spinning || stun.engineStopped then stun
    else
      var engine :=
        if f.keyW then (if stun.engineOn then StopEngine(cfg, stun) else StartEngine(cfg, stun))
        else stun;
      var turbo := if f.keyE && !engine.isTurbo then Turbo(cfg, engine, true) else engine;
      UpdateTurbo(cfg, turbo, f.dt)
  }

  /** A run of frame ticks, first frame first. */
  function Run(cfg: Config, e: Engine, frames: seq<Frame>): Engine
    decreases |frames|
  {
    if frames == [] then e else Run(cfg, Update(cfg, e, frames[0]), frames[1..])
  }

  /** Total time elapsed over a run of frames (each script's frame type has its own sum). */
  function Elapsed(frames: seq<Frame>): real
    decreases |frames|
  {
    if frames == [] then 0.0 else frames[0].dt + Elapsed(frames[1..])
  }

  /** The inputs of one physics tick: the rounded speed computed from the rear-left wheel,
      the vertical axis and whether its button is held, the steer angle interpolated for
      the current speed, the horizontal axis, the handbrake key, and the body's speed. */
  datatype Controls = Controls(
    speed: real,
    vertical: real,
    verticalHeld: bool,
    steerCurve: real,
    horizontal: real,
    handbrake: bool,
    bodySpeed: real)

  function CalculateSpeed(s: State, speed: real): State {
    s.(currentSpeed := speed)
  }

  /** The speed band in which torque is applied. */
  predicate InTorqueBand(cfg: Config, s: State) {
    s.currentSpeed < s.engine.topSpeed && s.currentSpeed > cfg.maxReverseSpeed && !s.braked
  }

  function SetRearTorque(w: Wheels, torque: real): Wheels {
    w.(rr := w.rr.(motorTorque := torque), rl := w.rl.(motorTorque := torque))
  }

  function SetRearBrake(w: Wheels, torque: real): Wheels {
    w.(rr := w.rr.(brakeTorque := torque), rl := w.rl.(brakeTorque := torque))
  }

  function ApplyTorque(cfg: Config, s: State, vertical: real): State {
    if InTorqueBand(cfg, s) then
      if !s.engine.isTurbo && (vertical < 0.0 || s.engine.goingUpHill) then
        var axis := if s.engine.goingUpHill then -1.0 else vertical;
        s.(wheels := SetRearTorque(s.wheels, (s.maxTorque / 2.0) * axis),
           engine := s.engine.(goingUpHill := false))
      else s.(wheels := SetRearTorque(s.wheels, s.maxTorque))
    else s.(wheels := SetRearTorque(s.wheels, 0.0))
  }

  function ApplyBrakes(cfg: Config, s: State, verticalHeld: bool): State {
    if !verticalHeld then s.(wheels := SetRearBrake(s.wheels, cfg.decelerationSpeed))
    else s.(wheels := SetRearBrake(s.wheels, 0.0))
  }

  function Steer(s: State, steerCurve: real, horizontal: real): State {
    var angle := steerCurve * horizontal;
    s.(wheels := s.wheels.(fl := s.wheels.fl.(steerAngle := angle),
                           fr := s.wheels.fr.(steerAngle := angle)))
  }

  /** SetSlip: both rear wheels get the rear-right forward curve with the given stiffness,
      as their forward curve and, with the second stiffness, as their sideways curve. */
  function SetSlip(w: Wheels, forward: real, sideway: real): Wheels {
    var curve := w.rr.forwardFriction;
    var fwd := curve.(stiffness := forward);
    var side := curve.(stiffness := sideway);
    w.(rr := w.rr.(forwardFriction := fwd, sidewaysFriction := side),
       rl := w.rl.(forwardFriction := fwd, sidewaysFriction := side))
  }

  /** ApplyHandBrakes: both branches of the body-speed test set the normal friction. */
  function ApplyHandBrakes(s: State, handbrake: bool, bodySpeed: real): State {
    var b := s.(braked := handbrake);
    if b.braked then
      var held := SetRearTorque(SetRearBrake(b.wheels, b.maxBrakeTorque), 0.0);
      if bodySpeed > 1.0 then b.(wheels := SetSlip(held, b.forwardFriction, b.sidewayFriction))
      else b.(wheels := SetSlip(held, b.forwardFriction, b.sidewayFriction))
    else b.(wheels := SetSlip(b.wheels, b.forwardFriction, b.sidewayFriction))
  }

  /** Control: one physics tick of actuation, in the source's order. */
  function Control(cfg: Config, s: State, c: Controls): State {
    var speed := CalculateSpeed(s, c.speed);
    var torque := ApplyTorque(cfg, speed, c.vertical);
    var brakes := ApplyBrakes(cfg, torque, c.verticalHeld);
    var steer := Steer(brakes, c.steerCurve, c.horizontal);
    ApplyHandBrakes(steer, c.handbrake, c.bodySpeed)
  }

  /** FixedUpdate: actuation is skipped entirely while spinning. */
  function FixedUpdate(cfg: Config, s: State, c: Controls): State {
    if s.engine.spinning then s else Control(cfg, s, c)
  }
}
