/** What the drive controller promises: the engine/turbo/stun gate over single frames and
    over runs of frames, and the actuation written to the wheels on a physics tick. */
module DriveProperties {
  import opened Drive

  // ---------------------------------------------------------------------------------------
  // Runs of frames

  /** Every frame of the run has a non-negative duration. The balance watchdog has its own
      Forward, Elapsed and RunAppend because its frames carry different inputs. */
  predicate Forward(frames: seq<Frame>) {
    forall i :: 0 <= i < |frames| ==> frames[i].dt >= 0.0
  }

  /** No frame of the run finds the body in the too-steep pitch band. */
  predicate Level(cfg: Config, frames: seq<Frame>) {
    forall i :: 0 <= i < |frames| ==> !InHillBand(cfg, frames[i].pitch)
  }

  lemma {:induction false} ElapsedNonNegative(frames: seq<Frame>)
    requires Forward(frames)
    ensures Elapsed(frames) >= 0.0
    decreases |frames|
  {
    if frames != [] {
      ElapsedNonNegative(frames[1..]);
    }
  }

  /** Running a frame after a run is running the longer run. */
  lemma {:induction false} RunAppend(cfg: Config, e: Engine, frames: seq<Frame>, last: Frame)
    ensures Run(cfg, e, frames + [last]) == Update(cfg, Run(cfg, e, frames), last)
    decreases |frames|
  {
    if frames == [] {
      assert frames + [last] == [last];
    } else {
      assert (frames + [last])[1..] == frames[1..] + [last];
      RunAppend(cfg, Update(cfg, e, frames[0]), frames[1..], last);
    }
  }

  // ---------------------------------------------------------------------------------------
  // Start-up and the gate

  /** After Start the boat has no top speed, the engine is off, and nothing is active; the
      normal friction is the rear-right wheel's. */
  lemma StartIsIdle(cfg: Config, wheels: Wheels)
    ensures var s := Start(cfg, wheels);
      && s.engine.topSpeed == 0.0 && !HasMinimumSpeed(s.engine)
      && !s.engine.engineOn && !s.engine.isTurbo && !s.engine.engineStopped
      && !s.engine.spinning && !s.engine.goingUpHill && !s.braked
      && s.engine.turboTimer == 0.0 && s.engine.stopEngineTimer == 0.0
      && s.forwardFriction == wheels.rr.forwardFriction.stiffness
      && s.sidewayFriction == wheels.rr.sidewaysFriction.stiffness
      && s.maxTorque == cfg.maxTorque && s.maxBrakeTorque == cfg.maxBreakTorque
      && s.wheels == wheels
  {
  }

  /** The top speed is always one of the four configured ceilings, and it is the turbo
      ceiling whenever turbo is on. The frame tick and the stuns keep it, but the public
      SetStartingSpeed does not (StartingSpeedBreaksGate). */
  predicate Gate(cfg: Config, e: Engine) {
    && (e.topSpeed == 0.0 || e.topSpeed == cfg.minimumSpeed
        || e.topSpeed == cfg.engineSpeed || e.topSpeed == cfg.turboSpeed)
    && (e.isTurbo ==> e.topSpeed == cfg.turboSpeed)
  }

  lemma GateAtStart(cfg: Config, wheels: Wheels)
    ensures Gate(cfg, Start(cfg, wheels).engine)
  {
  }

  /** Every frame tick and every stun keeps the gate. */
  lemma GateKeptByFrame(cfg: Config, e: Engine, f: Frame, seconds: real)
    requires Gate(cfg, e)
    ensures Gate(cfg, Update(cfg, e, f))
    ensures Gate(cfg, StopEngineFor(cfg, e, seconds))
    ensures Gate(cfg, RemoveStopEngineFor(cfg, e))
  {
    var hill := CheckUpHill(cfg, e, f.pitch);
    assert Gate(cfg, hill);
    var stun := if hill.engineStopped then UpdateStopEngineFor(cfg, hill, f.dt) else hill;
    assert Gate(cfg, stun);
    if !(stun.spinning || stun.engineStopped) {
      var engine :=
        if f.keyW then (if stun.engineOn then StopEngine(cfg, stun) else StartEngine(cfg, stun))
        else stun;
      assert Gate(cfg, engine);
      var turbo := if f.keyE && !engine.isTurbo then Turbo(cfg, engine, true) else engine;
      assert Gate(cfg, turbo);
    }
  }

  /** The gate holds after any run of frames that starts from it. */
  lemma {:induction false} GateKeptByRuns(cfg: Config, e: Engine, frames: seq<Frame>)
    requires Gate(cfg, e)
    ensures Gate(cfg, Run(cfg, e, frames))
    decreases |frames|
  {
    if frames != [] {
      GateKeptByFrame(cfg, e, frames[0], 0.0);
      GateKeptByRuns(cfg, Update(cfg, e, frames[0]), frames[1..]);
    }
  }

  // ---------------------------------------------------------------------------------------
  // Turbo and engine switches

  /** Turbo(true) sets the turbo ceiling and restarts the timer; Turbo(false) always sets
      the engine ceiling, whatever the engine state. Neither touches the engine flag. */
  lemma TurboSwitch(cfg: Config, e: Engine, on: bool)
    ensures var r := Turbo(cfg, e, on);
      && r.isTurbo == on && r.engineOn == e.engineOn
      && r.topSpeed == (if on then cfg.turboSpeed else cfg.engineSpeed)
      && r.turboTimer == (if on then 0.0 else e.turboTimer)
      && r.engineStopped == e.engineStopped
  {
  }

  /** Starting or stopping the engine changes nothing while turbo is on. */
  lemma EngineSwitch(cfg: Config, e: Engine)
    ensures e.isTurbo ==> StartEngine(cfg, e) == e && StopEngine(cfg, e) == e
    ensures !e.isTurbo ==>
      && StartEngine(cfg, e) == e.(topSpeed := cfg.engineSpeed, engineOn := true)
      && StopEngine(cfg, e) == e.(topSpeed := cfg.minimumSpeed, engineOn := false)
  {
  }

  /** A turbo that has not yet run for more than TurboTime stays on: its timer is the time
      elapsed, the engine keys change nothing, and the top speed stays where it was. */
  lemma {:induction false} TurboHolds(cfg: Config, e: Engine, frames: seq<Frame>)
    requires e.isTurbo && !e.engineStopped && !e.spinning
    requires Forward(frames) && Level(cfg, frames)
    requires e.turboTimer + Elapsed(frames) <= cfg.turboTime
    ensures var r := Run(cfg, e, frames);
      && r.isTurbo && r.turboTimer == e.turboTimer + Elapsed(frames)
      && r.topSpeed == e.topSpeed && r.engineOn == e.engineOn
      && !r.engineStopped && !r.spinning
    decreases |frames|
  {
    if frames != [] {
      ElapsedNonNegative(frames[1..]);
      var next := Update(cfg, e, frames[0]);
      assert next == e.(turboTimer := e.turboTimer + frames[0].dt);
      TurboHolds(cfg, next, frames[1..]);
    }
  }

  /** On the first frame whose timer exceeds TurboTime (strictly), turbo ends and the top
      speed falls back to the engine ceiling. */
  lemma TurboExpires(cfg: Config, e: Engine, frames: seq<Frame>, last: Frame)
    requires e.isTurbo && !e.engineStopped && !e.spinning
    requires Forward(frames) && Level(cfg, frames + [last])
    requires e.turboTimer + Elapsed(frames) <= cfg.turboTime
    requires e.turboTimer + Elapsed(frames) + last.dt > cfg.turboTime
    ensures var r := Run(cfg, e, frames + [last]);
      !r.isTurbo && r.topSpeed == cfg.engineSpeed && r.engineOn == e.engineOn
  {
    assert !InHillBand(cfg, (frames + [last])[|frames|].pitch);
    assert Level(cfg, frames) by {
      forall i | 0 <= i < |frames| ensures !InHillBand(cfg, frames[i].pitch) {
        assert frames[i] == (frames + [last])[i];
      }
    }
    TurboHolds(cfg, e, frames);
    RunAppend(cfg, e, frames, last);
  }

  /** A W press in a free frame (not stunned, not spinning, no turbo, level ground, no E)
      toggles the engine: off goes to the engine ceiling, on to the minimum ceiling, and
      nothing else moves. */
  lemma KeyWToggles(cfg: Config, e: Engine, f: Frame)
    requires !e.engineStopped && !e.spinning && !e.isTurbo && !InHillBand(cfg, f.pitch)
    requires f.keyW && !f.keyE
    ensures var r := Update(cfg, e, f);
      && (e.engineOn ==> r == e.(engineOn := false, topSpeed := cfg.minimumSpeed))
      && (!e.engineOn ==> r == e.(engineOn := true, topSpeed := cfg.engineSpeed))
  {
  }

  /** An E press in a free frame starts turbo at the turbo ceiling, and the turbo timer has
      already run for the frame; a W press in the same frame still toggles the engine flag. */
  lemma KeyEStartsTurbo(cfg: Config, e: Engine, f: Frame)
    requires !e.engineStopped && !e.spinning && !e.isTurbo && !InHillBand(cfg, f.pitch)
    requires f.keyE && f.dt <= cfg.turboTime
    ensures var r := Update(cfg, e, f);
      && r.isTurbo && r.topSpeed == cfg.turboSpeed && r.turboTimer == f.dt
      && r.engineOn == (if f.keyW then !e.engineOn else e.engineOn)
      && !r.engineStopped && !r.spinning
  {
  }

  /** A spinning boat that is not stunned ignores both keys and the turbo timer on level
      ground: the frame changes nothing. */
  lemma SpinningSkipsKeys(cfg: Config, e: Engine, f: Frame)
    requires e.spinning && !e.engineStopped && !InHillBand(cfg, f.pitch)
    ensures Update(cfg, e, f) == e
  {
  }

  /** SetStartingSpeed under turbo leaves the turbo flag with the minimum ceiling, so it does
      not keep the gate whenever the two ceilings differ. */
  lemma StartingSpeedBreaksGate(cfg: Config, e: Engine)
    requires e.isTurbo && cfg.minimumSpeed != cfg.turboSpeed
    ensures !Gate(cfg, SetStartingSpeed(cfg, e))
  {
  }

  // ---------------------------------------------------------------------------------------
  // Stun

  /** StopEngineFor restarts the stun timer, stores the duration and marks the engine
      stopped; the engine itself is only stopped when turbo is off. */
  lemma StunArms(cfg: Config, e: Engine, seconds: real)
    ensures var r := StopEngineFor(cfg, e, seconds);
      && r.engineStopped && r.stopEngineTimer == 0.0 && r.stopEngineTime == seconds
      && (e.isTurbo ==> r.topSpeed == e.topSpeed && r.engineOn == e.engineOn)
      && (!e.isTurbo ==> r.topSpeed == cfg.minimumSpeed && !r.engineOn)
      && r.isTurbo == e.isTurbo && r.turboTimer == e.turboTimer
  {
  }

  /** While the stun has not run out, the boat stays stunned whatever keys are pressed: the
      turbo timer is frozen, the engine flag is kept, turbo cannot start, and on level
      ground the top speed does not move. */
  lemma {:induction false} StunHolds(cfg: Config, e: Engine, frames: seq<Frame>)
    requires e.engineStopped && Forward(frames)
    requires e.stopEngineTimer + Elapsed(frames) <= e.stopEngineTime
    ensures var r := Run(cfg, e, frames);
      && r.engineStopped && r.stopEngineTimer == e.stopEngineTimer + Elapsed(frames)
      && r.stopEngineTime == e.stopEngineTime
      && r.turboTimer == e.turboTimer && r.engineOn == e.engineOn
      && (!e.isTurbo ==> !r.isTurbo)
      && (Level(cfg, frames) ==> r.topSpeed == e.topSpeed && r.isTurbo == e.isTurbo)
    decreases |frames|
  {
    if frames != [] {
      ElapsedNonNegative(frames[1..]);
      var next := Update(cfg, e, frames[0]);
      assert next.engineStopped && next.stopEngineTimer == e.stopEngineTimer + frames[0].dt;
      StunHolds(cfg, next, frames[1..]);
      if Level(cfg, frames) {
        assert Level(cfg, frames[1..]) by {
          forall i | 0 <= i < |frames| - 1 ensures !InHillBand(cfg, frames[1..][i].pitch) {
            assert frames[1..][i] == frames[i + 1];
          }
        }
      }
    }
  }

  /** On the first frame whose stun timer exceeds the stun duration (strictly) the stun
      clears and the engine restarts, unless turbo is on, which keeps the engine flag as it
      was. A W press in that same frame is acted upon, so it is excluded here. */
  lemma StunRecovers(cfg: Config, e: Engine, frames: seq<Frame>, last: Frame)
    requires e.engineStopped && Forward(frames) && !last.keyW
    requires e.stopEngineTimer + Elapsed(frames) <= e.stopEngineTime
    requires e.stopEngineTimer + Elapsed(frames) + last.dt > e.stopEngineTime
    ensures var r := Run(cfg, e, frames + [last]);
      && !r.engineStopped && r.stopEngineTimer == 0.0
      && (!e.isTurbo ==> r.engineOn)
      && (e.isTurbo && Level(cfg, frames + [last]) ==> r.engineOn == e.engineOn)
  {
    StunHolds(cfg, e, frames);
    RunAppend(cfg, e, frames, last);
    var mid := Run(cfg, e, frames);
    var hill := CheckUpHill(cfg, mid, last.pitch);
    assert hill.engineStopped && hill.stopEngineTimer + last.dt > hill.stopEngineTime;
    assert !e.isTurbo ==> !hill.isTurbo;
    var stun := UpdateStopEngineFor(cfg, hill, last.dt);
    assert !stun.engineStopped && stun.stopEngineTimer == 0.0;
    assert !e.isTurbo ==> stun.engineOn;
    if e.isTurbo && Level(cfg, frames + [last]) {
      assert !InHillBand(cfg, (frames + [last])[|frames|].pitch);
      assert Level(cfg, frames) by {
        forall i | 0 <= i < |frames| ensures !InHillBand(cfg, frames[i].pitch) {
          assert frames[i] == (frames + [last])[i];
        }
      }
    }
  }

  /** FreezeBoat stuns for the largest float: the boat stays stunned for any run shorter
      than that, and an engine that was stopped outside turbo stays off. */
  lemma FreezeHolds(cfg: Config, e: Engine, frames: seq<Frame>)
    requires Forward(frames) && Elapsed(frames) <= MaxFloat
    ensures var r := Run(cfg, FreezeBoat(cfg, e), frames);
      r.engineStopped && (!e.isTurbo ==> !r.engineOn)
  {
    StunHolds(cfg, FreezeBoat(cfg, e), frames);
  }

  // ---------------------------------------------------------------------------------------
  // Hill check

  /** The hill check runs on every frame, stunned or spinning: inside the band the boat is
      marked as going uphill, and turbo is off unless E restarts it in that same frame. */
  lemma HillCheckEveryFrame(cfg: Config, e: Engine, f: Frame)
    requires InHillBand(cfg, f.pitch)
    ensures var r := Update(cfg, e, f);
      && r.goingUpHill
      && (!f.keyE ==> !r.isTurbo)
      && (e.spinning || (e.engineStopped && e.stopEngineTimer + f.dt <= e.stopEngineTime) ==>
            !r.isTurbo && r.topSpeed == cfg.engineSpeed && r.turboTimer == e.turboTimer)
  {
  }

  /** Because the hill check disables turbo through Turbo(false), a stunned boat with its
      engine off gets the engine ceiling back (and passes the watchdog's gate) while its
      engine flag stays off. */
  lemma HillLiftsStunnedCeiling(cfg: Config, e: Engine, f: Frame)
    requires e.engineStopped && !e.engineOn && e.stopEngineTimer + f.dt <= e.stopEngineTime
    requires InHillBand(cfg, f.pitch) && cfg.engineSpeed > 0.0
    ensures var r := Update(cfg, e, f);
      r.engineStopped && !r.engineOn && r.topSpeed == cfg.engineSpeed && HasMinimumSpeed(r)
  {
  }

  // ---------------------------------------------------------------------------------------
  // Actuation

  /** The torque decision of ApplyTorque, case by case. */
  lemma TorqueDecision(cfg: Config, s: State, vertical: real)
    ensures var r := ApplyTorque(cfg, s, vertical);
      && r.wheels.rl.motorTorque == r.wheels.rr.motorTorque
      && (!InTorqueBand(cfg, s) ==>
            r.wheels.rr.motorTorque == 0.0 && r.engine == s.engine)
      && (InTorqueBand(cfg, s) && !s.engine.isTurbo && s.engine.goingUpHill ==>
            r.wheels.rr.motorTorque == -(s.maxTorque / 2.0) && !r.engine.goingUpHill)
      && (InTorqueBand(cfg, s) && !s.engine.isTurbo && !s.engine.goingUpHill && vertical < 0.0 ==>
            r.wheels.rr.motorTorque == (s.maxTorque / 2.0) * vertical)
      && (InTorqueBand(cfg, s) && (s.engine.isTurbo || (!s.engine.goingUpHill && vertical >= 0.0)) ==>
            r.wheels.rr.motorTorque == s.maxTorque && r.engine == s.engine)
  {
  }

  /** With a non-negative torque budget and an axis of at least -1, the reverse and hill
      branch never pushes forward and never exceeds half the budget. */
  lemma ReverseTorqueBounded(cfg: Config, s: State, vertical: real)
    requires s.maxTorque >= 0.0 && -1.0 <= vertical
    requires InTorqueBand(cfg, s) && !s.engine.isTurbo && (vertical < 0.0 || s.engine.goingUpHill)
    ensures var r := ApplyTorque(cfg, s, vertical);
      -(s.maxTorque / 2.0) <= r.wheels.rr.motorTorque <= 0.0
  {
  }

  /** The engine, turbo, stun and spin fields of two states agree; only the uphill flag
      may differ. */
  predicate SameEngine(a: Engine, b: Engine) {
    a == b.(goingUpHill := a.goingUpHill)
  }

  /** Actuation leaves the engine state alone apart from clearing the uphill flag, and
      records the handbrake and the speed. */
  lemma ControlKeepsEngine(cfg: Config, s: State, c: Controls)
    ensures var r := Control(cfg, s, c);
      && SameEngine(r.engine, s.engine) && r.braked == c.handbrake && r.currentSpeed == c.speed
      && r.maxTorque == s.maxTorque && r.maxBrakeTorque == s.maxBrakeTorque
      && r.forwardFriction == s.forwardFriction && r.sidewayFriction == s.sidewayFriction
  {
    TorqueDecision(cfg, CalculateSpeed(s, c.speed), c.vertical);
  }

  /** Both rear wheels get the same torque and brake; both front wheels get the same
      steer angle, the interpolated angle scaled by the horizontal axis. */
  lemma ControlPairs(cfg: Config, s: State, c: Controls)
    ensures var r := Control(cfg, s, c);
      && r.wheels.rl.motorTorque == r.wheels.rr.motorTorque
      && r.wheels.rl.brakeTorque == r.wheels.rr.brakeTorque
      && r.wheels.fl.steerAngle == r.wheels.fr.steerAngle == c.steerCurve * c.horizontal
  {
    TorqueDecision(cfg, CalculateSpeed(s, c.speed), c.vertical);
  }

  /** Torque reaches the rear wheels only inside the speed band, when neither the previous
      tick's brake flag nor the handbrake is set. */
  lemma ControlTorqueGate(cfg: Config, s: State, c: Controls)
    ensures var r := Control(cfg, s, c);
      r.wheels.rr.motorTorque != 0.0 ==>
        cfg.maxReverseSpeed < c.speed < s.engine.topSpeed && !s.braked && !c.handbrake
  {
    TorqueDecision(cfg, CalculateSpeed(s, c.speed), c.vertical);
  }

  /** The handbrake runs last: while it is held the rear torque is 0 and the rear brake is
      the full brake torque; otherwise the rear brake is the coast brake when no vertical
      input is held and 0 when it is. */
  lemma ControlBrakes(cfg: Config, s: State, c: Controls)
    ensures var r := Control(cfg, s, c);
      && (c.handbrake ==>
            && r.wheels.rr.motorTorque == 0.0 && r.wheels.rl.motorTorque == 0.0
            && r.wheels.rr.brakeTorque == s.maxBrakeTorque
            && r.wheels.rl.brakeTorque == s.maxBrakeTorque)
      && (!c.handbrake ==>
            && r.wheels.rr.brakeTorque == (if c.verticalHeld then 0.0 else cfg.decelerationSpeed)
            && r.wheels.rl.brakeTorque == r.wheels.rr.brakeTorque)
  {
  }

  /** Every branch of the handbrake gives the rear wheels the captured normal stiffness,
      whatever the body speed, on a copy of the rear-right forward curve. */
  lemma ControlFriction(cfg: Config, s: State, c: Controls)
    ensures var r := Control(cfg, s, c);
      && r.wheels.rr.forwardFriction == s.wheels.rr.forwardFriction.(stiffness := s.forwardFriction)
      && r.wheels.rl.forwardFriction == r.wheels.rr.forwardFriction
      && r.wheels.rr.sidewaysFriction == s.wheels.rr.forwardFriction.(stiffness := s.sidewayFriction)
      && r.wheels.rl.sidewaysFriction == r.wheels.rr.sidewaysFriction
  {
  }

  /** The front wheels are never driven or braked and the rear wheels never steered. */
  lemma ControlLeavesOtherPairs(cfg: Config, s: State, c: Controls)
    ensures var r := Control(cfg, s, c);
      && r.wheels.fl.motorTorque == s.wheels.fl.motorTorque
      && r.wheels.fr.motorTorque == s.wheels.fr.motorTorque
      && r.wheels.fl.brakeTorque == s.wheels.fl.brakeTorque
      && r.wheels.fr.brakeTorque == s.wheels.fr.brakeTorque
      && r.wheels.rr.steerAngle == s.wheels.rr.steerAngle
      && r.wheels.rl.steerAngle == s.wheels.rl.steerAngle
  {
  }

  /** Every physics tick keeps the gate. */
  lemma GateKeptByPhysics(cfg: Config, s: State, c: Controls)
    requires Gate(cfg, s.engine)
    ensures Gate(cfg, FixedUpdate(cfg, s, c).engine)
  {
    ControlKeepsEngine(cfg, s, c);
  }

  /** Nothing is actuated while the boat spins. */
  lemma SpinningSkipsControl(cfg: Config, s: State, c: Controls)
    requires s.engine.spinning
    ensures FixedUpdate(cfg, s, c) == s
  {
  }
}
