/** The drive controller component (Scripts/BoatController.cs) as a class: the fields the
    source updates in place, and one method per operation. Every method is proved to move
    the fields exactly as the functions of module Drive say, so the properties proved in
    DriveProperties hold of the class. Input polling is replaced by parameters. */
module Controller {
  import opened Transforms
  import Drive

  class BoatController {
    /** The inspector-tuned constants. */
    const cfg: Drive.Config
    /** The boat's transform, which Respawn moves. */
    const transform: Transform

    var wheelFL: Drive.Wheel
    var wheelFR: Drive.Wheel
    var wheelRL: Drive.Wheel
    var wheelRR: Drive.Wheel

    var maxTorque: real
    var maxBrakeTorque: real
    var currentSpeed: real
    var stopEngineTimer: real
    var stopEngineTime: real
    var topSpeed: real
    var spinning: bool
    var braked: bool
    var goingUpHill: bool
    var engineStopped: bool
    var engineOn: bool

    var sidewayFriction: real
    var forwardFriction: real
    var slipSidewayFriction: real
    var slipForwardFriction: real

    var isTurbo: bool
    var turboTimer: real

    /** All fields. */
    function Snapshot(): Drive.State
      reads this
    {
      Drive.State(Drive.Engine(topSpeed, engineOn, isTurbo, turboTimer, engineStopped,
                               stopEngineTimer, stopEngineTime, goingUpHill, spinning),
                  maxTorque, maxBrakeTorque, currentSpeed, braked,
                  forwardFriction, sidewayFriction, slipForwardFriction, slipSidewayFriction,
                  Drive.Wheels(wheelFL, wheelFR, wheelRL, wheelRR))
    }

    /** The component as Start leaves it: fields at their defaults, wheels bound,
        then SetEngineValues and SetDriftValues. */
    constructor (cfg: Drive.Config, transform: Transform, wheels: Drive.Wheels)
      ensures this.cfg == cfg && this.transform == transform
      ensures Snapshot() == Drive.Start(cfg, wheels)
    {
      this.cfg := cfg;
      this.transform := transform;
      wheelFL, wheelFR, wheelRL, wheelRR := wheels.fl, wheels.fr, wheels.rl, wheels.rr;
      maxTorque, maxBrakeTorque, currentSpeed := 0.0, 0.0, 0.0;
      stopEngineTimer, stopEngineTime, topSpeed := 0.0, 0.0, 0.0;
      spinning, braked, goingUpHill, engineStopped, engineOn := false, false, false, false, false;
      sidewayFriction, forwardFriction, slipSidewayFriction, slipForwardFriction := 0.0, 0.0, 0.0, 0.0;
      isTurbo, turboTimer := false, 0.0;
      new;
      SetEngineValues();
      SetDriftValues();
    }

    method SetEngineValues()
      modifies this
      ensures Snapshot() == Drive.SetEngineValues(cfg, old(Snapshot()))
    {
      ResetLimits();
      ResetEngine();
    }

    /** The first half of SetEngineValues: torque limits from the constants, speed and
        brake state cleared. */
    method ResetLimits()
      modifies this`maxTorque, this`braked, this`maxBrakeTorque, this`currentSpeed
      ensures maxTorque == cfg.maxTorque && !braked
      ensures maxBrakeTorque == cfg.maxBreakTorque && currentSpeed == 0.0
    {
      maxTorque, braked, maxBrakeTorque, currentSpeed := cfg.maxTorque, false, cfg.maxBreakTorque, 0.0;
    }

    /** The second half of SetEngineValues: the fields of the frame tick back to idle. */
    method ResetEngine()
      modifies this`spinning, this`engineOn, this`topSpeed, this`isTurbo, this`turboTimer
      modifies this`goingUpHill, this`stopEngineTimer, this`stopEngineTime, this`engineStopped
      ensures !spinning && !engineOn && topSpeed == 0.0 && !isTurbo && turboTimer == 0.0
      ensures !goingUpHill && stopEngineTimer == 0.0 && stopEngineTime == 0.0 && !engineStopped
    {
      spinning, engineOn, topSpeed := false, false, 0.0;
      isTurbo, turboTimer, goingUpHill := false, 0.0, false;
      stopEngineTimer, stopEngineTime, engineStopped := 0.0, 0.0, false;
    }

    method SetDriftValues()
      modifies this
      ensures Snapshot() == Drive.SetDriftValues(old(Snapshot()))
    {
      forwardFriction := wheelRR.forwardFriction.stiffness;
      sidewayFriction := wheelRR.sidewaysFriction.stiffness;
      slipForwardFriction := 2.0;
      slipSidewayFriction := 2.0;
    }

    // -------------------------------------------------------------------------------------
    // Physics tick

    method FixedUpdate(c: Drive.Controls)
      modifies this
      ensures Snapshot() == Drive.FixedUpdate(cfg, old(Snapshot()), c)
    {
      if spinning {
        return;
      }
      Control(c);
    }

    method Control(c: Drive.Controls)
      modifies this
      ensures Snapshot() == Drive.Control(cfg, old(Snapshot()), c)
    {
      CalculateSpeed(c.speed);
      ApplyTorque(c.vertical);
      ApplyBrakes(c.verticalHeld);
      Steer(c.steerCurve, c.horizontal);
      ApplyHandBrakes(c.handbrake, c.bodySpeed);
    }

    /** The speed is the rounded wheel speed, computed outside the model. */
    method CalculateSpeed(speed: real)
      modifies this
      ensures Snapshot() == Drive.CalculateSpeed(old(Snapshot()), speed)
    {
      currentSpeed := speed;
    }

    method ApplyTorque(vertical: real)
      modifies this
      ensures Snapshot() == Drive.ApplyTorque(cfg, old(Snapshot()), vertical)
    {
      var verticalAxis := vertical;
      if currentSpeed < topSpeed && currentSpeed > cfg.maxReverseSpeed && !braked {
        if !isTurbo && (verticalAxis < 0.0 || goingUpHill) {
          if goingUpHill {
            verticalAxis := -1.0;
          }
          wheelRR := wheelRR.(motorTorque := (maxTorque / 2.0) * verticalAxis);
          wheelRL := wheelRL.(motorTorque := (maxTorque / 2.0) * verticalAxis);
          goingUpHill := false;
        } else {
          wheelRR := wheelRR.(motorTorque := maxTorque);
          wheelRL := wheelRL.(motorTorque := maxTorque);
        }
      } else {
        wheelRR := wheelRR.(motorTorque := 0.0);
        wheelRL := wheelRL.(motorTorque := 0.0);
      }
    }

    method ApplyBrakes(verticalHeld: bool)
      modifies this
      ensures Snapshot() == Drive.ApplyBrakes(cfg, old(Snapshot()), verticalHeld)
    {
      if !verticalHeld {
        wheelRR := wheelRR.(brakeTorque := cfg.decelerationSpeed);
        wheelRL := wheelRL.(brakeTorque := cfg.decelerationSpeed);
      } else {
        wheelRR := wheelRR.(brakeTorque := 0.0);
        wheelRL := wheelRL.(brakeTorque := 0.0);
      }
    }

    /** The steer angle interpolated for the current speed is an input. */
    method Steer(steerCurve: real, horizontal: real)
      modifies this
      ensures Snapshot() == Drive.Steer(old(Snapshot()), steerCurve, horizontal)
    {
      var currentSteerAngle := steerCurve;
      currentSteerAngle := currentSteerAngle * horizontal;
      wheelFL := wheelFL.(steerAngle := currentSteerAngle);
      wheelFR := wheelFR.(steerAngle := currentSteerAngle);
    }

    method ApplyHandBrakes(handbrake: bool, bodySpeed: real)
      modifies this
      ensures Snapshot() == Drive.ApplyHandBrakes(old(Snapshot()), handbrake, bodySpeed)
    {
      braked := handbrake;
      if braked {
        wheelRR := wheelRR.(brakeTorque := maxBrakeTorque);
        wheelRL := wheelRL.(brakeTorque := maxBrakeTorque);
        wheelRR := wheelRR.(motorTorque := 0.0);
        wheelRL := wheelRL.(motorTorque := 0.0);
        if bodySpeed > 1.0 {
          SetSlip(forwardFriction, sidewayFriction);
        } else {
          SetSlip(forwardFriction, sidewayFriction);
        }
      } else {
        SetSlip(forwardFriction, sidewayFriction);
      }
    }

    method SetSlip(currentForwardFriction: real, currentSidewayFriction: real)
      modifies this
      ensures Snapshot() == old(Snapshot()).(wheels :=
        Drive.SetSlip(old(Snapshot().wheels), currentForwardFriction, currentSidewayFriction))
    {
      var wfc := wheelRR.forwardFriction;
      wfc := wfc.(stiffness := currentForwardFriction);
      wheelRR := wheelRR.(forwardFriction := wfc);
      wheelRL := wheelRL.(forwardFriction := wfc);
      wfc := wfc.(stiffness := currentSidewayFriction);
      wheelRR := wheelRR.(sidewaysFriction := wfc);
      wheelRL := wheelRL.(sidewaysFriction := wfc);
    }

    // -------------------------------------------------------------------------------------
    // Frame tick

    method Update(f: Drive.Frame)
      modifies this
      ensures Snapshot() == old(Snapshot()).(engine := Drive.Update(cfg, old(Snapshot().engine), f))
    {
      CheckUpHill(f.pitch);
      if engineStopped {
        UpdateStopEngineFor(f.dt);
      }
      if spinning || engineStopped {
        return;
      }
      if f.keyW {
        if engineOn {
          StopEngine();
        } else {
          StartEngine();
        }
      }
      if f.keyE && !isTurbo {
        Turbo(true);
      }
      UpdateTurbo(f.dt);
    }

    method Turbo(on: bool)
      modifies this
      ensures Snapshot() == old(Snapshot()).(engine := Drive.Turbo(cfg, old(Snapshot().engine), on))
    {
      if on {
        isTurbo := true;
        topSpeed := cfg.turboSpeed;
        turboTimer := 0.0;
      } else {
        isTurbo := false;
        topSpeed := cfg.engineSpeed;
      }
    }

    method StartEngine()
      modifies this
      ensures Snapshot() == old(Snapshot()).(engine := Drive.StartEngine(cfg, old(Snapshot().engine)))
    {
      if !isTurbo {
        topSpeed := cfg.engineSpeed;
        engineOn := true;
      }
    }

    method StopEngine()
      modifies this
      ensures Snapshot() == old(Snapshot()).(engine := Drive.StopEngine(cfg, old(Snapshot().engine)))
    {
      if !isTurbo {
        topSpeed := cfg.minimumSpeed;
        engineOn := false;
      }
    }

    method UpdateTurbo(dt: real)
      modifies this
      ensures Snapshot() == old(Snapshot()).(engine := Drive.UpdateTurbo(cfg, old(Snapshot().engine), dt))
    {
      if isTurbo {
        turboTimer := turboTimer + dt;
        if turboTimer > cfg.turboTime {
          Turbo(false);
        }
      }
    }

    /** The body's pitch (euler x) is an input. */
    method CheckUpHill(pitch: real)
      modifies this
      ensures Snapshot() == old(Snapshot()).(engine := Drive.CheckUpHill(cfg, old(Snapshot().engine), pitch))
    {
      if pitch < cfg.hillAngle + 270.0 && pitch > 270.0 {
        goingUpHill := true;
        Turbo(false);
      }
    }

    method StopEngineFor(seconds: real)
      modifies this
      ensures Snapshot() == old(Snapshot()).(engine := Drive.StopEngineFor(cfg, old(Snapshot().engine), seconds))
    {
      stopEngineTimer := 0.0;
      stopEngineTime := seconds;
      engineStopped := true;
      StopEngine();
    }

    method RemoveStopEngineFor()
      modifies this
      ensures Snapshot() == old(Snapshot()).(engine := Drive.RemoveStopEngineFor(cfg, old(Snapshot().engine)))
    {
      stopEngineTimer := 0.0;
      engineStopped := false;
      StartEngine();
    }

    method UpdateStopEngineFor(dt: real)
      modifies this
      ensures Snapshot() == old(Snapshot()).(engine := Drive.UpdateStopEngineFor(cfg, old(Snapshot().engine), dt))
    {
      stopEngineTimer := stopEngineTimer + dt;
      if stopEngineTimer > stopEngineTime {
        RemoveStopEngineFor();
      }
    }

    /** Only the flag of SpinIt is modelled; the rotation and lift are engine tweens. */
    method SpinIt()
      modifies this
      ensures Snapshot() == old(Snapshot()).(engine := Drive.SpinIt(old(Snapshot().engine)))
    {
      spinning := true;
    }

    /** The deferred callback SpinIt schedules, as an explicit event. */
    method DisableSpin()
      modifies this
      ensures Snapshot() == old(Snapshot()).(engine := Drive.DisableSpin(old(Snapshot().engine)))
    {
      spinning := false;
    }

    method SetStartingSpeed()
      modifies this
      ensures Snapshot() == old(Snapshot()).(engine := Drive.SetStartingSpeed(cfg, old(Snapshot().engine)))
    {
      topSpeed := cfg.minimumSpeed;
    }

    method FreezeBoat()
      modifies this
      ensures Snapshot() == old(Snapshot()).(engine := Drive.FreezeBoat(cfg, old(Snapshot().engine)))
    {
      StopEngineFor(Drive.MaxFloat);
    }

    /** Moves the boat 30 units above the given point, and changes nothing else. */
    method Respawn(pos: Vec3)
      modifies transform
      ensures transform.position == Vec3(pos.x, pos.y + 30.0, pos.z)
    {
      transform.position := Vec3(pos.x, pos.y + 30.0, pos.z);
    }

    /** The rounded speed of the last physics tick. */
    method GetCurrentSpeed() returns (speed: real)
      ensures speed == Snapshot().currentSpeed
    {
      speed := currentSpeed;
    }

    method IsEngineOn() returns (on: bool)
      ensures on == Snapshot().engine.engineOn
    {
      on := engineOn;
    }

    /** The gate read by the balance watchdog and the trigger scripts. */
    method HasMinimumSpeed() returns (moving: bool)
      ensures moving == Drive.HasMinimumSpeed(Snapshot().engine)
    {
      moving := topSpeed > 0.0;
    }

    method GetFrontLeftWheel() returns (wheel: Drive.Wheel)
      ensures wheel == Snapshot().wheels.fl
    {
      wheel := wheelFL;
    }
  }
}
