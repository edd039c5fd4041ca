/** The balance watchdog component (Scripts/BoatBalanceScript.cs) as a class: its three
    fields, the drive controller on the same game object, and that object's transform,
    which the upward push moves in place. Every method is proved to act exactly as the
    functions of module Balance say, so the properties proved in BalanceProperties hold of
    the class. */
module BalanceScript {
  import opened Transforms
  import opened Balance
  import Drive
  import Controller

  class BoatBalanceScript {
    /** The inspector-tuned constants. */
    const cfg: Config
    /** The drive controller on the same game object; its transform is the boat's. */
    const controller: Controller.BoatController

    var radius: real
    var waitStuckWheelsTimer: real
    var distanceFromGround: real

    function Snapshot(): Watch
      reads this
    {
      Watch(radius, waitStuckWheelsTimer, distanceFromGround)
    }

    /** The component as the engine creates it: fields at their defaults. */
    constructor (cfg: Config, controller: Controller.BoatController)
      ensures this.cfg == cfg && this.controller == controller
      ensures Snapshot() == Watch(0.0, 0.0, 0.0)
    {
      this.cfg := cfg;
      this.controller := controller;
      radius, waitStuckWheelsTimer, distanceFromGround := 0.0, 0.0, 0.0;
    }

    /** Called by the controller once its wheels are bound. The ray under the body, which
        CalculateDistanceFromGround casts, is the input groundDistance. */
    method StartBalance(groundDistance: real)
      modifies this
      ensures Snapshot() == Balance.StartBalance(controller.Snapshot().wheels.fl.radius, groundDistance)
    {
      var wheelFL := controller.GetFrontLeftWheel();
      waitStuckWheelsTimer := 0.0;
      radius := wheelFL.radius;
      distanceFromGround := groundDistance;
    }

    /** The frame tick. The result says which correction was applied; the flip damping
        itself is a rotation and is not modelled. */
    method Update(s: Sensors) returns (c: Correction)
      modifies this, controller.transform
      ensures Tick(Snapshot(), controller.transform.position, c) ==
        Balance.Update(cfg, old(Snapshot()), Drive.HasMinimumSpeed(controller.Snapshot().engine),
                       s, old(controller.transform.position))
    {
      var moving := controller.HasMinimumSpeed();
      if !moving {
        return Untouched;
      }
      if !IsLessThenUnitsAboveGround(s.groundDistance, cfg.preventFlippingUnderUnits) {
        c := FlipDamped;
      } else {
        var stuck := AreWheelsStuck(s.wheels, s.bodySpeed, s.dt);
        if stuck {
          UnstuckWheels(s.up);
          c := PushedUp;
        } else {
          c := Untouched;
        }
      }
    }

    /** The stuck test; the wheel rays and the body's speed are inputs. */
    method AreWheelsStuck(rays: WheelRays, bodySpeed: real, dt: real) returns (stuck: bool)
      modifies this`waitStuckWheelsTimer
      ensures StuckCheck(waitStuckWheelsTimer, stuck) ==
        Balance.AreWheelsStuck(cfg, old(waitStuckWheelsTimer),
                               Balance.IsAnyOfWheelsBelowGround(cfg, radius, rays), bodySpeed, dt)
    {
      stuck := false;
      var below := IsAnyOfWheelsBelowGround(rays);
      if below || bodySpeed < 1.0 {
        waitStuckWheelsTimer := waitStuckWheelsTimer + dt;
        if waitStuckWheelsTimer >= cfg.waitStuckWheelsTime {
          waitStuckWheelsTimer := 0.0;
          stuck := true;
        }
      } else {
        waitStuckWheelsTimer := 0.0;
      }
    }

    /** The four wheel tests in the source's order; the ray distances are inputs. */
    method IsAnyOfWheelsBelowGround(rays: WheelRays) returns (stuck: bool)
      ensures stuck == Balance.IsAnyOfWheelsBelowGround(cfg, radius, rays)
    {
      var wheelUnderGround := radius - radius * cfg.wheelOnGroundTolerance;
      var wheelAboveGround := radius + radius * cfg.wheelOnGroundTolerance;
      stuck := false;
      if rays.fl < wheelUnderGround || rays.fl > wheelAboveGround {
        stuck := true;
      }
      if rays.fr < wheelUnderGround || rays.fr > wheelAboveGround {
        stuck := true;
      }
      if rays.rl < wheelUnderGround || rays.rl > wheelAboveGround {
        stuck := true;
      }
      if rays.rr < wheelUnderGround || rays.rr > wheelAboveGround {
        stuck := true;
      }
    }

    /** The push along the boat's local up, which is an input. */
    method UnstuckWheels(up: Vec3)
      modifies controller.transform
      ensures controller.transform.position ==
        Balance.UnstuckWheels(old(controller.transform.position), distanceFromGround, up)
    {
      var sendUp := Vec3(distanceFromGround * up.x, distanceFromGround * up.y, distanceFromGround * up.z);
      controller.transform.position := controller.transform.position.Plus(sendUp);
    }
  }
}
