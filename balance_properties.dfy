/** What the balance watchdog guarantees: it is inert without the controller's speed gate,
    damps a flip exactly when the body is high above the ground, keeps its stuck timer
    below the wait time, and pushes a stuck boat up by exactly the normal ground distance
    once the wait time has accumulated. */
module BalanceProperties {
  import opened Transforms
  import opened Balance

  // ---------------------------------------------------------------------------------------
  // One frame

  /** Without the speed gate nothing changes: no timer change, no movement. */
  lemma GateOffIsInert(cfg: Config, w: Watch, s: Sensors, position: Vec3)
    ensures Update(cfg, w, false, s, position) == Tick(w, position, Untouched)
  {
  }

  /** With it, the flip is damped exactly when the body's ray is at least the threshold
      long, and in that frame the timer and the position are left alone. */
  lemma FlipExactlyWhenHigh(cfg: Config, w: Watch, s: Sensors, position: Vec3)
    ensures var t := Update(cfg, w, true, s, position);
      (t.correction == FlipDamped <==> s.groundDistance >= cfg.preventFlippingUnderUnits) &&
      (t.correction == FlipDamped ==> t.watch == w && t.position == position)
  {
  }

  /** The ground test holds exactly when the body's downward ray is shorter than the
      threshold; with the gate on, such a frame runs the stuck check and never damps a flip,
      and any other frame damps it. */
  lemma NearGroundRunsStuckCheck(cfg: Config, w: Watch, s: Sensors, position: Vec3)
    ensures var t := Update(cfg, w, true, s, position);
      var check := AreWheelsStuck(cfg, w.waitStuckWheelsTimer,
                                  IsAnyOfWheelsBelowGround(cfg, w.radius, s.wheels),
                                  s.bodySpeed, s.dt);
      (IsLessThenUnitsAboveGround(s.groundDistance, cfg.preventFlippingUnderUnits) <==>
        s.groundDistance < cfg.preventFlippingUnderUnits) &&
      (IsLessThenUnitsAboveGround(s.groundDistance, cfg.preventFlippingUnderUnits) ==>
        t.correction != FlipDamped && t.watch.waitStuckWheelsTimer == check.timer) &&
      (!IsLessThenUnitsAboveGround(s.groundDistance, cfg.preventFlippingUnderUnits) ==>
        t.correction == FlipDamped)
  {
  }

  /** The wheel test treats both band edges as in place and is the disjunction over the
      four wheels. */
  lemma WheelBand(cfg: Config, radius: real, rays: WheelRays, d: real)
    ensures var low := radius - radius * cfg.wheelOnGroundTolerance;
      var high := radius + radius * cfg.wheelOnGroundTolerance;
      (!WheelOutOfPlace(cfg, radius, d) <==> low <= d <= high) &&
      (IsAnyOfWheelsBelowGround(cfg, radius, rays) <==>
        exists i :: 0 <= i < 4 && WheelOutOfPlace(cfg, radius, Rays(rays)[i]))
  {
    var all := Rays(rays);
    if IsAnyOfWheelsBelowGround(cfg, radius, rays) {
      if WheelOutOfPlace(cfg, radius, rays.fl) {
        assert WheelOutOfPlace(cfg, radius, all[0]);
      } else if WheelOutOfPlace(cfg, radius, rays.fr) {
        assert WheelOutOfPlace(cfg, radius, all[1]);
      } else if WheelOutOfPlace(cfg, radius, rays.rl) {
        assert WheelOutOfPlace(cfg, radius, all[2]);
      } else {
        assert WheelOutOfPlace(cfg, radius, all[3]);
      }
    }
  }

  /** The four wheel rays in the order the script tests them. */
  function Rays(rays: WheelRays): (r: seq<real>)
    ensures |r| == 4
  {
    [rays.fl, rays.fr, rays.rl, rays.rr]
  }

  /** The stuck check: a free-moving boat with all wheels in place resets the timer and is
      not stuck; otherwise the timer grows by the frame's time and the boat is reported
      stuck exactly when that reaches the wait time, which resets the timer. */
  lemma StuckDecision(cfg: Config, timer: real, belowGround: bool, bodySpeed: real, dt: real)
    ensures var r := AreWheelsStuck(cfg, timer, belowGround, bodySpeed, dt);
      (!belowGround && bodySpeed >= 1.0 ==> r == StuckCheck(0.0, false)) &&
      (belowGround || bodySpeed < 1.0 ==>
        (r.stuck <==> timer + dt >= cfg.waitStuckWheelsTime) &&
        (r.stuck ==> r.timer == 0.0) &&
        (!r.stuck ==> r.timer == timer + dt))
  {
  }

  /** With a positive wait time and a non-negative frame time, the timer stays within
      [0, wait) after every evaluation. */
  lemma TimerStaysBelowWait(cfg: Config, timer: real, belowGround: bool, bodySpeed: real, dt: real)
    requires cfg.waitStuckWheelsTime > 0.0
    requires 0.0 <= timer < cfg.waitStuckWheelsTime && dt >= 0.0
    ensures var r := AreWheelsStuck(cfg, timer, belowGround, bodySpeed, dt);
      0.0 <= r.timer < cfg.waitStuckWheelsTime
  {
  }

  /** A push happens exactly when the gate is on, the body is near the ground and the stuck
      check fires; it moves the boat by the normal ground distance along local up and
      resets the timer. Radius and normal ground distance never change. */
  lemma PushDecision(cfg: Config, w: Watch, moving: bool, s: Sensors, position: Vec3)
    ensures var t := Update(cfg, w, moving, s, position);
      var check := AreWheelsStuck(cfg, w.waitStuckWheelsTimer,
                                  IsAnyOfWheelsBelowGround(cfg, w.radius, s.wheels),
                                  s.bodySpeed, s.dt);
      t.watch.radius == w.radius && t.watch.distanceFromGround == w.distanceFromGround &&
      (t.correction == PushedUp <==>
        moving && s.groundDistance < cfg.preventFlippingUnderUnits && check.stuck) &&
      (t.correction == PushedUp ==>
        t.watch.waitStuckWheelsTimer == 0.0 &&
        t.position == Vec3(position.x + w.distanceFromGround * s.up.x,
                           position.y + w.distanceFromGround * s.up.y,
                           position.z + w.distanceFromGround * s.up.z)) &&
      (t.correction != PushedUp ==> t.position == position)
  {
  }

  // ---------------------------------------------------------------------------------------
  // Runs of frames

  /** Appending a frame to a run is one more Update. This and the run helpers below mirror
      those of DriveProperties over the watchdog's own frame type. */
  lemma {:induction false} RunAppend(cfg: Config, w: Watch, position: Vec3, frames: seq<Frame>, last: Frame)
    ensures var before := Run(cfg, w, position, frames);
      Run(cfg, w, position, frames + [last]) ==
        Update(cfg, before.watch, last.moving, last.sensors, before.position)
    decreases |frames|
  {
    if frames != [] {
      var t := Update(cfg, w, frames[0].moving, frames[0].sensors, position);
      assert (frames + [last])[1..] == frames[1..] + [last];
      if |frames| > 1 {
        RunAppend(cfg, t.watch, t.position, frames[1..], last);
      }
    }
  }

  /** Frames all have non-negative time. */
  predicate Forward(frames: seq<Frame>) {
    forall i :: 0 <= i < |frames| ==> frames[i].sensors.dt >= 0.0
  }

  /** The time of a run is never negative (the same fact as for the controller's frames). */
  lemma {:induction false} ElapsedNonNegative(frames: seq<Frame>)
    requires Forward(frames)
    ensures Elapsed(frames) >= 0.0
    decreases |frames|
  {
    if frames != [] {
      ElapsedNonNegative(frames[1..]);
    }
  }

  /** Over any run with non-negative frame times, the timer stays within [0, wait). */
  lemma {:induction false} TimerBoundedOverRun(cfg: Config, w: Watch, position: Vec3, frames: seq<Frame>)
    requires cfg.waitStuckWheelsTime > 0.0
    requires 0.0 <= w.waitStuckWheelsTimer < cfg.waitStuckWheelsTime
    requires Forward(frames)
    ensures var t := Run(cfg, w, position, frames);
      0.0 <= t.watch.waitStuckWheelsTimer < cfg.waitStuckWheelsTime
    decreases |frames|
  {
    if frames != [] {
      var s := frames[0].sensors;
      TimerStaysBelowWait(cfg, w.waitStuckWheelsTimer,
                          IsAnyOfWheelsBelowGround(cfg, w.radius, s.wheels), s.bodySpeed, s.dt);
      var t := Update(cfg, w, frames[0].moving, s, position);
      if |frames| > 1 {
        TimerBoundedOverRun(cfg, t.watch, t.position, frames[1..]);
      }
    }
  }

  /** Without the speed gate on any frame, a run changes nothing. */
  lemma {:induction false} GateOffRun(cfg: Config, w: Watch, position: Vec3, frames: seq<Frame>)
    requires forall i :: 0 <= i < |frames| ==> !frames[i].moving
    ensures Run(cfg, w, position, frames) == Tick(w, position, Untouched)
    decreases |frames|
  {
    if |frames| > 1 {
      GateOffRun(cfg, w, position, frames[1..]);
    }
  }

  /** A frame in which the boat is gated on, near the ground, and stuck-looking: a wheel out
      of place or the body barely moving. */
  predicate StuckFrame(cfg: Config, radius: real, f: Frame) {
    f.moving && f.sensors.groundDistance < cfg.preventFlippingUnderUnits &&
    (IsAnyOfWheelsBelowGround(cfg, radius, f.sensors.wheels) || f.sensors.bodySpeed < 1.0)
  }

  /** A frame in which the boat is gated on, near the ground, wheels in place and moving. */
  predicate FreeFrame(cfg: Config, radius: real, f: Frame) {
    f.moving && f.sensors.groundDistance < cfg.preventFlippingUnderUnits &&
    !IsAnyOfWheelsBelowGround(cfg, radius, f.sensors.wheels) && f.sensors.bodySpeed >= 1.0
  }

  /** A boat moving freely near the ground keeps the timer at 0 and is never pushed. */
  lemma {:induction false} FreeRunStaysPut(cfg: Config, w: Watch, position: Vec3, frames: seq<Frame>)
    requires frames != []
    requires forall i :: 0 <= i < |frames| ==> FreeFrame(cfg, w.radius, frames[i])
    ensures Run(cfg, w, position, frames) == Tick(w.(waitStuckWheelsTimer := 0.0), position, Untouched)
    decreases |frames|
  {
    if |frames| > 1 {
      var next := w.(waitStuckWheelsTimer := 0.0);
      assert Update(cfg, w, frames[0].moving, frames[0].sensors, position) == Tick(next, position, Untouched);
      FreeRunStaysPut(cfg, next, position, frames[1..]);
    }
  }

  /** While a stuck boat has not yet waited long enough, the timer is the time waited so far
      and the boat has not moved. */
  lemma {:induction false} StuckRunWaits(cfg: Config, w: Watch, position: Vec3, frames: seq<Frame>)
    requires forall i :: 0 <= i < |frames| ==> StuckFrame(cfg, w.radius, frames[i])
    requires Forward(frames)
    requires w.waitStuckWheelsTimer + Elapsed(frames) < cfg.waitStuckWheelsTime
    ensures var t := Run(cfg, w, position, frames);
      t.watch == w.(waitStuckWheelsTimer := w.waitStuckWheelsTimer + Elapsed(frames)) &&
      t.position == position && t.correction == Untouched
    decreases |frames|
  {
    if frames != [] {
      var s := frames[0].sensors;
      var next := w.(waitStuckWheelsTimer := w.waitStuckWheelsTimer + s.dt);
      ElapsedNonNegative(frames[1..]);
      assert Update(cfg, w, true, s, position) == Tick(next, position, Untouched);
      if |frames| > 1 {
        StuckRunWaits(cfg, next, position, frames[1..]);
      } else {
        assert Elapsed(frames) == s.dt;
      }
    }
  }

  /** The frame in which the accumulated stuck time reaches the wait time pushes the boat up
      by exactly the normal ground distance along local up, and resets the timer. */
  lemma StuckRunPushes(cfg: Config, w: Watch, position: Vec3, frames: seq<Frame>, last: Frame)
    requires forall i :: 0 <= i < |frames| ==> StuckFrame(cfg, w.radius, frames[i])
    requires Forward(frames)
    requires w.waitStuckWheelsTimer + Elapsed(frames) < cfg.waitStuckWheelsTime
    requires StuckFrame(cfg, w.radius, last)
    requires w.waitStuckWheelsTimer + Elapsed(frames) + last.sensors.dt >= cfg.waitStuckWheelsTime
    ensures var t := Run(cfg, w, position, frames + [last]);
      t.correction == PushedUp &&
      t.position == UnstuckWheels(position, w.distanceFromGround, last.sensors.up) &&
      t.watch == w.(waitStuckWheelsTimer := 0.0)
  {
    StuckRunWaits(cfg, w, position, frames);
    RunAppend(cfg, w, position, frames, last);
  }
}
