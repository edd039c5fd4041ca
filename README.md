# Super Boat Rush: drive controller, balance watchdog and explosion lifecycle

This project models the three state machines at the heart of the boat game's play scripts,
and proves what they guarantee.

- **Drive controller** (`Scripts/BoatController.cs`). The frame tick runs the
  engine / turbo / stun / top-speed machine:
  - the W key toggles the engine and the E key starts turbo;
  - turbo expires after `TurboTime`;
  - a stun (`StopEngineFor`) freezes input until its timer runs out;
  - a too-steep pitch disables turbo and marks the boat as going uphill.

  The physics tick writes motor torque, brake torque, steer angle and rear friction into the
  four wheels, and skips everything while the boat spins.
- **Balance watchdog** (`Scripts/BoatBalanceScript.cs`). It only acts while the controller
  reports a top speed above zero.
  - High above the ground, it damps a flip.
  - Near the ground, it runs a stuck timer over the four wheel rays and the body's speed.
    Once the timer reaches `WaitStuckWheelsTime`, it pushes the boat up by the ground
    distance measured at start.
- **Explosion lifecycle** (`Scripts/ExplodeBodies.cs`). A prop that is hit:
  - gets a rigidbody for itself and each direct child that has a mesh renderer, unless the
    root already has a body, in which case nothing is added;
  - has gravity switched on for every body of the root and of its direct children;
  - starts a timer;
  - on the first frame at or past `FallSecondsAfterExplosion`, switches its colliders off so
    it falls through the ground;
  - on a later frame past twice that time, is destroyed.

Each script has two layers:

- **A pure module**: `Drive`, `Balance` and `Explosion`. Datatypes hold a snapshot of the
  component's fields, and functions follow the source's branches one for one.
- **A class**: `Controller.BoatController`, `BalanceScript.BoatBalanceScript` and
  `ExplodeScript.ExplodeBodies`. Each class keeps the component's fields and updates them in
  place. Every method is proved to move the fields exactly as the pure function says. The
  explosion's per-child loops run over an `array` of children, with loop invariants.

The properties are stated once, as lemmas about the pure functions, in `DriveProperties`,
`BalanceProperties` and `ExplosionProperties`.

All speeds, timers, angles and distances are `real`. Every comparison keeps the source's own
strictness:

- the turbo and stun timers end on `>`;
- the stuck timer fires on `>=`;
- the fall starts on `>=`;
- destruction needs `>`;
- the hill band is open at both ends.

Engine inputs become parameters:

- keys and axes;
- `Time.deltaTime`;
- the body's pitch;
- the rounded wheel speed;
- the interpolated steer angle;
- ray distances;
- the body's velocity magnitude;
- the local up vector.

Quirks of the code that the model keeps as written, and that the lemmas state:

- `Turbo(false)` always sets the top speed to `EngineSpeed`. The hill check runs on every
  frame, even while stunned, and calls `Turbo(false)` whenever the pitch is inside the band, so
  a stunned boat with its engine off regains the engine ceiling on a steep slope
  (`HillLiftsStunnedCeiling`).
- `ApplyTorque` reads the brake flag written by the previous tick's `ApplyHandBrakes`.
- `SetSlip` copies the rear-right wheel's *forward* curve into both the forward and the
  sideways curves; only the stiffness differs.
- Both branches of the handbrake's body-speed test apply the normal stiffness. The slip
  stiffness values are stored but never used.
- `SwitchColliders(true)` destroys a collider that is already there, so it toggles.
- The explosion flag only gates the frame tick (`Scripts/ExplodeBodies.cs:203`); neither
  `OnTriggerEnter` nor `Explode` tests it, so a second hit runs `Explode` again. That second
  run changes none of the modelled fields, because it finds no body to add and gravity
  already on (`ExplodeIdempotent`); the explosion impulse, which is left out, is applied
  again.
- The impulse on the root's body reads the position of the object's parent
  (`Scripts/ExplodeBodies.cs:180-182`). A prop whose root has a body but no parent throws a
  null dereference there, after the root's gravity is on; the child loop (lines 189-195)
  never runs, so its child bodies keep gravity off. The model carries `hasParent` and takes
  this path (`ExplodeEffects`).
- The E key only starts turbo and never ends it (`Scripts/BoatController.cs:303-306`);
  turbo ends only when its timer runs out or on a steep slope (`TurboHolds`).
- `SetStartingSpeed` under turbo leaves the turbo flag with the minimum ceiling, so the
  ceiling invariant that every frame tick keeps is not kept by that call
  (`StartingSpeedBreaksGate`).

Behaviour of the code worth knowing:

- A terrain ray that hits nothing reports distance 0, so the watchdog treats the boat as near
  the ground and runs the stuck check (`Scripts/BoatBalanceScript.cs:161-163`).
- The anti-flip ray is cast from the body along minus its local up axis
  (`Scripts/BoatBalanceScript.cs:161`).
- The flip is damped when that distance is at least `PreventFlippingUnderUnits`
  (`Scripts/BoatBalanceScript.cs:58-59`).
- A stun whose timer runs out in a frame lets that frame's W and E keys act
  (`Scripts/BoatController.cs:289-295`).

## Model

| member | source | states |
|---|---|---|
| Controller.BoatController.constructor | Scripts/BoatController.cs:92-101 | after start-up the fields are `Drive.Start`: every engine field idle, torque limits from the constants, drift values from the rear-right wheel |
| Controller.BoatController.SetEngineValues | Scripts/BoatController.cs:106-120 | resets the speed, brake flag and every engine, turbo, stun, hill and spin field, sets the torque limits from the constants, and leaves wheels and friction as they were |
| Controller.BoatController.ResetLimits | Scripts/BoatController.cs:107-110 | first half of the reset: the two torque limits come from the constants, and the speed and the brake flag are cleared; no other field is touched |
| Controller.BoatController.ResetEngine | Scripts/BoatController.cs:111-119 | second half of the reset: every engine, turbo, stun, hill and spin field is zero or false; no other field is touched |
| Controller.BoatController.SetDriftValues | Scripts/BoatController.cs:142-151 | normal stiffness captured from the rear-right wheel's two curves, slip stiffness 2 |
| Controller.BoatController.FixedUpdate | Scripts/BoatController.cs:156-161 | the fields move as `Drive.FixedUpdate`: unchanged while spinning, otherwise one `Control` tick |
| Controller.BoatController.Control | Scripts/BoatController.cs:166-173 | speed, torque, coast brake, steer and handbrake in source order, as `Drive.Control` |
| Controller.BoatController.CalculateSpeed | Scripts/BoatController.cs:175-181 | the current speed becomes the given rounded wheel speed |
| Controller.BoatController.ApplyTorque | Scripts/BoatController.cs:186-217 | the rear torque and uphill flag move as `Drive.ApplyTorque` (see `TorqueDecision`) |
| Controller.BoatController.ApplyBrakes | Scripts/BoatController.cs:222-233 | the rear brake becomes `DecelerationSpeed` when no vertical input is held, 0 otherwise |
| Controller.BoatController.Steer | Scripts/BoatController.cs:238-250 | both front wheels get the interpolated angle times the horizontal axis |
| Controller.BoatController.ApplyHandBrakes | Scripts/BoatController.cs:255-278 | records the handbrake; while it is held the rear wheels get full brake and no torque; the normal stiffness is applied in every branch |
| Controller.BoatController.SetSlip | Scripts/BoatController.cs:379-392 | both rear wheels get the rear-right forward curve with the given stiffness as forward curve and with the second stiffness as sideways curve; nothing else changes |
| Controller.BoatController.Update | Scripts/BoatController.cs:285-309 | the engine fields move as `Drive.Update` (hill check, stun, spin guard, W, E, turbo timer); everything else is unchanged |
| Controller.BoatController.Turbo | Scripts/BoatController.cs:315-327 | the engine fields move as `Drive.Turbo` (see `TurboSwitch`) |
| Controller.BoatController.StartEngine | Scripts/BoatController.cs:329-337 | as `Drive.StartEngine`: no-op under turbo, otherwise engine ceiling and engine on |
| Controller.BoatController.StopEngine | Scripts/BoatController.cs:339-346 | as `Drive.StopEngine`: no-op under turbo, otherwise minimum ceiling and engine off |
| Controller.BoatController.UpdateTurbo | Scripts/BoatController.cs:351-360 | as `Drive.UpdateTurbo`: the timer grows only under turbo, and turbo ends once it is strictly past `TurboTime` |
| Controller.BoatController.CheckUpHill | Scripts/BoatController.cs:365-374 | as `Drive.CheckUpHill`: inside the open pitch band, uphill is set and turbo is switched off |
| Controller.BoatController.StopEngineFor | Scripts/BoatController.cs:398-407 | as `Drive.StopEngineFor` (see `StunArms`) |
| Controller.BoatController.RemoveStopEngineFor | Scripts/BoatController.cs:412-418 | as `Drive.RemoveStopEngineFor`: the stun is cleared, its timer reset, and the engine started |
| Controller.BoatController.UpdateStopEngineFor | Scripts/BoatController.cs:423-431 | as `Drive.UpdateStopEngineFor`: the stun timer grows and the stun ends once it is strictly past the duration |
| Controller.BoatController.SpinIt | Scripts/BoatController.cs:436-442 | the spinning flag is raised and nothing else changes |
| Controller.BoatController.DisableSpin | Scripts/BoatController.cs:444-449 | the spinning flag is cleared and nothing else changes |
| Controller.BoatController.SetStartingSpeed | Scripts/BoatController.cs:451-453 | the top speed becomes `MinimumSpeed` and nothing else changes |
| Controller.BoatController.FreezeBoat | Scripts/BoatController.cs:455-457 | a stun lasting the largest float (see `FreezeHolds`) |
| Controller.BoatController.Respawn | Scripts/BoatController.cs:459-461 | the position becomes exactly (p.x, p.y + 30, p.z) |
| Controller.BoatController.GetCurrentSpeed | Scripts/BoatController.cs:463-465 | returns the speed recorded by the last physics tick |
| Controller.BoatController.GetFrontLeftWheel | Scripts/BoatController.cs:467-469 | returns the front-left wheel |
| Controller.BoatController.IsEngineOn | Scripts/BoatController.cs:483-485 | returns the engine flag |
| Controller.BoatController.HasMinimumSpeed | Scripts/BoatController.cs:487-489 | true exactly when the top speed is above 0 |
| DriveProperties.StartIsIdle | Scripts/BoatController.cs:92-151 | after start-up: top speed 0, so the speed gate is closed; engine off; no turbo, stun, spin or uphill; both timers 0; normal stiffness from the rear-right wheel |
| DriveProperties.GateAtStart | Scripts/BoatController.cs:106-120 | the start state satisfies the gate invariant: the top speed is one of 0 / minimum / engine / turbo, and it is the turbo ceiling whenever turbo is on |
| DriveProperties.GateKeptByFrame | Scripts/BoatController.cs:285-431 | every frame tick, stun and stun removal keeps the gate invariant |
| DriveProperties.GateKeptByRuns | Scripts/BoatController.cs:285-309 | the gate invariant holds after any run of frames |
| DriveProperties.GateKeptByPhysics | Scripts/BoatController.cs:156-278 | every physics tick keeps the gate invariant |
| DriveProperties.TurboSwitch | Scripts/BoatController.cs:315-327 | `Turbo(true)` sets turbo, the turbo ceiling and timer 0; `Turbo(false)` clears turbo and sets the engine ceiling whatever the engine state; the engine flag is never touched |
| DriveProperties.EngineSwitch | Scripts/BoatController.cs:329-346 | under turbo, starting or stopping the engine changes nothing; otherwise each sets its ceiling and the engine flag |
| DriveProperties.TurboHolds | Scripts/BoatController.cs:351-360 | while elapsed time has not passed `TurboTime`, turbo stays on, its timer equals the elapsed time, and the top speed and engine flag do not move, whatever keys are pressed |
| DriveProperties.TurboExpires | Scripts/BoatController.cs:351-360 | on the first frame strictly past `TurboTime`, turbo ends at the engine ceiling with the engine flag kept |
| DriveProperties.StunArms | Scripts/BoatController.cs:398-407 | a stun resets its timer, stores the duration and marks the boat stunned; the engine is stopped only outside turbo |
| DriveProperties.StunHolds | Scripts/BoatController.cs:285-309 | while a stun has not run out, the boat stays stunned; the turbo timer is frozen, the engine flag kept, and turbo cannot start; on level ground the top speed does not move |
| DriveProperties.StunRecovers | Scripts/BoatController.cs:423-431 | on the first frame strictly past the duration, the stun clears and the engine restarts outside turbo |
| DriveProperties.FreezeHolds | Scripts/BoatController.cs:455-457 | a frozen boat stays stunned, with its engine off outside turbo, for any run shorter than the largest float |
| DriveProperties.KeyWToggles | Scripts/BoatController.cs:298-301 | in a free frame (not stunned, not spinning, no turbo, level, no E) a W press toggles the engine: off goes on at the engine ceiling, on goes off at the minimum ceiling, nothing else changes |
| DriveProperties.KeyEStartsTurbo | Scripts/BoatController.cs:302-308 | in a free frame an E press starts turbo at the turbo ceiling with the timer already advanced by the frame, and the engine flag follows only W |
| DriveProperties.SpinningSkipsKeys | Scripts/BoatController.cs:293-295 | a spinning, unstunned boat on level ground ignores both keys and the turbo timer: the frame changes nothing |
| DriveProperties.StartingSpeedBreaksGate | Scripts/BoatController.cs:451-453 | under turbo, with distinct ceilings, SetStartingSpeed leaves a state outside the ceiling invariant |
| DriveProperties.HillCheckEveryFrame | Scripts/BoatController.cs:285-287 | inside the pitch band every frame marks uphill and ends turbo (unless E restarts it that frame), even while spinning or stunned |
| DriveProperties.HillLiftsStunnedCeiling | Scripts/BoatController.cs:365-374 | a stunned boat with its engine off gets the engine ceiling back on a steep slope and passes the speed gate, while its engine flag stays off |
| DriveProperties.TorqueDecision | Scripts/BoatController.cs:186-217 | both rear wheels get the same torque; 0 outside the speed band; minus half the torque budget when uphill, half torque times the axis in reverse, full torque otherwise; only the reverse/uphill branch clears the uphill flag |
| DriveProperties.ReverseTorqueBounded | Scripts/BoatController.cs:195-204 | the reverse/uphill branch never pushes forward and never exceeds half the budget |
| DriveProperties.ControlKeepsEngine | Scripts/BoatController.cs:166-173 | a physics tick changes no engine field except clearing the uphill flag, and records the handbrake and the speed |
| DriveProperties.ControlPairs | Scripts/BoatController.cs:201-249 | the rear wheels always share torque and brake; the front wheels share the steer angle, which is the interpolated angle times the axis |
| DriveProperties.ControlTorqueGate | Scripts/BoatController.cs:192-216 | non-zero torque is applied only inside the speed band, with neither the previous tick's brake flag nor the handbrake set |
| DriveProperties.ControlBrakes | Scripts/BoatController.cs:222-278 | the handbrake overrides the coast brake with full brake and no torque; otherwise the coast brake depends only on vertical input |
| DriveProperties.ControlFriction | Scripts/BoatController.cs:255-278 | the rear wheels get the normal stiffness in every branch, on copies of the rear-right forward curve |
| DriveProperties.ControlLeavesOtherPairs | Scripts/BoatController.cs:166-173 | front wheels are never driven or braked, and rear wheels are never steered |
| DriveProperties.SpinningSkipsControl | Scripts/BoatController.cs:156-161 | nothing is actuated while the boat spins |
| BalanceScript.BoatBalanceScript.constructor | Scripts/BoatBalanceScript.cs:23-28 | the three fields start at 0 |
| BalanceScript.BoatBalanceScript.StartBalance | Scripts/BoatBalanceScript.cs:30-50 | stuck timer 0, radius of the controller's front-left wheel, normal ground distance as measured |
| BalanceScript.BoatBalanceScript.Update | Scripts/BoatBalanceScript.cs:52-64 | fields, position and correction move as `Balance.Update`, gated by the controller's `HasMinimumSpeed` |
| BalanceScript.BoatBalanceScript.AreWheelsStuck | Scripts/BoatBalanceScript.cs:71-90 | timer and result are `Balance.AreWheelsStuck` of the wheel test (see `StuckDecision`) |
| BalanceScript.BoatBalanceScript.IsAnyOfWheelsBelowGround | Scripts/BoatBalanceScript.cs:108-141 | the four sequential wheel tests compute the disjunction over the four wheels |
| BalanceScript.BoatBalanceScript.UnstuckWheels | Scripts/BoatBalanceScript.cs:146-153 | the position moves by the normal ground distance along local up |
| BalanceProperties.GateOffIsInert | Scripts/BoatBalanceScript.cs:52-55 | without the speed gate a frame changes neither the timer nor the position |
| BalanceProperties.GateOffRun | Scripts/BoatBalanceScript.cs:52-55 | a run of gated-off frames changes nothing |
| BalanceProperties.FlipExactlyWhenHigh | Scripts/BoatBalanceScript.cs:57-63 | with the gate on, the flip is damped exactly when the body's ray is at least the threshold long; that frame leaves the timer and position alone |
| BalanceProperties.NearGroundRunsStuckCheck | Scripts/BoatBalanceScript.cs:158-164 | the ground test is true exactly when the downward body ray is shorter than `units`; with the gate on, such a frame runs the stuck check and never damps a flip, and every other frame damps it |
| BalanceProperties.WheelBand | Scripts/BoatBalanceScript.cs:108-141 | a wheel is in place exactly when its ray is within the closed band r(1-tol)..r(1+tol); the test is the disjunction over the four wheels |
| BalanceProperties.StuckDecision | Scripts/BoatBalanceScript.cs:71-90 | all wheels in place and speed at least 1 resets the timer and is not stuck; otherwise the timer grows by dt, and the boat is reported stuck exactly when it reaches the wait time, which resets it |
| BalanceProperties.TimerStaysBelowWait | Scripts/BoatBalanceScript.cs:71-90 | with a positive wait time and dt at least 0, one evaluation keeps the timer in [0, wait) |
| BalanceProperties.TimerBoundedOverRun | Scripts/BoatBalanceScript.cs:52-90 | the same bound holds after any run of frames |
| BalanceProperties.PushDecision | Scripts/BoatBalanceScript.cs:52-64 | a push happens exactly when the gate is on, the body is near the ground and the stuck check fires; it moves the boat by exactly the normal ground distance along up and resets the timer; radius and normal distance never change |
| BalanceProperties.FreeRunStaysPut | Scripts/BoatBalanceScript.cs:71-90 | a boat moving freely near the ground with its wheels in place keeps the timer at 0 and is never moved |
| BalanceProperties.StuckRunWaits | Scripts/BoatBalanceScript.cs:71-90 | while a stuck boat has waited less than the wait time, the timer is the time waited and the boat has not moved |
| BalanceProperties.StuckRunPushes | Scripts/BoatBalanceScript.cs:52-90 | the frame in which the waited time reaches the wait time pushes the boat up by exactly the normal distance once, and resets the timer |
| ExplodeScript.ExplodeBodies.constructor | Scripts/ExplodeBodies.cs:18-23 | flags false and timer 0 |
| ExplodeScript.ExplodeBodies.Start | Scripts/ExplodeBodies.cs:28-35 | as `Explosion.Start` (see `StartResets`) |
| ExplodeScript.ExplodeBodies.AddBody | Scripts/ExplodeBodies.cs:40-57 | as `Explosion.AddBody` (see `AddBodyGuard`, `AddBodyEffects`) |
| ExplodeScript.ExplodeBodies.AddBodiesToChildren | Scripts/ExplodeBodies.cs:61-83 | the loop gives each child with a renderer and no body a new configured body with gravity off, and leaves the others as they were |
| ExplodeScript.ExplodeBodies.SwitchColliders | Scripts/ExplodeBodies.cs:89-117 | the root, then every child, switched as `Explosion.SwitchCollider` |
| ExplodeScript.ExplodeBodies.SwitchCollidersToChildren | Scripts/ExplodeBodies.cs:123-154 | the loop switches each child's collider as `Explosion.SwitchCollider` |
| ExplodeScript.ExplodeBodies.Explode | Scripts/ExplodeBodies.cs:168-196 | as `Explosion.Explode` (see `ExplodeEffects`) |
| ExplodeScript.ExplodeBodies.Update | Scripts/ExplodeBodies.cs:201-222 | fields and destruction as `Explosion.Update` |
| ExplosionProperties.SwitchOnToggles | Scripts/ExplodeBodies.cs:95-114 | switching on flips whether a rendered object has a collider, adds only convex ones, and leaves objects without a renderer alone |
| ExplosionProperties.SwitchOnTwice | Scripts/ExplodeBodies.cs:89-154 | switching on twice restores collider presence on the root and every child |
| ExplosionProperties.SwitchOffClears | Scripts/ExplodeBodies.cs:89-154 | switching off removes every rendered object's collider, skips objects without a renderer, and keeps bodies, flags and timer |
| ExplosionProperties.AddBodyGuard | Scripts/ExplodeBodies.cs:41 | a root that already has a body stops the whole pass, children included |
| ExplosionProperties.AddBodyEffects | Scripts/ExplodeBodies.cs:40-83 | the root gets a configured body exactly when it has a renderer; every rendered child ends up with a body; existing bodies and all colliders are kept |
| ExplosionProperties.ExplodeEffects | Scripts/ExplodeBodies.cs:168-196 | the flag is raised and gravity is on for the root's body; the impulse faults exactly when the root has a body and no parent, and then the children stay as body-adding left them; otherwise gravity is on for every child body; colliders, timer and fall flag are unchanged |
| ExplosionProperties.ExplodeIdempotent | Scripts/ExplodeBodies.cs:168-196 | exploding twice gives the same state as exploding once |
| ExplosionProperties.StartResets | Scripts/ExplodeBodies.cs:28-35 | start clears both flags and the timer and switches every collider on |
| ExplosionProperties.UpdateBeforeExplosion | Scripts/ExplodeBodies.cs:201-203 | before the explosion a frame changes nothing |
| ExplosionProperties.RunBeforeExplosion | Scripts/ExplodeBodies.cs:201-203 | before the explosion no run of frames changes anything or destroys the prop |
| ExplosionProperties.UpdateAfterExplosion | Scripts/ExplodeBodies.cs:203-219 | after it, the timer grows by dt and a fall once started never stops; a frame of a prop already falling changes nothing but the timer, so its colliders are left alone |
| ExplosionProperties.RunTimer | Scripts/ExplodeBodies.cs:203-206 | after the explosion the timer equals its starting value plus the time elapsed over the run |
| ExplosionProperties.FallStartsOnTime | Scripts/ExplodeBodies.cs:209-215 | the fall starts exactly on a frame at or past the fall time; that frame only switches colliders off, and destroys nothing |
| ExplosionProperties.DestroyOnlyAfterFall | Scripts/ExplodeBodies.cs:209-219 | a frame destroys the prop exactly when it was already falling and the timer is strictly past twice the fall time and at or past the fall time |
| ExplosionProperties.NeverFallAndDestroyTogether | Scripts/ExplodeBodies.cs:212-219 | a frame that starts the fall never destroys |
| ExplosionProperties.FallingStays | Scripts/ExplodeBodies.cs:209-219 | once falling, always falling |
| ExplosionProperties.FallStartsAtMostOnce | Scripts/ExplodeBodies.cs:209-215 | over any run of frames the fall starts at most once, and never once it has started; since only a fall start touches the colliders (`UpdateAfterExplosion`), they are switched off at most once |

## Left out

- Physics-engine queries become inputs:
  - raycasts;
  - `transform.eulerAngles` and `transform.up`;
  - rigidbody velocity;
  - wheel rpm.
- The speed formula (2πr · rpm · 60 / 1000, rounded) is an input, because it is float numerics.
- The `Mathf.Lerp` steer-angle curve is an input, for the same reason.
- `PreventFlip` is only recorded as the `FlipDamped` correction. Its quaternion interpolation is float rotation numerics.
- `SpinIt`'s `iTween` rotation and lift are engine tweens and are not modelled. Neither is the random spin direction.
- `DisableSpin` runs after a coroutine delay. The model makes it an explicit method call instead, because coroutine scheduling is left out.
- Engine plumbing is not modelled:
  - `SetCenterOfMass`;
  - `GetWheelColliders`' lookup by name;
  - `GetComponent` and `AddComponent`;
  - `AddExplosionForce`, with its explosion force and radius constants.
- A missing wheel binding at start is not modelled: the lookup by name is engine plumbing.
- The null dereference in `Explode` for a root with a body but no parent is modelled as the method returning there (the child pass is skipped); the logged exception itself is not.
- Wheel colliders are modelled as values the controller owns. Aliasing between them, or with the balance script's own wheel references, is not modelled.
- The balance script's four wheel references serve only the rays, which are inputs. Only the front-left radius is read.
- The controller's start-up does not call `StartBalance` in the model. The two are separate calls.
- `Destroy` is deferred by the engine to the end of the frame. The model removes a collider at once. Each object is visited once per pass, so nothing in this code can observe the difference.
- `Destroy(gameObject)` is modelled as the `destroy` result of the prop's frame tick. The engine's stopping of later ticks is not modelled.
- The right and rear wheel getters are not modelled. They only return references.
- `FreezeHolds`: proved for runs shorter than the largest float. In single precision the stun timer can never pass `float.MaxValue`, so the real freeze never ends.
- Other scripts are out of scope:
  - `Scripts/CameraScript.cs` is camera presentation;
  - `PuffedMagicDragonBoneController.cs` is transform-chain vector maths;
  - `AddBodyOnTriggerScript.cs`, `DestroyBoatOnHitScript.cs` and `Scripts/SlowdownPlayer.cs` are trigger glue that calls `Respawn` and `StopEngineFor`, which are modelled here.
