/** What the explosion lifecycle guarantees: the collider switch is a toggle, the body pass
    only fills gaps, exploding twice is exploding once, and over any run of frames the fall
    starts at most once and destruction never comes in the frame the fall starts. */
module ExplosionProperties {
  import opened Explosion

  // ---------------------------------------------------------------------------------------
  // Colliders

  /** Switching on flips whether a rendered object has a collider, adds only convex ones,
      and never touches anything else. */
  lemma SwitchOnToggles(p: Part)
    ensures var r := SwitchCollider(p, true);
      r.hasRenderer == p.hasRenderer && r.body == p.body &&
      (p.hasRenderer ==> (r.collider.Some? <==> p.collider.None?)) &&
      (r.collider.Some? && p.hasRenderer ==> r.collider.value.convex) &&
      (!p.hasRenderer ==> r == p)
  {
  }

  /** Switching colliders on twice puts back a collider exactly where there was one. */
  lemma SwitchOnTwice(d: Debris)
    ensures var r := SwitchColliders(SwitchColliders(d, true), true);
      |r.children| == |d.children| &&
      (r.root.collider.Some? <==> d.root.collider.Some?) &&
      forall i :: 0 <= i < |d.children| ==>
        (r.children[i].collider.Some? <==> d.children[i].collider.Some?)
  {
  }

  /** Switching off leaves no collider on any rendered object, leaves objects without a
      renderer alone, and keeps every body, the flags and the timer. */
  lemma SwitchOffClears(d: Debris)
    ensures var r := SwitchColliders(d, false);
      r.hasExploded == d.hasExploded && r.falling == d.falling &&
      r.destroyTimer == d.destroyTimer && |r.children| == |d.children| &&
      (d.root.hasRenderer ==> r.root.collider.None?) &&
      (!d.root.hasRenderer ==> r.root == d.root) && r.root.body == d.root.body &&
      forall i :: 0 <= i < |d.children| ==>
        r.children[i].body == d.children[i].body &&
        (d.children[i].hasRenderer ==> r.children[i].collider.None?) &&
        (!d.children[i].hasRenderer ==> r.children[i] == d.children[i])
  {
  }

  // ---------------------------------------------------------------------------------------
  // Bodies

  /** A root that already has a body stops the whole pass, children included. */
  lemma AddBodyGuard(cfg: Config, d: Debris)
    requires d.root.body.Some?
    ensures AddBody(cfg, d) == d
  {
  }

  /** Otherwise the root gets a fresh body exactly when it has a renderer, every rendered
      child ends up with a body, a child's existing body is kept as it was, and colliders
      are not touched. */
  lemma AddBodyEffects(cfg: Config, d: Debris)
    requires d.root.body.None?
    ensures var r := AddBody(cfg, d);
      (r.root.body.Some? <==> d.root.hasRenderer) &&
      (r.root.body.Some? ==> r.root.body.value == NewBody(cfg)) &&
      r.root.collider == d.root.collider &&
      |r.children| == |d.children| &&
      forall i :: 0 <= i < |d.children| ==>
        r.children[i].collider == d.children[i].collider &&
        (d.children[i].hasRenderer ==> r.children[i].body.Some?) &&
        (d.children[i].body.Some? ==> r.children[i] == d.children[i]) &&
        (d.children[i].body.None? && d.children[i].hasRenderer ==>
          r.children[i].body == Some(NewBody(cfg))) &&
        (!d.children[i].hasRenderer ==> r.children[i] == d.children[i])
  {
  }

  /** Explode raises the flag, turns gravity on for the root's body and, unless the impulse
      on that body faults for want of a parent, for every child body there is afterwards;
      it keeps the bodies AddBody leaves otherwise as they are, and leaves colliders, the
      timer and the fall flag alone. After the fault the children are as AddBody left them. */
  lemma ExplodeEffects(cfg: Config, d: Debris)
    ensures var r := Explode(cfg, d); var a := AddBody(cfg, d);
      r.hasExploded && r.falling == d.falling && r.destroyTimer == d.destroyTimer &&
      r.root.collider == d.root.collider &&
      (r.root.body.Some? <==> a.root.body.Some?) &&
      (r.root.body.Some? ==> r.root.body.value == a.root.body.value.(useGravity := true)) &&
      (ParentFault(a) <==> a.root.body.Some? && !d.hasParent) &&
      (ParentFault(a) ==> r.children == a.children) &&
      |r.children| == |d.children| &&
      forall i :: 0 <= i < |d.children| ==>
        r.children[i].collider == d.children[i].collider &&
        (r.children[i].body.Some? <==> a.children[i].body.Some?) &&
        (!ParentFault(a) && r.children[i].body.Some? ==>
          r.children[i].body.value == a.children[i].body.value.(useGravity := true))
  {
  }

  /** After a first explosion every rendered object that lacked a body has one, so a second
      explosion adds nothing and changes nothing. */
  lemma ExplodeIdempotent(cfg: Config, d: Debris)
    ensures Explode(cfg, Explode(cfg, d)) == Explode(cfg, d)
  {
    var once := Explode(cfg, d);
    var twice := Explode(cfg, once);
    if once.root.body.None? {
      // The root had no renderer: the child pass runs again and finds nothing to add.
      assert d.root.body.None?;
      assert AddBody(cfg, once).children == once.children by {
        forall i | 0 <= i < |once.children|
          ensures AddBodiesToChildren(cfg, once.children)[i] == once.children[i]
        {
        }
      }
    }
    assert twice.children == once.children by {
      forall i | 0 <= i < |once.children|
        ensures twice.children[i] == once.children[i]
      {
      }
    }
  }

  // ---------------------------------------------------------------------------------------
  // Lifecycle

  /** Start clears both flags and the timer and switches every collider on. */
  lemma StartResets(d: Debris)
    ensures var r := Start(d);
      !r.hasExploded && !r.falling && r.destroyTimer == 0.0 &&
      r.root == SwitchCollider(d.root, true) && r.children == SwitchChildren(d.children, true)
  {
  }

  /** Before the explosion a frame changes nothing. */
  lemma UpdateBeforeExplosion(cfg: Config, d: Debris, dt: real)
    requires !d.hasExploded
    ensures Update(cfg, d, dt) == Step(d, false)
  {
  }

  /** After it, the timer grows by the frame's time, the explosion flag stays, and a fall
      once started never stops; a frame of a prop already falling changes nothing else, so
      its colliders are left alone. */
  lemma UpdateAfterExplosion(cfg: Config, d: Debris, dt: real)
    requires d.hasExploded
    ensures var r := Update(cfg, d, dt).debris;
      r.hasExploded && r.destroyTimer == d.destroyTimer + dt && (d.falling ==> r.falling) &&
      (d.falling ==> r == d.(destroyTimer := d.destroyTimer + dt))
  {
  }

  /** The fall starts exactly on the first frame at or past the fall time, and the only
      other change in that frame is the colliders switched off; nothing is destroyed. */
  lemma FallStartsOnTime(cfg: Config, d: Debris, dt: real)
    requires d.hasExploded && !d.falling
    ensures var s := Update(cfg, d, dt);
      (s.debris.falling <==> d.destroyTimer + dt >= cfg.fallSecondsAfterExplosion) &&
      !s.destroy &&
      (s.debris.falling ==>
        s.debris == SwitchColliders(d.(destroyTimer := d.destroyTimer + dt, falling := true), false)) &&
      (!s.debris.falling ==> s.debris == d.(destroyTimer := d.destroyTimer + dt))
  {
  }

  /** A frame destroys the object exactly when it was already falling as the frame began and
      the timer is then strictly past twice the fall time (and at or past the fall time). */
  lemma DestroyOnlyAfterFall(cfg: Config, d: Debris, dt: real)
    ensures var t := d.destroyTimer + dt;
      Update(cfg, d, dt).destroy <==>
        d.hasExploded && d.falling && t >= cfg.fallSecondsAfterExplosion &&
        t > cfg.fallSecondsAfterExplosion * 2.0
  {
  }

  /** A frame that starts the fall never destroys. */
  lemma NeverFallAndDestroyTogether(cfg: Config, d: Debris, dt: real)
    ensures var s := Update(cfg, d, dt);
      !d.falling && s.debris.falling ==> !s.destroy
  {
  }

  /** Once falling, always falling. */
  lemma FallingStays(cfg: Config, d: Debris, dt: real)
    requires d.falling
    ensures Update(cfg, d, dt).debris.falling
  {
  }

  /** Over any run of frames the colliders are switched off at most once; never again once
      the fall has started. */
  lemma {:induction false} FallStartsAtMostOnce(cfg: Config, d: Debris, dts: seq<real>)
    ensures FallStarts(cfg, d, dts) <= 1
    ensures d.falling ==> FallStarts(cfg, d, dts) == 0
    decreases |dts|
  {
    if dts != [] {
      var next := Update(cfg, d, dts[0]).debris;
      FallStartsAtMostOnce(cfg, next, dts[1..]);
      if d.falling {
        FallingStays(cfg, d, dts[0]);
      } else if next.falling {
        assert FallStarts(cfg, next, dts[1..]) == 0;
      }
    }
  }

  /** Before the explosion, no run of frames changes anything or destroys the object. */
  lemma {:induction false} RunBeforeExplosion(cfg: Config, d: Debris, dts: seq<real>)
    requires !d.hasExploded
    ensures Run(cfg, d, dts) == Step(d, false)
    decreases |dts|
  {
    if dts != [] {
      UpdateBeforeExplosion(cfg, d, dts[0]);
      RunBeforeExplosion(cfg, d, dts[1..]);
    }
  }

  /** Total time of a run of frames; a prop's frames carry only their durations, so this is
      a sum over reals rather than the frame-record sums of Drive and Balance. */
  function Elapsed(dts: seq<real>): real
    decreases |dts|
  {
    if dts == [] then 0.0 else dts[0] + Elapsed(dts[1..])
  }

  /** After the explosion the timer is the time at the explosion plus all the time since. */
  lemma {:induction false} RunTimer(cfg: Config, d: Debris, dts: seq<real>)
    requires d.hasExploded
    ensures Run(cfg, d, dts).debris.hasExploded
    ensures Run(cfg, d, dts).debris.destroyTimer == d.destroyTimer + Elapsed(dts)
    decreases |dts|
  {
    if dts != [] {
      var next := Update(cfg, d, dts[0]).debris;
      UpdateAfterExplosion(cfg, d, dts[0]);
      RunTimer(cfg, next, dts[1..]);
    }
  }
}
