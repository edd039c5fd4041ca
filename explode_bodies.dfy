/** The breakable-prop component (Scripts/ExplodeBodies.cs) as a class: its three fields,
    its own components, and an array holding its direct children, which the loops visit in
    place. Every method is proved to move the object exactly as the functions of module
    Explosion say, so the properties proved in ExplosionProperties hold of the class. */
module ExplodeScript {
  import opened Explosion

  class ExplodeBodies {
    /** The inspector-tuned constants. */
    const cfg: Config
    /** The components of the game object the script is attached to. */
    var root: Part
    /** The direct children, by index; the child count never changes. */
    const children: array<Part>
    /** Whether the game object has a parent in the scene hierarchy. */
    const hasParent: bool

    var hasExploded: bool
    var destroyTimer: real
    var falling: bool

    function Snapshot(): Debris
      reads this, children
    {
      Debris(hasExploded, destroyTimer, falling, root, children[..], hasParent)
    }

    /** The component as the engine creates it: fields at their defaults. */
    constructor (cfg: Config, root: Part, children: array<Part>, hasParent: bool)
      ensures this.cfg == cfg && this.children == children
      ensures Snapshot() == Debris(false, 0.0, false, root, children[..], hasParent)
    {
      this.cfg := cfg;
      this.root := root;
      this.children := children;
      this.hasParent := hasParent;
      hasExploded, destroyTimer, falling := false, 0.0, false;
    }

    method Start()
      modifies this, children
      ensures Snapshot() == Explosion.Start(old(Snapshot()))
    {
      hasExploded := false;
      falling := false;
      destroyTimer := 0.0;
      SwitchColliders(true);
    }

    method AddBody()
      modifies this`root, children
      ensures Snapshot() == Explosion.AddBody(cfg, old(Snapshot()))
    {
      if root.body.None? {
        if root.hasRenderer {
          root := root.(body := Some(NewBody(cfg)));
        }
        AddBodiesToChildren();
      }
    }

    method AddBodiesToChildren()
      modifies children
      ensures children[..] == Explosion.AddBodiesToChildren(cfg, old(children[..]))
    {
      var i := 0;
      while i < children.Length
        invariant 0 <= i <= children.Length
        invariant forall j :: 0 <= j < i ==> children[j] == WithBody(cfg, old(children[j]))
        invariant forall j :: i <= j < children.Length ==> children[j] == old(children[j])
      {
        if children[i].body.None? && children[i].hasRenderer {
          children[i] := children[i].(body := Some(NewBody(cfg)));
        }
        i := i + 1;
      }
    }

    method SwitchColliders(on: bool)
      modifies this`root, children
      ensures Snapshot() == Explosion.SwitchColliders(old(Snapshot()), on)
    {
      if root.hasRenderer {
        if on && root.collider.None? {
          root := root.(collider := Some(MeshCollider(true)));
        } else if root.collider.Some? {
          root := root.(collider := None);
        }
      }
      SwitchCollidersToChildren(on);
    }

    method SwitchCollidersToChildren(on: bool)
      modifies children
      ensures children[..] == SwitchChildren(old(children[..]), on)
    {
      var i := 0;
      while i < children.Length
        invariant 0 <= i <= children.Length
        invariant forall j :: 0 <= j < i ==> children[j] == SwitchCollider(old(children[j]), on)
        invariant forall j :: i <= j < children.Length ==> children[j] == old(children[j])
      {
        var meshC := children[i].collider;
        if children[i].hasRenderer {
          if on && meshC.None? {
            children[i] := children[i].(collider := Some(MeshCollider(true)));
          } else if meshC.Some? {
            children[i] := children[i].(collider := None);
          }
        }
        i := i + 1;
      }
    }

    /** The explosion impulse is a physics-engine call and is not modelled, except that on
        the root's body it reads the parent's position: without a parent it throws, and the
        rest of the method is abandoned. */
    method Explode()
      modifies this, children
      ensures Snapshot() == Explosion.Explode(cfg, old(Snapshot()))
    {
      AddBody();
      ghost var afterAdd := Snapshot();
      hasExploded := true;
      if root.body.Some? {
        root := root.(body := Some(root.body.value.(useGravity := true)));
        if !hasParent {
          return;
        }
      }
      ghost var added := children[..];
      var i := 0;
      while i < children.Length
        invariant 0 <= i <= children.Length
        invariant forall j :: 0 <= j < i ==> children[j] == Drop(added[j])
        invariant forall j :: i <= j < children.Length ==> children[j] == added[j]
        modifies children
      {
        var body := children[i].body;
        if body.Some? {
          children[i] := children[i].(body := Some(body.value.(useGravity := true)));
        }
        i := i + 1;
      }
      assert children[..] == DropChildren(afterAdd.children);
    }

    /** The frame tick; the result says whether the game object is destroyed this frame. */
    method Update(dt: real) returns (destroy: bool)
      modifies this, children
      ensures Step(Snapshot(), destroy) == Explosion.Update(cfg, old(Snapshot()), dt)
    {
      destroy := false;
      if hasExploded {
        destroyTimer := destroyTimer + dt;
        if destroyTimer >= cfg.fallSecondsAfterExplosion {
          if !falling {
            falling := true;
            SwitchColliders(false);
          } else if destroyTimer > cfg.fallSecondsAfterExplosion * 2.0 {
            destroy := true;
          }
        }
      }
    }
  }
}
