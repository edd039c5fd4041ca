/** The explosion lifecycle of a breakable prop (Scripts/ExplodeBodies.cs) as functions on a
    snapshot of the object: its own components, the components of its direct children, and
    the exploded / falling flags with the timer that drives them.

    A game object is reduced to what the script tests and changes on it: whether it has a
    mesh renderer, its rigidbody if any, and its mesh collider if any. */
module Explosion {

  datatype Option<T> = None | Some(value: T)

  /** The rigidbody fields the script writes. */
  datatype Rigidbody = Rigidbody(mass: real, drag: real, angularDrag: real, useGravity: bool)

  /** A mesh collider; the script only ever sets the convex flag. */
  datatype MeshCollider = MeshCollider(convex: bool)

  /** One game object: the root or one of its children. */
  datatype Part = Part(hasRenderer: bool, body: Option<Rigidbody>, collider: Option<MeshCollider>)

  /** Designer-tuned constants (ExplodeBodies.cs:11-16); the explosion force and radius only
      feed the physics impulse, which is not modelled. */
  datatype Config = Config(fallSecondsAfterExplosion: real, mass: real, drag: real, angularDrag: real)

  const DefaultConfig := Config(5.0, 500.0, 1.0, 1.0)

  /** The script's own fields and the parts it works on; hasParent says whether the object
      sits under a parent in the scene hierarchy, which the explosion impulse reads. */
  datatype Debris = Debris(
    hasExploded: bool,
    destroyTimer: real,
    falling: bool,
    root: Part,
    children: seq<Part>,
    hasParent: bool)

  // ---------------------------------------------------------------------------------------
  // Colliders

  /** One object's collider switch: objects without a renderer are skipped; switching on an
      object without a collider adds a convex one; in every other case an existing collider
      is destroyed, also when switching on. */
  function SwitchCollider(p: Part, on: bool): Part {
    if !p.hasRenderer then p
    else if on && p.collider.None? then p.(collider := Some(MeshCollider(true)))
    else p.(collider := None)
  }

  /** SwitchCollidersToChildren: the switch applied to every direct child. */
  function SwitchChildren(children: seq<Part>, on: bool): (r: seq<Part>)
    ensures |r| == |children|
  {
    seq(|children|, i requires 0 <= i < |children| => SwitchCollider(children[i], on))
  }

  /** SwitchColliders: the root, then the children. */
  function SwitchColliders(d: Debris, on: bool): Debris {
    d.(root := SwitchCollider(d.root, on), children := SwitchChildren(d.children, on))
  }

  // ---------------------------------------------------------------------------------------
  // Bodies

  /** The body the script attaches: configured mass and drags, gravity off. */
  function NewBody(cfg: Config): Rigidbody {
    Rigidbody(cfg.mass, cfg.drag, cfg.angularDrag, false)
  }

  /** One child in AddBodiesToChildren: a body is added when there is none and the child
      has a renderer. */
  function WithBody(cfg: Config, p: Part): Part {
    if p.body.None? && p.hasRenderer then p.(body := Some(NewBody(cfg))) else p
  }

  function AddBodiesToChildren(cfg: Config, children: seq<Part>): (r: seq<Part>)
    ensures |r| == |children|
  {
    seq(|children|, i requires 0 <= i < |children| => WithBody(cfg, children[i]))
  }

  /** AddBody: nothing happens when the root already has a body; otherwise the root gets one
      when it has a renderer, and the children are visited. */
  function AddBody(cfg: Config, d: Debris): Debris {
    if d.root.body.Some? then d
    else
      var root := if d.root.hasRenderer then d.root.(body := Some(NewBody(cfg))) else d.root;
      d.(root := root, children := AddBodiesToChildren(cfg, d.children))
  }

  /** Gravity switched on for an object's body, if it has one. */
  function Drop(p: Part): Part {
    if p.body.Some? then p.(body := Some(p.body.value.(useGravity := true))) else p
  }

  function DropChildren(children: seq<Part>): (r: seq<Part>)
    ensures |r| == |children|
  {
    seq(|children|, i requires 0 <= i < |children| => Drop(children[i]))
  }

  /** Explode: bodies added, the flag raised, and gravity on for every body of the root and
      its direct children. The impulse on the root's body reads the parent's position: a
      root with a body but no parent throws there, after its gravity is on, and the child
      pass never runs. */
  function Explode(cfg: Config, d: Debris): Debris {
    var added := AddBody(cfg, d).(hasExploded := true);
    var dropped := added.(root := Drop(added.root));
    if ParentFault(added) then dropped
    else dropped.(children := DropChildren(added.children))
  }

  /** The impulse on the root's body dereferences a missing parent. */
  predicate ParentFault(d: Debris) {
    d.root.body.Some? && !d.hasParent
  }

  // ---------------------------------------------------------------------------------------
  // Lifecycle

  /** Start: flags cleared, timer 0, colliders switched on. */
  function Start(d: Debris): Debris {
    SwitchColliders(d.(hasExploded := false, falling := false, destroyTimer := 0.0), true)
  }

  /** The outcome of one frame: the new state, and whether the game object was destroyed. */
  datatype Step = Step(debris: Debris, destroy: bool)

  /** Update: once exploded, the timer advances; the first frame at or past the fall time
      starts the fall and switches the colliders off; a later frame past twice the fall
      time destroys the object. */
  function Update(cfg: Config, d: Debris, dt: real): Step {
    if !d.hasExploded then Step(d, false)
    else
      var t := d.(destroyTimer := d.destroyTimer + dt);
      if t.destroyTimer >= cfg.fallSecondsAfterExplosion then
        if !t.falling then Step(SwitchColliders(t.(falling := true), false), false)
        else if t.destroyTimer > cfg.fallSecondsAfterExplosion * 2.0 then Step(t, true)
        else Step(t, false)
      else Step(t, false)
  }

  /** A run of frames, first frame first; the object is destroyed if any frame destroys it. */
  function Run(cfg: Config, d: Debris, dts: seq<real>): Step
    decreases |dts|
  {
    if dts == [] then Step(d, false)
    else
      var first := Update(cfg, d, dts[0]);
      var rest := Run(cfg, first.debris, dts[1..]);
      Step(rest.debris, first.destroy || rest.destroy)
  }

  /** How many frames of a run start the fall. */
  function FallStarts(cfg: Config, d: Debris, dts: seq<real>): nat
    decreases |dts|
  {
    if dts == [] then 0
    else
      var next := Update(cfg, d, dts[0]).debris;
      (if !d.falling && next.falling then 1 else 0) + FallStarts(cfg, next, dts[1..])
  }
}
