/** Positions and the mutable transform of a game object. */
module Transforms {

  /** A point or direction in world space. */
  datatype Vec3 = Vec3(x: real, y: real, z: real) {

    function Plus(other: Vec3): Vec3 {
      Vec3(x + other.x, y + other.y, z + other.z)
    }

    function Scale(k: real): Vec3 {
      Vec3(k * x, k * y, k * z)
    }
  }

  /** The part of a game object's transform that the scripts write: its position.
      Rotation is only ever changed by interpolation and is not modelled. */
  class Transform {
    var position: Vec3

    constructor (position: Vec3)
      ensures this.position == position
    {
      this.position := position;
    }
  }
}
