/** The optional-value and result datatypes used by the whole model. */
module Common {

  /** Python's `None` / a present value. */
  datatype Option<T> = None | Some(value: T)

  /** The one exception kind the core raises. */
  datatype Error = ValueError(message: string)

  /** A call that either returns a value or raises. */
  datatype Result<T> = Ok(value: T) | Err(error: Error)
}

/** Three-component vectors over the reals (mathutils.Vector in the source). */
module Vectors {

  datatype Vec3 = Vec3(x: real, y: real, z: real)

  /** Unary minus on a vector, `-v`. */
  function Neg(v: Vec3): (r: Vec3)
    ensures r.x == -v.x && r.y == -v.y && r.z == -v.z
  {
    Vec3(-v.x, -v.y, -v.z)
  }

  /** Component-wise division by a scalar, `v / k`. */
  function DivScalar(v: Vec3, k: real): (r: Vec3)
    requires k != 0.0
    ensures r.x * k == v.x && r.y * k == v.y && r.z * k == v.z
  {
    Vec3(v.x / k, v.y / k, v.z / k)
  }
}
