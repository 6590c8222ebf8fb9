/**
 * Two-component vectors over exact reals, standing in for the number pairs
 * the application hands to the vector helper library (`Vec.add`, `Vec.sub`,
 * `Vec.div`), which act on the x and y components only.
 */
module Vectors {
  datatype Vec = Vec(x: real, y: real)

  /** The three-component delta of a pinch gesture: x and y pan, z zoom. */
  datatype Vec3 = Vec3(x: real, y: real, z: real)

  const Zero: Vec := Vec(0.0, 0.0)

  function Add(a: Vec, b: Vec): Vec {
    Vec(a.x + b.x, a.y + b.y)
  }

  function Sub(a: Vec, b: Vec): Vec {
    Vec(a.x - b.x, a.y - b.y)
  }

  function Neg(a: Vec): Vec {
    Vec(-a.x, -a.y)
  }

  /** Component-wise division by a scalar. */
  function Div(a: Vec, z: real): Vec
    requires z != 0.0
  {
    Vec(a.x / z, a.y / z)
  }

  /** Component-wise multiplication by a scalar. */
  function Mul(a: Vec, z: real): Vec {
    Vec(a.x * z, a.y * z)
  }

  /** The x and y part of a three-component delta. */
  function Xy(d: Vec3): Vec {
    Vec(d.x, d.y)
  }
}
