/** Two-dimensional vectors. `Vec` is the value of a vector (its x and y fields); `Vector` is a
    vector object, used where the identity of a vector matters (a vehicle's gravity, which a clone
    shares with its original). Reals stand in for IEEE-754 doubles. */
module Vectors {

  datatype Vec = Vec(x: real, y: real)

  function Add(u: Vec, v: Vec): Vec { Vec(u.x + v.x, u.y + v.y) }

  function Sub(u: Vec, v: Vec): Vec { Vec(u.x - v.x, u.y - v.y) }

  function Scale(v: Vec, s: real): Vec { Vec(v.x * s, v.y * s) }

  function Dot(u: Vec, v: Vec): real { u.x * v.x + u.y * v.y }

  /** The z component of the cross product: zero exactly when u and v are parallel. */
  function Cross(u: Vec, v: Vec): real { u.x * v.y - u.y * v.x }

  function Midpoint(p: Vec, q: Vec): Vec { Scale(Add(p, q), 0.5) }

  /** A vector object. */
  class Vector {
    var x: real
    var y: real

    constructor (x0: real, y0: real)
      ensures x == x0 && y == y0
    {
      x, y := x0, y0;
    }

    function Val(): Vec
      reads this
    {
      Vec(x, y)
    }
  }
}
