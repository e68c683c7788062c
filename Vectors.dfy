/** Three-component vectors (THREE.Vector3 and the `Vector3` record shape), over exact reals. */
module Vectors {

  datatype Vector3 = Vector3(x: real, y: real, z: real)

  function Dot(u: Vector3, v: Vector3): real {
    u.x * v.x + u.y * v.y + u.z * v.z
  }

  /** `u.clone().cross(v)`: the right-handed cross product. */
  function Cross(u: Vector3, v: Vector3): (w: Vector3)
    ensures Dot(w, u) == 0.0 && Dot(w, v) == 0.0
  {
    Vector3(u.y * v.z - u.z * v.y, u.z * v.x - u.x * v.z, u.x * v.y - u.y * v.x)
  }

  function Scale(v: Vector3, k: real): Vector3 {
    Vector3(k * v.x, k * v.y, k * v.z)
  }

  /** `norm` is the Euclidean length, `Vector3.length()`: the non-negative square root of v·v. */
  ghost predicate IsEuclideanNorm(norm: Vector3 -> real) {
    forall v :: norm(v) >= 0.0 && norm(v) * norm(v) == Dot(v, v)
  }
}
