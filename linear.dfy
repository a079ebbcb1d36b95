/** Vector and matrix primitives the triangle pipeline is built on.
    Components are mathematical reals standing in for `f32`. */
module Linear {

  datatype Vec2 = Vec2(x: real, y: real)

  datatype Vec3 = Vec3(x: real, y: real, z: real)

  /** A homogeneous point or a matrix row. */
  datatype Vec4 = Vec4(x: real, y: real, z: real, w: real)

  /** A 4x4 matrix, stored as its four rows. */
  datatype Mat4 = Mat4(r0: Vec4, r1: Vec4, r2: Vec4, r3: Vec4)

  function Dot(a: Vec4, b: Vec4): real {
    a.x * b.x + a.y * b.y + a.z * b.z + a.w * b.w
  }

  /** Drops the homogeneous coordinate. */
  function Truncate(v: Vec4): Vec3 {
    Vec3(v.x, v.y, v.z)
  }

  function Column(m: Mat4, j: nat): Vec4
    requires j < 4
  {
    if j == 0 then Vec4(m.r0.x, m.r1.x, m.r2.x, m.r3.x)
    else if j == 1 then Vec4(m.r0.y, m.r1.y, m.r2.y, m.r3.y)
    else if j == 2 then Vec4(m.r0.z, m.r1.z, m.r2.z, m.r3.z)
    else Vec4(m.r0.w, m.r1.w, m.r2.w, m.r3.w)
  }

  /** Matrix times column vector. */
  function MulVec(m: Mat4, v: Vec4): Vec4 {
    Vec4(Dot(m.r0, v), Dot(m.r1, v), Dot(m.r2, v), Dot(m.r3, v))
  }

  function RowTimes(r: Vec4, b: Mat4): Vec4 {
    Vec4(Dot(r, Column(b, 0)), Dot(r, Column(b, 1)), Dot(r, Column(b, 2)), Dot(r, Column(b, 3)))
  }

  /** Matrix product `a * b`. */
  function Mul(a: Mat4, b: Mat4): Mat4 {
    Mat4(RowTimes(a.r0, b), RowTimes(a.r1, b), RowTimes(a.r2, b), RowTimes(a.r3, b))
  }

  const Identity: Mat4 :=
    Mat4(Vec4(1.0, 0.0, 0.0, 0.0), Vec4(0.0, 1.0, 0.0, 0.0),
         Vec4(0.0, 0.0, 1.0, 0.0), Vec4(0.0, 0.0, 0.0, 1.0))

  lemma IdentityMulVec(v: Vec4)
    ensures MulVec(Identity, v) == v
  {
  }

  lemma IdentityMul(m: Mat4)
    ensures Mul(Identity, m) == m
  {
  }
}
