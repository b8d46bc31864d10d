/** Three-component vectors over the reals and glm's 4x4 matrices as
    uninterpreted terms: glm::perspective, glm::frustum, glm::lookAt and the
    model transforms are never evaluated, only built and compared. */
module Linear {

  datatype Vec3 = Vec3(x: real, y: real, z: real)

  function Add(a: Vec3, b: Vec3): Vec3
  {
    Vec3(a.x + b.x, a.y + b.y, a.z + b.z)
  }

  function Sub(a: Vec3, b: Vec3): Vec3
  {
    Vec3(a.x - b.x, a.y - b.y, a.z - b.z)
  }

  function Scale(k: real, a: Vec3): Vec3
  {
    Vec3(k * a.x, k * a.y, k * a.z)
  }

  function Dot(a: Vec3, b: Vec3): real
  {
    a.x * b.x + a.y * b.y + a.z * b.z
  }

  /** A glm::mat4 as the term that built it. */
  datatype Mat4 =
    | Identity
    | Perspective(fovYDegrees: real, aspect: real, zNear: real, zFar: real)
    | Frustum(left: real, right: real, bottom: real, top: real, zNear: real, zFar: real)
    | LookAt(eye: Vec3, center: Vec3, up: Vec3)
    | Translate(base: Mat4, offset: Vec3)
    | ScaleBy(base: Mat4, factors: Vec3)
      /** translate * rotate * scale of a random box whose eight rand() draws
          start at firstDraw */
    | RandomModel(firstDraw: nat)
    | Product(lhs: Mat4, rhs: Mat4)
}
