/**
 * The DirectXMath vocabulary the scene-state code uses.
 *
 * Storage types (XMFLOAT3, XMFLOAT4, XMFLOAT4X4) are records of reals; float
 * rounding is not modelled. The library routines that build and combine
 * matrices, and that rotate vectors, are not defined here: a `Library` value
 * carries one function per routine, and every statement about the model holds
 * for every such value, so nothing is assumed about what the routines compute
 * beyond what a lemma explicitly requires.
 */
module Math {

  /** XMFLOAT3: a position, an offset, Euler angles (pitch, yaw, roll) or a scale. */
  datatype Float3 = Float3(x: real, y: real, z: real)

  /** XMFLOAT4: a colour (r, g, b, a) or a quaternion. */
  datatype Float4 = Float4(x: real, y: real, z: real, w: real)

  /** XMFLOAT4X4, row by row. */
  datatype Float4x4 = Float4x4(r0: Float4, r1: Float4, r2: Float4, r3: Float4)

  const Zero := Float3(0.0, 0.0, 0.0)
  const One := Float3(1.0, 1.0, 1.0)

  /** XMMatrixIdentity. */
  function Identity(): Float4x4
  {
    Float4x4(Float4(1.0, 0.0, 0.0, 0.0),
             Float4(0.0, 1.0, 0.0, 0.0),
             Float4(0.0, 0.0, 1.0, 0.0),
             Float4(0.0, 0.0, 0.0, 1.0))
  }

  /** Component-wise sum, as `v.x += d.x; v.y += d.y; v.z += d.z`. */
  function Add(a: Float3, b: Float3): Float3
  {
    Float3(a.x + b.x, a.y + b.y, a.z + b.z)
  }

  /** Component-wise product, as `v.x *= f.x; v.y *= f.y; v.z *= f.z`. */
  function Mul(a: Float3, b: Float3): Float3
  {
    Float3(a.x * b.x, a.y * b.y, a.z * b.z)
  }

  /**
   * The DirectXMath routines the core calls, one field per routine, each left
   * uninterpreted. Argument order follows the library: Euler angles are
   * (pitch, yaw, roll); `matrixMultiply(a, b)` is `a * b`; `matrixInverse`
   * stands for `XMMatrixInverse(nullptr, m)`.
   */
  datatype Library = Library(
    matrixScaling: Float3 -> Float4x4,                    // XMMatrixScaling
    matrixRotationRollPitchYaw: Float3 -> Float4x4,       // XMMatrixRotationRollPitchYaw
    matrixTranslation: Float3 -> Float4x4,                // XMMatrixTranslation
    matrixMultiply: (Float4x4, Float4x4) -> Float4x4,     // operator* on XMMATRIX
    matrixTranspose: Float4x4 -> Float4x4,                // XMMatrixTranspose
    matrixInverse: Float4x4 -> Float4x4,                  // XMMatrixInverse
    quaternionRotationRollPitchYaw: Float3 -> Float4,     // XMQuaternionRotationRollPitchYaw
    vector3Rotate: (Float3, Float4) -> Float3,            // XMVector3Rotate
    matrixLookToLH: (Float3, Float3, Float3) -> Float4x4, // XMMatrixLookToLH
    matrixPerspectiveFovLH: (real, real, real, real) -> Float4x4) // XMMatrixPerspectiveFovLH

  /** Rotate `v` by the orientation the Euler angles `euler` describe, through a quaternion. */
  function RotateByEuler(lib: Library, v: Float3, euler: Float3): Float3
  {
    lib.vector3Rotate(v, lib.quaternionRotationRollPitchYaw(euler))
  }
}
