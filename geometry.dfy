/**
 * The vertex types of Structures/Vertex.h.  Components are floats; the core
 * only copies and negates them, so they are modelled as reals.
 */
module Geometry {

  datatype Vector2 = Vector2(x: real, y: real)

  datatype Vector3 = Vector3(x: real, y: real, z: real)

  datatype Vector4 = Vector4(x: real, y: real, z: real, w: real)

  /** Vertex: position, normal and texture coordinate. */
  datatype Vertex = Vertex(position: Vector3, normal: Vector3, texCoord: Vector2)

  /** A value-initialised Vector2 / Vector3 / Vector4: all components zero. */
  const ZERO2: Vector2 := Vector2(0.0, 0.0)
  const ZERO3: Vector3 := Vector3(0.0, 0.0, 0.0)
  const ZERO4: Vector4 := Vector4(0.0, 0.0, 0.0, 0.0)
}
