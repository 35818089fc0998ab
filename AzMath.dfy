/**
 * The AZ math value types that the modelled code passes around. Single-precision
 * components are modelled as reals: rounding is not part of any property proved here.
 */
module AzMath {
  datatype Vector2 = Vector2(x: real, y: real)
  datatype Vector3 = Vector3(x: real, y: real, z: real)
  datatype Vector4 = Vector4(x: real, y: real, z: real, w: real)
  datatype Color = Color(r: real, g: real, b: real, a: real)
}
