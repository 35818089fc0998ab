/**
 * `MaterialPropertyValue`: the variant a material property holds, shared by the
 * version updates, the source-data inheritance and the JSON serializer.
 */
module MaterialValue {
  import opened Wrappers
  import opened AzMath

  newtype int32 = x: int | -0x8000_0000 <= x < 0x8000_0000
  newtype uint32 = x: int | 0 <= x < 0x1_0000_0000

  /** The alternatives of the variant, as the type ids the code compares. */
  datatype ValueType =
    | InvalidType
    | BoolType
    | Int32Type
    | UInt32Type
    | FloatType
    | Vector2Type
    | Vector3Type
    | Vector4Type
    | ColorType
    | ImageAssetType
    | ImageInstanceType
    | StringType

  /** A reference to an image asset; `id` is `None` for the empty reference. */
  datatype ImageAssetRef = ImageAssetRef(id: Option<string>, preLoad: bool)

  /** The variant; `Invalid` is the empty (monostate) value. */
  datatype Value =
    | Invalid
    | Bool(b: bool)
    | Int32(i: int32)
    | UInt32(u: uint32)
    | Float(f: real)
    | Vec2(v2: Vector2)
    | Vec3(v3: Vector3)
    | Vec4(v4: Vector4)
    | Col(c: Color)
    | ImageAsset(asset: ImageAssetRef)
    | ImageInstance(instanceId: string)
    | Str(s: string)

  /** The type id of the alternative a value holds. */
  function TypeOf(v: Value): ValueType
  {
    match v
    case Invalid => InvalidType
    case Bool(_) => BoolType
    case Int32(_) => Int32Type
    case UInt32(_) => UInt32Type
    case Float(_) => FloatType
    case Vec2(_) => Vector2Type
    case Vec3(_) => Vector3Type
    case Vec4(_) => Vector4Type
    case Col(_) => ColorType
    case ImageAsset(_) => ImageAssetType
    case ImageInstance(_) => ImageInstanceType
    case Str(_) => StringType
  }

  /** `IsValid`: the value holds something other than the empty alternative. */
  predicate IsValid(v: Value)
  {
    !v.Invalid?
  }
}
