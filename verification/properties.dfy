/** The property value union and store of src/structures/properties.rs. */
module Properties {
  import opened Ints
  import Geometry
  import ColorSpaces
  import KeyedStore

  /** The closed tagged union of property payloads; `None` is the default ("value not set"). */
  datatype PropertyValue =
    | None
    | Int(int32: I32)
    | Int64(int64: I64)
    | Double(float: Geometry.F32)
    | String(text: string)
    | Position(position: Geometry.Position)
    | Rect(rect: Geometry.Rect)
    | Buffer(bytes: seq<U8>)
    | Color(color: ColorSpaces.ColorSpace)

  const Default: PropertyValue := None

  /** `Properties` and the foreign `PropertyMap` both wrap a `HashMap<String, PropertyValue>`. */
  type Properties = KeyedStore.Store<PropertyValue>
}
