/**
 * The object value union and store of crates/core/src/structures/object.rs.
 * The file repeats src/structures/properties.rs with the value type renamed;
 * the bijection below shows that the two stores hold the same information.
 */
module Objects {
  import opened Ints
  import Geometry
  import ColorSpaces
  import KeyedStore
  import P = Properties

  /** The closed tagged union of object payloads; `None` is the default. */
  datatype ObjectValues =
    | None
    | Int(int32: I32)
    | Int64(int64: I64)
    | Double(float: Geometry.F32)
    | String(text: string)
    | Position(position: Geometry.Position)
    | Rect(rect: Geometry.Rect)
    | Buffer(bytes: seq<U8>)
    | Color(color: ColorSpaces.ColorSpace)

  const Default: ObjectValues := None

  type Object = KeyedStore.Store<ObjectValues>

  /** The property value with the same variant and payload. */
  function ToPropertyValue(v: ObjectValues): (r: P.PropertyValue)
    ensures v.None? <==> r == P.None
    ensures v.Int? ==> r == P.Int(v.int32)
    ensures v.Int64? ==> r == P.Int64(v.int64)
    ensures v.Double? ==> r == P.Double(v.float)
    ensures v.String? ==> r == P.String(v.text)
    ensures v.Position? ==> r == P.Position(v.position)
    ensures v.Rect? ==> r == P.Rect(v.rect)
    ensures v.Buffer? ==> r == P.Buffer(v.bytes)
    ensures v.Color? ==> r == P.Color(v.color)
  {
    match v
    case None => P.None
    case Int(i) => P.Int(i)
    case Int64(i) => P.Int64(i)
    case Double(f) => P.Double(f)
    case String(s) => P.String(s)
    case Position(p) => P.Position(p)
    case Rect(r) => P.Rect(r)
    case Buffer(b) => P.Buffer(b)
    case Color(c) => P.Color(c)
  }

  /** The object value with the same variant and payload. */
  function FromPropertyValue(v: P.PropertyValue): (r: ObjectValues)
    ensures v.None? <==> r == None
    ensures v.Int? ==> r == Int(v.int32)
    ensures v.Int64? ==> r == Int64(v.int64)
    ensures v.Double? ==> r == Double(v.float)
    ensures v.String? ==> r == String(v.text)
    ensures v.Position? ==> r == Position(v.position)
    ensures v.Rect? ==> r == Rect(v.rect)
    ensures v.Buffer? ==> r == Buffer(v.bytes)
    ensures v.Color? ==> r == Color(v.color)
  {
    match v
    case None => None
    case Int(i) => Int(i)
    case Int64(i) => Int64(i)
    case Double(f) => Double(f)
    case String(s) => String(s)
    case Position(p) => Position(p)
    case Rect(r) => Rect(r)
    case Buffer(b) => Buffer(b)
    case Color(c) => Color(c)
  }

  /** The two unions are the same closed set of variants: the conversions invert each other. */
  lemma ValuesCorrespond(v: ObjectValues, w: P.PropertyValue)
    ensures FromPropertyValue(ToPropertyValue(v)) == v
    ensures ToPropertyValue(FromPropertyValue(w)) == w
    ensures ToPropertyValue(Default) == P.Default
  {
  }

  /** The contents of an object store, seen as the contents of a property store. */
  function AsProperties(m: map<string, ObjectValues>): (r: map<string, P.PropertyValue>)
    ensures r.Keys == m.Keys
    ensures forall k :: k in m ==> r[k] == ToPropertyValue(m[k])
  {
    map k | k in m :: ToPropertyValue(m[k])
  }

  /**
   * `set`, `remove` and `clear` of an object store and of a property store
   * agree under the conversion: the two files implement the same store.
   */
  lemma StoresAgree(m: map<string, ObjectValues>, key: string, v: ObjectValues)
    ensures AsProperties(m[key := v]) == AsProperties(m)[key := ToPropertyValue(v)]
    ensures AsProperties(m - {key}) == AsProperties(m) - {key}
    ensures AsProperties(map[]) == map[]
  {
  }
}
