/** The raw sample buffer (crates/core/src/structures/buffer.rs). */
module Buffers {
  import Geometry
  import opened Ints

  /** Exactly one owned sample array is active. */
  datatype Buffer =
    | OwnedU8(u8s: seq<U8>)
    | OwnedI16(i16s: seq<I16>)
    | OwnedI32(i32s: seq<I32>)
    | OwnedF32(f32s: seq<Geometry.F32>)

  /** `mem::size_of` of the active element type. */
  function ElementWidth(b: Buffer): (w: nat)
    ensures w == 1 <==> b.OwnedU8?
    ensures w == 2 <==> b.OwnedI16?
    ensures w == 4 <==> b.OwnedI32? || b.OwnedF32?
  {
    match b
    case OwnedU8(_) => 1
    case OwnedI16(_) => 2
    case OwnedI32(_) => 4
    case OwnedF32(_) => 4
  }

  /** Number of elements of the active array. */
  function LenElems(b: Buffer): (n: nat)
    ensures b.OwnedU8? ==> n == |b.u8s|
    ensures b.OwnedI16? ==> n == |b.i16s|
    ensures b.OwnedI32? ==> n == |b.i32s|
    ensures b.OwnedF32? ==> n == |b.f32s|
  {
    match b
    case OwnedU8(v) => |v|
    case OwnedI16(v) => |v|
    case OwnedI32(v) => |v|
    case OwnedF32(v) => |v|
  }

  /** Number of bytes of the active array. */
  function LenBytes(b: Buffer): (n: nat)
    ensures n == LenElems(b) * ElementWidth(b)
    ensures n >= LenElems(b)
    ensures n == LenElems(b) <==> b.OwnedU8? || LenElems(b) == 0
    ensures n == 0 <==> LenElems(b) == 0
  {
    match b
    case OwnedU8(v) => |v|
    case OwnedI16(v) => |v| * 2
    case OwnedI32(v) => |v| * 4
    case OwnedF32(v) => |v| * 4
  }

  /** Both lengths depend only on the variant and the element count, never on the elements. */
  lemma LengthsIgnoreElements(a: Buffer, b: Buffer)
    requires ElementWidth(a) == ElementWidth(b) && LenElems(a) == LenElems(b)
    ensures LenBytes(a) == LenBytes(b)
  {
  }

  /** An `i32` buffer of four elements holds 16 bytes. */
  lemma FourI32Samples(v: seq<I32>)
    requires |v| == 4
    ensures LenElems(OwnedI32(v)) == 4 && LenBytes(OwnedI32(v)) == 16
  {
  }
}
