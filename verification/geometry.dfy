/**
 * Geometry primitives (src/geometry.rs).
 *
 * A `Coordinate` is an f32. The model keeps an f32 as its 32-bit IEEE-754
 * pattern and never evaluates floating-point arithmetic: wherever the source
 * divides two f32 values, the division is passed in as an operator, so the
 * proofs say which values are divided, never what the quotient is.
 */
module Geometry {

  /** An f32, kept as its bit pattern. */
  datatype F32 = F32(bits: bv32)

  /** `0.0f32`, the value of `f32::default()`. */
  const Zero: F32 := F32(0)

  /** IEEE-754 single-precision division, left uninterpreted. */
  type Division = (F32, F32) -> F32

  type Coordinate = F32

  datatype Position = Position(x: Coordinate, y: Coordinate)

  /** Dimensions of a frame (the geometry `Frame`, not the video frame). */
  datatype Frame = Frame(width: Coordinate, height: Coordinate)

  /** A rectangle. The model assumes four sides; no modelled property reads them. */
  datatype Rect = Rect(top: Coordinate, left: Coordinate, right: Coordinate, bottom: Coordinate)

  const DefaultPosition: Position := Position(Zero, Zero)
  const DefaultFrame: Frame := Frame(Zero, Zero)
}
