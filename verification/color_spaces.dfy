/** The color space tag (src/color/spaces.rs), a `repr(u8)` enum with implicit discriminants. */
module ColorSpaces {
  import opened Wrappers
  import opened Ints

  datatype ColorSpace =
    | Invalid
    | Unspecified
    | Reserved
    | Rgb
    | Bt601
    | Bt709
    | Bt2020Cl
    | Bt2020Ncl
    | Fcc
    | Bt470bg
    | Smpte170m
    | Smpte240m
    | Smpte2085
    | Ycgco

  /** The `#[default]` variant. */
  const Default: ColorSpace := Invalid

  /** Every variant, in declaration order. */
  const AllVariants: seq<ColorSpace> :=
    [Invalid, Unspecified, Reserved, Rgb, Bt601, Bt709, Bt2020Cl, Bt2020Ncl,
     Fcc, Bt470bg, Smpte170m, Smpte240m, Smpte2085, Ycgco]

  /**
   * The discriminant `c as u8`: implicit discriminants start at 0 and grow by
   * one per variant, so a variant's ordinal is its position in the declaration.
   */
  function Ordinal(c: ColorSpace): (r: U8)
    ensures r < 14
    ensures AllVariants[r] == c
  {
    match c
    case Invalid => 0
    case Unspecified => 1
    case Reserved => 2
    case Rgb => 3
    case Bt601 => 4
    case Bt709 => 5
    case Bt2020Cl => 6
    case Bt2020Ncl => 7
    case Fcc => 8
    case Bt470bg => 9
    case Smpte170m => 10
    case Smpte240m => 11
    case Smpte2085 => 12
    case Ycgco => 13
  }

  /** The variant whose discriminant is `n`, if any. */
  function FromOrdinal(n: U8): (r: Option<ColorSpace>)
    ensures r.Some? <==> n < 14
    ensures r.Some? ==> Ordinal(r.value) == n
  {
    if n < 14 then Some(AllVariants[n]) else None
  }

  /** Declaration order lists each variant exactly once, so there are exactly 14 of them. */
  lemma VariantsListedOnce()
    ensures |AllVariants| == 14
    ensures forall c: ColorSpace :: c in AllVariants
    ensures forall i, j :: 0 <= i < j < |AllVariants| ==> AllVariants[i] != AllVariants[j]
  {
    forall c: ColorSpace ensures c in AllVariants {
      assert AllVariants[Ordinal(c)] == c;
    }
  }

  /** The ordinal map is injective and `FromOrdinal` inverts it. */
  lemma OrdinalRoundTrip(c: ColorSpace, d: ColorSpace)
    ensures FromOrdinal(Ordinal(c)) == Some(c)
    ensures Ordinal(c) == Ordinal(d) <==> c == d
  {
  }

  /** A few fixed discriminants. */
  lemma OrdinalValues()
    ensures Ordinal(Default) == 0 && Default == Invalid
    ensures Ordinal(Rgb) == 3 && Ordinal(Bt709) == 5 && Ordinal(Ycgco) == 13
  {
  }
}
