/** The video profile, its derived metrics and its builder (src/profile.rs). */
module Profiles {
  import opened Geometry

  /** How a producer renders the profile; `Interlace` is the default. */
  datatype RenderType = Interlace | Progressive

  /** This file's own two-valued color space; `None` is the default. */
  datatype ColorSpace = Rgb | None

  /** Whether the profile was given explicitly or computed; `Computed` is the default. */
  datatype ExplicitType = Computed | Explicitly

  const DefaultRenderType: RenderType := Interlace
  const DefaultColorSpace: ColorSpace := None
  const DefaultExplicitType: ExplicitType := Computed

  /** `Ratio<Number, Denominator = Number>`: a quotient not yet divided out. */
  datatype Ratio<N, D> = Ratio(number: N, denominator: D)

  type FloatRatio = Ratio<F32, F32>

  /** The derived `Default` of `Ratio<f32>`: 0.0 / 0.0. */
  const ZeroRatio: FloatRatio := Ratio(Zero, Zero)

  /** The base properties of a video format. There is no render type among them. */
  datatype Profile = Profile(
    frameRate: FloatRatio,
    frame: Geometry.Frame,
    sampleAspect: FloatRatio,
    displayAspect: FloatRatio,
    colorSpace: ColorSpace,
    explicitType: ExplicitType)

  /** The derived `Profile::default()`. */
  const DefaultProfile: Profile :=
    Profile(ZeroRatio, DefaultFrame, ZeroRatio, ZeroRatio, DefaultColorSpace, DefaultExplicitType)

  /**
   * `calculate_fps`: the frame-rate number over the frame-rate denominator,
   * divided by `div`; the same quotient `calculate_sar` takes of the sample aspect.
   */
  function CalculateFps(p: Profile, div: Division): (fps: F32)
    ensures fps == CalculateSar(p.(sampleAspect := p.frameRate), div)
  {
    div(p.frameRate.number, p.frameRate.denominator)
  }

  /** `calculate_sar`: the sample-aspect number over the sample-aspect denominator. */
  function CalculateSar(p: Profile, div: Division): (sar: F32)
  {
    div(p.sampleAspect.number, p.sampleAspect.denominator)
  }

  /**
   * `calculate_dar`: the display-aspect number over the SAMPLE-aspect
   * denominator, exactly as the source computes it: the SAR of a profile whose
   * sample-aspect number is replaced by the display-aspect number.
   */
  function CalculateDar(p: Profile, div: Division): (dar: F32)
    ensures dar == CalculateSar(p.(sampleAspect := p.sampleAspect.(number := p.displayAspect.number)), div)
  {
    div(p.displayAspect.number, p.sampleAspect.denominator)
  }

  /**
   * Which fields feed which metric, whatever the division: two profiles that
   * agree on the fields a metric reads agree on the metric.
   */
  lemma MetricInputs(p: Profile, q: Profile, div: Division)
    ensures p.frameRate == q.frameRate ==> CalculateFps(p, div) == CalculateFps(q, div)
    ensures p.sampleAspect == q.sampleAspect ==> CalculateSar(p, div) == CalculateSar(q, div)
    ensures p.displayAspect.number == q.displayAspect.number && p.sampleAspect.denominator == q.sampleAspect.denominator
            ==> CalculateDar(p, div) == CalculateDar(q, div)
  {
  }

  /** The display-aspect denominator never affects `calculate_dar`. */
  lemma DarIgnoresDisplayDenominator(p: Profile, d: F32, div: Division)
    ensures CalculateDar(p.(displayAspect := p.displayAspect.(denominator := d)), div) == CalculateDar(p, div)
  {
  }

  /**
   * With display aspect 16/9 and sample aspect 1/1, `calculate_dar` divides 16
   * by 1, the sample denominator, and not by 9: under a division that returns
   * its divisor, the result is the sample denominator.
   */
  lemma DarDividesBySampleDenominator(p: Profile)
    ensures CalculateDar(p, (n, d) => d) == p.sampleAspect.denominator
    ensures CalculateSar(p, (n, d) => d) == CalculateDar(p, (n, d) => d)
  {
  }

  // ---------------------------------------------------------------------------
  // The builder.
  // ---------------------------------------------------------------------------

  /** One setter call of the builder, with its argument. */
  datatype Setting =
    | SetFrameRate(frameRate: FloatRatio)
    | SetFrame(frame: Geometry.Frame)
    | SetSampleAspect(sampleAspect: FloatRatio)
    | SetDisplayAspect(displayAspect: FloatRatio)
    | SetColorSpace(colorSpace: ColorSpace)
    | SetExplicitType(explicitType: ExplicitType)

  /** The profile field a setter writes. */
  datatype Field = FrameRateField | FrameField | SampleAspectField | DisplayAspectField | ColorSpaceField | ExplicitTypeField

  function Target(s: Setting): Field {
    match s
    case SetFrameRate(_) => FrameRateField
    case SetFrame(_) => FrameField
    case SetSampleAspect(_) => SampleAspectField
    case SetDisplayAspect(_) => DisplayAspectField
    case SetColorSpace(_) => ColorSpaceField
    case SetExplicitType(_) => ExplicitTypeField
  }

  /** `p` and `q` hold the same value in field `f`. */
  predicate SameField(p: Profile, q: Profile, f: Field) {
    match f
    case FrameRateField => p.frameRate == q.frameRate
    case FrameField => p.frame == q.frame
    case SampleAspectField => p.sampleAspect == q.sampleAspect
    case DisplayAspectField => p.displayAspect == q.displayAspect
    case ColorSpaceField => p.colorSpace == q.colorSpace
    case ExplicitTypeField => p.explicitType == q.explicitType
  }

  /** The field `s` writes holds the argument of `s`. */
  predicate Holds(p: Profile, s: Setting) {
    match s
    case SetFrameRate(r) => p.frameRate == r
    case SetFrame(fr) => p.frame == fr
    case SetSampleAspect(r) => p.sampleAspect == r
    case SetDisplayAspect(r) => p.displayAspect == r
    case SetColorSpace(c) => p.colorSpace == c
    case SetExplicitType(e) => p.explicitType == e
  }

  /** The profile after one setter call: its own field overwritten, the other five kept. */
  function Apply(p: Profile, s: Setting): (q: Profile)
    ensures Holds(q, s)
    ensures forall f :: f != Target(s) ==> SameField(q, p, f)
  {
    match s
    case SetFrameRate(r) => p.(frameRate := r)
    case SetFrame(fr) => p.(frame := fr)
    case SetSampleAspect(r) => p.(sampleAspect := r)
    case SetDisplayAspect(r) => p.(displayAspect := r)
    case SetColorSpace(c) => p.(colorSpace := c)
    case SetExplicitType(e) => p.(explicitType := e)
  }

  /** The profile after a chain of setter calls, in order. */
  function ApplyAll(p: Profile, settings: seq<Setting>): Profile
  {
    if settings == [] then p
    else Apply(ApplyAll(p, settings[..|settings| - 1]), settings[|settings| - 1])
  }

  /** A repeated setter keeps only its last value. */
  lemma LastWriteWins(p: Profile, s: Setting, t: Setting)
    requires Target(s) == Target(t)
    ensures Apply(Apply(p, s), t) == Apply(p, t)
  {
  }

  /** Setters of different fields commute. */
  lemma SettersCommute(p: Profile, s: Setting, t: Setting)
    requires Target(s) != Target(t)
    ensures Apply(Apply(p, s), t) == Apply(Apply(p, t), s)
  {
  }

  /** Running two chains one after the other is running their concatenation. */
  lemma {:induction false} ApplyAllAppend(p: Profile, a: seq<Setting>, b: seq<Setting>)
    ensures ApplyAll(p, a + b) == ApplyAll(ApplyAll(p, a), b)
    decreases |b|
  {
    if b != [] {
      var b' := b[..|b| - 1];
      assert (a + b)[..|a + b| - 1] == a + b';
      ApplyAllAppend(p, a, b');
    } else {
      assert a + b == a;
    }
  }

  /** A field that no setter in the chain targets keeps its starting value. */
  lemma {:induction false} UntargetedFieldKept(p: Profile, settings: seq<Setting>, f: Field)
    requires forall i :: 0 <= i < |settings| ==> Target(settings[i]) != f
    ensures SameField(ApplyAll(p, settings), p, f)
    decreases |settings|
  {
    if settings != [] {
      var init := settings[..|settings| - 1];
      UntargetedFieldKept(p, init, f);
      var q := ApplyAll(p, init);
      assert SameField(Apply(q, settings[|settings| - 1]), q, f);
    }
  }

  /**
   * The field a setter writes holds that setter's value after the whole chain,
   * provided no later setter targets the same field.
   */
  lemma {:induction false} LastSetterOfFieldWins(p: Profile, a: seq<Setting>, s: Setting, b: seq<Setting>)
    requires forall i :: 0 <= i < |b| ==> Target(b[i]) != Target(s)
    ensures SameField(ApplyAll(p, a + [s] + b), Apply(p, s), Target(s))
    ensures Holds(ApplyAll(p, a + [s] + b), s)
  {
    ApplyAllAppend(p, a + [s], b);
    var q := ApplyAll(p, a + [s]);
    UntargetedFieldKept(q, b, Target(s));
    assert (a + [s])[..|a + [s]| - 1] == a;
    var r := ApplyAll(p, a);
    assert q == Apply(r, s);
    match s
    case SetFrameRate(_) =>
    case SetFrame(_) =>
    case SetSampleAspect(_) =>
    case SetDisplayAspect(_) =>
    case SetColorSpace(_) =>
    case SetExplicitType(_) =>
  }

  /** `ProfileFactory`: a staging profile that each setter overwrites one field of. */
  class ProfileFactory {
    var profile: Profile

    /** `ProfileFactory::new()`: starts from `Profile::default()`. */
    constructor ()
      ensures profile == DefaultProfile
      ensures profile.frame == Frame(Zero, Zero)
      ensures profile.frameRate == profile.sampleAspect == profile.displayAspect == Ratio(Zero, Zero)
      ensures profile.colorSpace == None && profile.explicitType == Computed
    {
      profile := DefaultProfile;
    }

    method SetFrameRate(frameRate: FloatRatio)
      modifies this
      ensures profile == old(profile).(frameRate := frameRate)
      ensures profile == Apply(old(profile), Setting.SetFrameRate(frameRate))
    {
      profile := profile.(frameRate := frameRate);
    }

    method SetFrame(frame: Geometry.Frame)
      modifies this
      ensures profile == old(profile).(frame := frame)
      ensures profile == Apply(old(profile), Setting.SetFrame(frame))
    {
      profile := profile.(frame := frame);
    }

    method SetSampleAspect(sampleAspect: FloatRatio)
      modifies this
      ensures profile == old(profile).(sampleAspect := sampleAspect)
      ensures profile == Apply(old(profile), Setting.SetSampleAspect(sampleAspect))
    {
      profile := profile.(sampleAspect := sampleAspect);
    }

    method SetDisplayAspect(displayAspect: FloatRatio)
      modifies this
      ensures profile == old(profile).(displayAspect := displayAspect)
      ensures profile == Apply(old(profile), Setting.SetDisplayAspect(displayAspect))
    {
      profile := profile.(displayAspect := displayAspect);
    }

    method SetColorSpace(colorSpace: ColorSpace)
      modifies this
      ensures profile == old(profile).(colorSpace := colorSpace)
      ensures profile == Apply(old(profile), Setting.SetColorSpace(colorSpace))
    {
      profile := profile.(colorSpace := colorSpace);
    }

    /** `set_explict_type` (the source's spelling). */
    method SetExplictType(explicitType: ExplicitType)
      modifies this
      ensures profile == old(profile).(explicitType := explicitType)
      ensures profile == Apply(old(profile), Setting.SetExplicitType(explicitType))
    {
      profile := profile.(explicitType := explicitType);
    }

    /** `build`: the accumulated profile. */
    method Build() returns (p: Profile)
      ensures p == profile
    {
      p := profile;
    }
  }
}
