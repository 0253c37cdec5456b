/** The video frame, its builder and its null-guarded C accessors (src/frame.rs). */
module VideoFrame {
  import opened Ints
  import Geometry
  import Profiles
  import Properties

  /** Placeholder for per-frame metadata: an empty struct. */
  datatype FrameMetaData = FrameMetaData

  /** The C-compatible optional value the foreign getters return. */
  datatype COption<T> = Some(value: T) | None

  /** Every field of a frame at one moment. */
  datatype FrameState = FrameState(
    profile: Profiles.Profile,
    aspectRatio: Geometry.Coordinate,
    viewport: Geometry.Frame,
    properties: map<string, Properties.PropertyValue>,
    meta: FrameMetaData,
    position: Geometry.Position,
    speed: I8)

  /** The derived `Frame::default()`. */
  const DefaultState: FrameState :=
    FrameState(Profiles.DefaultProfile, Geometry.Zero, Geometry.DefaultFrame, map[], FrameMetaData,
               Geometry.DefaultPosition, 0)

  /**
   * A video frame, updated in place by the builder and through `*mut Frame`.
   * The frame owns its property store, so the field holds the store's contents.
   */
  class Frame {
    var profile: Profiles.Profile
    var aspectRatio: Geometry.Coordinate
    var viewport: Geometry.Frame
    var properties: map<string, Properties.PropertyValue>
    var meta: FrameMetaData
    var position: Geometry.Position
    var speed: I8

    function State(): FrameState
      reads this
    {
      FrameState(profile, aspectRatio, viewport, properties, meta, position, speed)
    }

    /** `Frame::default()`. */
    constructor ()
      ensures State() == DefaultState
    {
      profile := Profiles.DefaultProfile;
      aspectRatio := Geometry.Zero;
      viewport := Geometry.DefaultFrame;
      properties := map[];
      meta := FrameMetaData;
      position := Geometry.DefaultPosition;
      speed := 0;
    }
  }

  /** `FrameBuilder(Frame)`: a staged frame whose setters each overwrite one field. */
  class FrameBuilder {
    const frame: Frame

    /** `FrameBuilder::new()`: stages `Frame::default()`. */
    constructor ()
      ensures fresh(frame)
      ensures frame.State() == DefaultState
    {
      frame := new Frame();
    }

    /** `set_profile`: stores a clone of `profile`. */
    method SetProfile(profile: Profiles.Profile)
      modifies frame
      ensures frame.State() == old(frame.State()).(profile := profile)
    {
      frame.profile := profile;
    }

    method SetAspectRatio(aspectRatio: Geometry.Coordinate)
      modifies frame
      ensures frame.State() == old(frame.State()).(aspectRatio := aspectRatio)
    {
      frame.aspectRatio := aspectRatio;
    }

    method SetViewport(viewport: Geometry.Frame)
      modifies frame
      ensures frame.State() == old(frame.State()).(viewport := viewport)
    {
      frame.viewport := viewport;
    }

    /** `set_properties`: the store is moved into the frame, which then holds its contents. */
    method SetProperties(properties: Properties.Properties)
      modifies frame
      ensures frame.State() == old(frame.State()).(properties := properties.inner)
    {
      frame.properties := properties.inner;
    }

    method SetMeta(meta: FrameMetaData)
      modifies frame
      ensures frame.State() == old(frame.State()).(meta := meta)
    {
      frame.meta := meta;
    }

    method SetPosition(position: Geometry.Position)
      modifies frame
      ensures frame.State() == old(frame.State()).(position := position)
    {
      frame.position := position;
    }

    method SetSpeed(speed: I8)
      modifies frame
      ensures frame.State() == old(frame.State()).(speed := speed)
    {
      frame.speed := speed;
    }
  }

  // ---------------------------------------------------------------------------
  // The C boundary: a `*const Frame` / `*mut Frame` is a nullable reference.
  // ---------------------------------------------------------------------------

  /** `frame_get_profile`: absent for a null frame, else a copy of the profile. */
  function FrameGetProfile(frame: Frame?): (r: COption<Profiles.Profile>)
    reads frame
    ensures r.None? <==> frame == null
    ensures r.Some? ==> r.value == frame.profile
  {
    if frame == null then None else Some(frame.profile)
  }

  /** `frame_get_aspect_ratio`: absent for a null frame, else the aspect ratio. */
  function FrameGetAspectRatio(frame: Frame?): (r: COption<Geometry.Coordinate>)
    reads frame
    ensures r.None? <==> frame == null
    ensures r.Some? ==> r.value == frame.aspectRatio
  {
    if frame == null then None else Some(frame.aspectRatio)
  }

  /** `frame_get_viewport`: absent for a null frame, else the viewport. */
  function FrameGetViewport(frame: Frame?): (r: COption<Geometry.Frame>)
    reads frame
    ensures r.None? <==> frame == null
    ensures r.Some? ==> r.value == frame.viewport
  {
    if frame == null then None else Some(frame.viewport)
  }

  /** `frame_get_position`: absent for a null frame, else the position. */
  function FrameGetPosition(frame: Frame?): (r: COption<Geometry.Position>)
    reads frame
    ensures r.None? <==> frame == null
    ensures r.Some? ==> r.value == frame.position
  {
    if frame == null then None else Some(frame.position)
  }

  /** `frame_set_profile`: overwrites the profile of a non-null frame; a null frame is ignored. */
  method FrameSetProfile(frame: Frame?, profile: Profiles.Profile)
    modifies frame
    ensures frame != null ==> frame.State() == old(frame.State()).(profile := profile)
  {
    if frame != null {
      frame.profile := profile;
    }
  }

  /** `position_set_aspect_ratio`: overwrites the aspect ratio of a non-null frame. */
  method PositionSetAspectRatio(frame: Frame?, aspectRatio: Geometry.Coordinate)
    modifies frame
    ensures frame != null ==> frame.State() == old(frame.State()).(aspectRatio := aspectRatio)
  {
    if frame != null {
      frame.aspectRatio := aspectRatio;
    }
  }

  /** `position_set_viewport`: overwrites the viewport of a non-null frame. */
  method PositionSetViewport(frame: Frame?, viewport: Geometry.Frame)
    modifies frame
    ensures frame != null ==> frame.State() == old(frame.State()).(viewport := viewport)
  {
    if frame != null {
      frame.viewport := viewport;
    }
  }

  /** `position_set_speed`: overwrites the speed of a non-null frame. */
  method PositionSetSpeed(frame: Frame?, speed: I8)
    modifies frame
    ensures frame != null ==> frame.State() == old(frame.State()).(speed := speed)
  {
    if frame != null {
      frame.speed := speed;
    }
  }

  /**
   * A foreign caller that sets the profile, aspect ratio and viewport of a
   * frame and reads them back gets the values it set, and `None` for a null frame.
   */
  method SetThenGet(frame: Frame?, profile: Profiles.Profile, aspectRatio: Geometry.Coordinate, viewport: Geometry.Frame)
    returns (p: COption<Profiles.Profile>, a: COption<Geometry.Coordinate>, v: COption<Geometry.Frame>)
    modifies frame
    ensures frame == null ==> p.None? && a.None? && v.None?
    ensures frame != null ==> p == Some(profile) && a == Some(aspectRatio) && v == Some(viewport)
  {
    FrameSetProfile(frame, profile);
    PositionSetAspectRatio(frame, aspectRatio);
    PositionSetViewport(frame, viewport);
    p, a, v := FrameGetProfile(frame), FrameGetAspectRatio(frame), FrameGetViewport(frame);
  }
}
