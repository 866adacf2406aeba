/** The PopupHint widget: a builder that collects the hint's configuration
    through chained setters, and the hint itself, which copies that
    configuration once and then computes where to show the popup. */
module Hint {
  import opened JavaInt
  import opened Geometry
  import opened Density

  datatype Option<T> = None | Some(value: T)

  /** A host object the widget only stores and hands back (the Activity,
      the dismiss listener), known by its identity alone. */
  datatype HostRef = HostRef(id: nat)

  /** Everything a `PopupBuilder` holds, as one value. */
  datatype BuilderState = BuilderState(
    hintLayout: int32,
    width: int32,
    height: int32,
    wrap: bool,
    location: PopupLocation,
    corner: PopupCorner,
    horizontalOffset: int32,
    verticalOffset: int32,
    context: HostRef,
    listener: Option<HostRef>)

  /** The settings of a fresh builder: wrap to content, CENTER, TOP_LEFT, no
      offsets, and Java's zero and `null` defaults for the rest. */
  function DefaultBuilderState(context: HostRef): (s: BuilderState)
    ensures s.wrap && s.location == Center && s.corner == PopupCorner.TopLeft
    ensures s.horizontalOffset == 0 && s.verticalOffset == 0
    ensures s.hintLayout == 0 && s.width == 0 && s.height == 0
    ensures s.context == context && s.listener == None
  {
    BuilderState(0, 0, 0, true, Center, PopupCorner.TopLeft, 0, 0, context, None)
  }

  class PopupBuilder {
    var hintLayout: int32
    var width: int32
    var height: int32
    var wrap: bool
    var location: PopupLocation
    var corner: PopupCorner
    var horizontalOffset: int32
    var verticalOffset: int32
    var context: HostRef
    var listener: Option<HostRef>

    function State(): BuilderState
      reads this
    {
      BuilderState(hintLayout, width, height, wrap, location, corner,
                   horizontalOffset, verticalOffset, context, listener)
    }

    constructor (context: HostRef)
      ensures State() == DefaultBuilderState(context)
    {
      this.context := context;
      hintLayout, width, height := 0, 0, 0;
      wrap := true;
      location := Center;
      corner := PopupCorner.TopLeft;
      horizontalOffset, verticalOffset := 0, 0;
      listener := None;
    }

    /** Chooses the location relative to the target, and the corner of the
        hint placed there. */
    method Location(location: PopupLocation, corner: PopupCorner) returns (b: PopupBuilder)
      modifies this
      ensures b == this
      ensures State() == old(State()).(location := location, corner := corner)
    {
      this.location := location;
      this.corner := corner;
      b := this;
    }

    /** Sets the horizontal and vertical offsets, in density-independent units. */
    method Offset(horizontal: int32, vertical: int32) returns (b: PopupBuilder)
      modifies this
      ensures b == this
      ensures State() == old(State()).(horizontalOffset := horizontal, verticalOffset := vertical)
    {
      horizontalOffset := horizontal;
      verticalOffset := vertical;
      b := this;
    }

    /** Sets the layout resource the hint is inflated from. */
    method Layout(layout: int32) returns (b: PopupBuilder)
      modifies this
      ensures b == this
      ensures State() == old(State()).(hintLayout := layout)
    {
      hintLayout := layout;
      b := this;
    }

    /** Gives the hint a fixed size, in density-independent units, instead
        of wrapping its content. */
    method Size(width: int32, height: int32) returns (b: PopupBuilder)
      modifies this
      ensures b == this
      ensures State() == old(State()).(wrap := false, width := width, height := height)
    {
      wrap := false;
      this.width := width;
      this.height := height;
      b := this;
    }

    /** Sets the listener told when the hint is dismissed. */
    method Dismiss(l: Option<HostRef>) returns (b: PopupBuilder)
      modifies this
      ensures b == this
      ensures State() == old(State()).(listener := l)
    {
      listener := l;
      b := this;
    }

    /** Builds the hint from the current settings; `density` is the display
        density the host reports for the builder's context. */
    method Build(density: Scale) returns (h: PopupHint)
      ensures fresh(h)
      ensures h.Configuration() == Configured(State())
      ensures forall dp :: h.toPixels(dp) == ToPixels(dp, density)
    {
      h := new PopupHint(this, density);
    }
  }

  /** The fields a hint keeps of its builder. */
  datatype HintState = HintState(
    layout: int32,
    width: int32,
    height: int32,
    mustWrap: bool,
    location: PopupLocation,
    corner: PopupCorner,
    horizontalOffset: int32,
    verticalOffset: int32,
    context: HostRef,
    dismissListener: Option<HostRef>)

  /** Sizing mode is fixed at construction: a hint that wraps its content
      has no fixed width or height. */
  predicate SizingConsistent(s: HintState) {
    s.mustWrap ==> s.width == 0 && s.height == 0
  }

  /** What the hint's constructor makes of a builder's settings: every
      setting is copied, except that the fixed size is copied only when the
      builder does not wrap (otherwise the fields keep Java's default 0). */
  function Configured(b: BuilderState): (s: HintState)
    ensures SizingConsistent(s)
    ensures s.mustWrap == b.wrap
    ensures !b.wrap ==> s.width == b.width && s.height == b.height
    ensures s.layout == b.hintLayout && s.location == b.location && s.corner == b.corner
    ensures s.horizontalOffset == b.horizontalOffset && s.verticalOffset == b.verticalOffset
    ensures s.context == b.context && s.dismissListener == b.listener
  {
    HintState(b.hintLayout,
              if b.wrap then 0 else b.width,
              if b.wrap then 0 else b.height,
              b.wrap, b.location, b.corner, b.horizontalOffset, b.verticalOffset,
              b.context, b.listener)
  }

  class PopupHint {
    var layout: int32
    var width: int32
    var height: int32
    var mustWrap: bool
    var location: PopupLocation
    var corner: PopupCorner
    var horizontalOffset: int32
    var verticalOffset: int32
    var context: HostRef
    var dismissListener: Option<HostRef>
    /** `(int)(dp * density)`, with the display density captured at
        construction. */
    var toPixels: int32 -> int32

    function Configuration(): HintState
      reads this
    {
      HintState(layout, width, height, mustWrap, location, corner,
                horizontalOffset, verticalOffset, context, dismissListener)
    }

    /** Copies the builder's settings field by field. */
    constructor (builder: PopupBuilder, density: Scale)
      ensures Configuration() == Configured(builder.State())
      ensures forall dp :: toPixels(dp) == ToPixels(dp, density)
    {
      layout := builder.hintLayout;
      mustWrap := builder.wrap;
      width, height := 0, 0;
      if !builder.wrap {
        width := builder.width;
        height := builder.height;
      }
      location := builder.location;
      horizontalOffset := builder.horizontalOffset;
      verticalOffset := builder.verticalOffset;
      corner := builder.corner;
      context := builder.context;
      dismissListener := builder.listener;
      toPixels := dp => ToPixels(dp, density);
    }

    /** `getPopupLocation`: the anchor for the target `v`, moved by the
        offsets in pixels; `staleMeasured` is whatever size the hint had
        last been measured at, which the discarded corner adjustment reads. */
    function GetPopupLocation(v: View, staleMeasured: Dimensions): (p: Point)
      reads this
      ensures Sub(p.x, toPixels(horizontalOffset)) == Anchor(location, v).x
      ensures Sub(p.y, toPixels(verticalOffset)) == Anchor(location, v).y
    {
      PopupLocationOf(location, corner, toPixels(horizontalOffset), toPixels(verticalOffset), v, staleMeasured)
    }

    /** `displayHint`: the position the shown hint is moved to once its
        size `measured` is known, so that its chosen corner is at (x, y). */
    method DisplayHint(x: int32, y: int32, measured: Dimensions) returns (pos: Point)
      ensures pos == AdjustByCorner(Point(x, y), corner, measured)
      ensures CornerOf(pos, corner, measured) == Point(x, y)
    {
      pos := AdjustByCorner(Point(x, y), corner, measured);
    }

    /** The deferred body of `showHint`: locate, then display. The corner
        shift is applied exactly once, after the offsets. */
    method ShowHint(v: View, staleMeasured: Dimensions, measured: Dimensions) returns (pos: Point)
      ensures pos == Translate(AdjustByCorner(Anchor(location, v), corner, measured),
                               toPixels(horizontalOffset), toPixels(verticalOffset))
      ensures CornerOf(pos, corner, measured) == GetPopupLocation(v, staleMeasured)
    {
      var coords := GetPopupLocation(v, staleMeasured);
      pos := DisplayHint(coords.x, coords.y, measured);
      DisplayedPositionPlacesCorner(location, corner, toPixels(horizontalOffset), toPixels(verticalOffset),
                                    v, staleMeasured, measured);
    }
  }

  /** A builder configured as CENTER / BOTTOM_RIGHT with no offsets, shown
      over a 50x20 target at (100, 200) with a 40x30 hint, places the hint
      at (85, 180). */
  method BuildAndShowExample(density: Scale, stale: Dimensions) returns (pos: Point)
    ensures pos == Point(85, 180)
  {
    var b := new PopupBuilder(HostRef(0));
    b := b.Location(Center, PopupCorner.BottomRight);
    var h := b.Build(density);
    pos := h.ShowHint(View(100, 200, 50, 20), stale, Dimensions(40, 30));
    CenterBottomRightExample(stale);
  }
}
