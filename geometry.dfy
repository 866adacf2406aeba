/** The placement arithmetic of PopupHint: where, relative to a target view,
    the hint popup is anchored, and how the popup is shifted so that a chosen
    corner of it (rather than its top-left) lands on the anchor. All
    coordinates are Java `int`s, with Java's overflow and division. */
module Geometry {
  import opened JavaInt

  /** Where, relative to the target view, the hint is anchored. */
  datatype PopupLocation = Center | TopLeft | TopRight | BottomLeft | BottomRight | BottomCenter

  /** Which corner of the hint itself is placed on the anchor. */
  datatype PopupCorner = TopLeft | TopRight | BottomLeft | BottomRight

  /** A screen position, as the two-element `int[]` the source passes around. */
  datatype Point = Point(x: int32, y: int32)

  /** What the host reports of the target view: its on-screen origin
      (`getLocationOnScreen`) and its size (`getWidth`, `getHeight`). */
  datatype View = View(x: int32, y: int32, width: int32, height: int32)

  /** The hint's measured size (`getMeasuredWidth`, `getMeasuredHeight`). */
  datatype Dimensions = Dimensions(width: int32, height: int32)

  /** Java's `p + (dx, dy)` on both coordinates. */
  function Translate(p: Point, dx: int32, dy: int32): (r: Point)
    ensures Sub(r.x, dx) == p.x && Sub(r.y, dy) == p.y
  {
    var r := Point(Add(p.x, dx), Add(p.y, dy));
    AddSubCancel(p.x, dx);
    AddSubCancel(p.y, dy);
    r
  }

  /** The raw anchor for a location: a corner of the target, its centre, or
      the middle of its bottom edge; it lies on the target whenever the
      target's far edges fit in `int`. The source's `default` branch is
      unreachable, as every constant has its own case. */
  function Anchor(loc: PopupLocation, v: View): (r: Point)
    ensures FitsOnScreen(v) ==> v.x <= r.x && r.x as int <= v.x as int + v.width as int
    ensures FitsOnScreen(v) ==> v.y <= r.y && r.y as int <= v.y as int + v.height as int
  {
    match loc
    case TopLeft => Point(v.x, v.y)
    case TopRight => Point(Add(v.x, v.width), v.y)
    case BottomLeft => Point(v.x, Add(v.y, v.height))
    case BottomRight => Point(Add(v.x, v.width), Add(v.y, v.height))
    case Center => Point(Add(v.x, Half(v.width)), Add(v.y, Half(v.height)))
    case BottomCenter => Point(Add(v.x, Half(v.width)), Add(v.y, v.height))
  }

  /** Moves `p` left by the hint's width and/or up by its height, so that
      the popup whose top-left is the result has `corner` at `p`, whatever
      the sizes and even across overflow. */
  function AdjustByCorner(p: Point, corner: PopupCorner, measured: Dimensions): (r: Point)
    ensures CornerOf(r, corner, measured) == p
  {
    SubAddCancel(p.x, measured.width);
    SubAddCancel(p.y, measured.height);
    match corner
    case TopLeft => p
    case TopRight => Point(Sub(p.x, measured.width), p.y)
    case BottomLeft => Point(p.x, Sub(p.y, measured.height))
    case BottomRight => Point(Sub(p.x, measured.width), Sub(p.y, measured.height))
  }

  /** The position of `corner` of a popup of size `measured` whose top-left
      is `topLeft`: the reference that `AdjustByCorner` inverts. */
  function CornerOf(topLeft: Point, corner: PopupCorner, measured: Dimensions): Point {
    match corner
    case TopLeft => topLeft
    case TopRight => Point(Add(topLeft.x, measured.width), topLeft.y)
    case BottomLeft => Point(topLeft.x, Add(topLeft.y, measured.height))
    case BottomRight => Point(Add(topLeft.x, measured.width), Add(topLeft.y, measured.height))
  }

  /** `getPopupLocation`: the raw anchor moved by the offsets, already
      converted to pixels. The corner adjustment it computes on the raw
      anchor is thrown away, so neither `corner` nor `staleMeasured` (the
      hint's size as last measured, before the hint is shown) has any effect. */
  function PopupLocationOf(loc: PopupLocation, corner: PopupCorner, offsetXPx: int32, offsetYPx: int32,
                           v: View, staleMeasured: Dimensions): (r: Point)
    ensures Sub(r.x, offsetXPx) == Anchor(loc, v).x && Sub(r.y, offsetYPx) == Anchor(loc, v).y
  {
    var raw := Anchor(loc, v);
    var discarded := AdjustByCorner(raw, corner, staleMeasured);
    Translate(raw, offsetXPx, offsetYPx)
  }

  /** `displayHint` after `getPopupLocation`: the top-left the hint window
      is finally moved to, with the corner shift applied once, to the offset
      anchor, using the size measured once the hint is shown. */
  function DisplayedPosition(loc: PopupLocation, corner: PopupCorner, offsetXPx: int32, offsetYPx: int32,
                             v: View, staleMeasured: Dimensions, measured: Dimensions): (r: Point)
    ensures CornerOf(r, corner, measured) == PopupLocationOf(loc, corner, offsetXPx, offsetYPx, v, staleMeasured)
  {
    AdjustByCorner(PopupLocationOf(loc, corner, offsetXPx, offsetYPx, v, staleMeasured), corner, measured)
  }

  // ---------------------------------------------------------------------------
  // A reference description of the anchors, by the side of the target each
  // axis lies on, in exact arithmetic.

  datatype Side = Start | Middle | End

  function HorizontalSide(loc: PopupLocation): Side {
    match loc
    case TopLeft | BottomLeft => Start
    case Center | BottomCenter => Middle
    case TopRight | BottomRight => End
  }

  function VerticalSide(loc: PopupLocation): Side {
    match loc
    case TopLeft | TopRight => Start
    case Center => Middle
    case BottomLeft | BottomRight | BottomCenter => End
  }

  /** The point at `side` of the segment [origin, origin + size], for a
      segment of non-negative size. */
  function Along(origin: int, size: nat, side: Side): int {
    match side
    case Start => origin
    case Middle => origin + size / 2
    case End => origin + size
  }

  /** The target's far edges lie within Java's `int` range. */
  predicate FitsOnScreen(v: View) {
    v.width >= 0 && v.height >= 0 && InRange(v.x as int + v.width as int) && InRange(v.y as int + v.height as int)
  }

  /** Each of the six locations yields its stated anchor: a corner, the centre
      or the bottom-centre of the target. */
  lemma AnchorIsSideOfTarget(loc: PopupLocation, v: View)
    requires FitsOnScreen(v)
    ensures Anchor(loc, v).x as int == Along(v.x as int, v.width as int, HorizontalSide(loc))
    ensures Anchor(loc, v).y as int == Along(v.y as int, v.height as int, VerticalSide(loc))
  {
  }

  /** The corner adjustment gives the one and only top-left at which a
      popup of the measured size has the chosen corner on the point. */
  lemma AdjustIsOnlyPlacement(q: Point, corner: PopupCorner, measured: Dimensions)
    ensures exists p :: CornerOf(p, corner, measured) == q
    ensures forall p :: CornerOf(p, corner, measured) == q ==> p == AdjustByCorner(q, corner, measured)
  {
    var placed := AdjustByCorner(q, corner, measured);
    assert CornerOf(placed, corner, measured) == q;
    forall p | CornerOf(p, corner, measured) == q
      ensures p == AdjustByCorner(q, corner, measured)
    {
      AddSubCancel(p.x, measured.width);
      AddSubCancel(p.y, measured.height);
    }
  }

  /** The corner adjustment is a pure translation: it commutes with moving
      the point by an offset. */
  lemma AdjustCommutesWithTranslate(p: Point, dx: int32, dy: int32, corner: PopupCorner, measured: Dimensions)
    ensures AdjustByCorner(Translate(p, dx, dy), corner, measured)
         == Translate(AdjustByCorner(p, corner, measured), dx, dy)
  {
    AddSubCommute(p.x, dx, measured.width);
    AddSubCommute(p.y, dy, measured.height);
  }

  /** Each corner's shift: TOP_LEFT none, TOP_RIGHT the width leftwards,
      BOTTOM_LEFT the height upwards, BOTTOM_RIGHT both; when the subtraction
      does not overflow the result is never right of or below the point. */
  lemma AdjustShiftsUpLeft(p: Point, corner: PopupCorner, measured: Dimensions)
    requires measured.width >= 0 && measured.height >= 0
    requires InRange(p.x as int - measured.width as int) && InRange(p.y as int - measured.height as int)
    ensures var q := AdjustByCorner(p, corner, measured);
      && q.x as int == p.x as int - (if corner.TopRight? || corner.BottomRight? then measured.width as int else 0)
      && q.y as int == p.y as int - (if corner.BottomLeft? || corner.BottomRight? then measured.height as int else 0)
      && q.x <= p.x && q.y <= p.y
  {
  }

  /** The popup corner and the stale size do not influence `getPopupLocation`. */
  lemma PopupLocationIgnoresCorner(loc: PopupLocation, c1: PopupCorner, c2: PopupCorner, dx: int32, dy: int32,
                                   v: View, m1: Dimensions, m2: Dimensions)
    ensures PopupLocationOf(loc, c1, dx, dy, v, m1) == PopupLocationOf(loc, c2, dx, dy, v, m2)
  {
  }

  /** The displayed position is the corner-adjusted anchor moved by the
      offsets: the shift is applied once. */
  lemma DisplayedPositionPlacesCorner(loc: PopupLocation, corner: PopupCorner, dx: int32, dy: int32,
                                      v: View, stale: Dimensions, measured: Dimensions)
    ensures DisplayedPosition(loc, corner, dx, dy, v, stale, measured)
         == Translate(AdjustByCorner(Anchor(loc, v), corner, measured), dx, dy)
  {
    AdjustCommutesWithTranslate(Anchor(loc, v), dx, dy, corner, measured);
  }

  /** The pixel offsets move the displayed hint by exactly themselves: the
      position with offsets is the position without them, translated. */
  lemma OffsetsTranslateDisplayedPosition(loc: PopupLocation, corner: PopupCorner, dx: int32, dy: int32,
                                          v: View, stale: Dimensions, measured: Dimensions)
    ensures DisplayedPosition(loc, corner, dx, dy, v, stale, measured)
         == Translate(DisplayedPosition(loc, corner, 0, 0, v, stale, measured), dx, dy)
  {
    var raw := Anchor(loc, v);
    assert Translate(raw, 0, 0) == raw;
    AdjustCommutesWithTranslate(raw, dx, dy, corner, measured);
  }

  /** Target at (100, 200) of size 50x20, CENTER, BOTTOM_RIGHT, hint measured
      40x30, no offsets: anchored at (125, 210), shown at (85, 180). */
  lemma CenterBottomRightExample(stale: Dimensions)
    ensures PopupLocationOf(Center, PopupCorner.BottomRight, 0, 0, View(100, 200, 50, 20), stale) == Point(125, 210)
    ensures DisplayedPosition(Center, PopupCorner.BottomRight, 0, 0, View(100, 200, 50, 20), stale, Dimensions(40, 30))
         == Point(85, 180)
  {
  }

  /** Target at (100, 200) of size 50x20, BOTTOM_RIGHT, TOP_LEFT, no
      offsets: anchored and shown at (150, 220). */
  lemma BottomRightTopLeftExample(stale: Dimensions, measured: Dimensions)
    ensures DisplayedPosition(PopupLocation.BottomRight, PopupCorner.TopLeft, 0, 0, View(100, 200, 50, 20), stale, measured)
         == Point(150, 220)
  {
  }
}
