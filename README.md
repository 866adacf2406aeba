# PopupHint placement and configuration, in Dafny

This project models the core of JCricket's `PopupHint`, an Android hint popup
(a tooltip-like overlay) placed next to a target view:

- `java_int.dfy` (module `JavaInt`): the Java `int` arithmetic the placement
  code relies on: 32-bit wrap-around of `+` and `-`, and `/ 2` truncating
  toward zero.
- `geometry.dfy` (module `Geometry`): the two enums `PopupLocation` and
  `PopupCorner`, and the placement arithmetic as pure functions. `Anchor` is the
  raw anchor chosen by the location. `AdjustByCorner` is `adjustLocationByCorner`.
  `PopupLocationOf` is `getPopupLocation`, including its discarded corner
  adjustment. `DisplayedPosition` composes the last two, as `showHint` and
  `displayHint` do. Lemmas state what the placement promises: where each
  anchor lies on the target, that the chosen corner of the hint lands on the
  anchor, that the shift is a translation, and that the corner does not
  influence `getPopupLocation`.
- `density.dfy` (module `Density`): the conversion of density-independent
  units to pixels, `(int)(dp * density)`. The display density is a positive
  ratio. The cast truncates toward zero and saturates at the `int` bounds,
  as Java's float-to-`int` cast does.
- `popup_hint.dfy` (module `Hint`): `PopupBuilder` as a class whose chained
  setters update their own fields and return the builder itself, and
  `PopupHint` as a class whose constructor copies the builder's settings.
  `GetPopupLocation`, `DisplayHint` and `ShowHint` place the hint using the
  copied settings.

Every coordinate is a Java `int` (`JavaInt.int32`). Overflow wraps exactly as
in Java. Most contracts hold for all inputs, overflow included. Two lemmas
compare positions as mathematical integers, so they rule overflow out:
`Geometry.AnchorIsSideOfTarget` requires the target's far edges to fit in
`int` (`FitsOnScreen`), and `Geometry.AdjustShiftsUpLeft` requires the
corner subtraction not to overflow. `Geometry.Anchor`'s bounds on the anchor
are likewise conditional on `FitsOnScreen`. The host's view system supplies values as
parameters: the target's screen position and size (`Geometry.View`), and the
hint's measured size (`Geometry.Dimensions`). The host also reports the
display density. The hint captures it once, when it is built, as the
conversion `toPixels`, which agrees with `Density.ToPixels` for that density.

## Model

| member | source | states |
|---|---|---|
| `JavaInt.Wrap` | lib/src/main/java/com/whiterabbit/jcricket/PopupHint.java:209 | the 32-bit result is congruent to the exact value modulo 2^32, and equals it when that value is in `int` range |
| `JavaInt.Add` | lib/src/main/java/com/whiterabbit/jcricket/PopupHint.java:209 | Java `int` `+`: exact in range, off by exactly 2^32 on overflow in either direction |
| `JavaInt.Sub` | lib/src/main/java/com/whiterabbit/jcricket/PopupHint.java:247 | Java `int` `-`: exact in range, off by exactly 2^32 on overflow in either direction |
| `JavaInt.Half` | lib/src/main/java/com/whiterabbit/jcricket/PopupHint.java:221 | Java `a / 2` truncates toward zero: the remainder is 0 or 1 for non-negative `a`, and 0 or -1 for negative `a` |
| `JavaInt.WrapAbsorbs` | lib/src/main/java/com/whiterabbit/jcricket/PopupHint.java:234 | wrapping an intermediate sum early gives the same 32-bit result as wrapping only at the end |
| `JavaInt.SubAddCancel` | lib/src/main/java/com/whiterabbit/jcricket/PopupHint.java:247 | subtracting then adding back the same `int` restores the value, overflow or not |
| `JavaInt.AddSubCommute` | lib/src/main/java/com/whiterabbit/jcricket/PopupHint.java:234-253 | adding an offset and subtracting a size commute in `int` arithmetic |
| `Density.TruncDiv` | lib/src/main/java/com/whiterabbit/jcricket/PopupHint.java:234 | the `(int)` cast truncates toward zero: the remainder is in [0, d) for a non-negative value and in (-d, 0] for a negative one |
| `Density.Saturate` | lib/src/main/java/com/whiterabbit/jcricket/PopupHint.java:234 | the `(int)` cast is exact in range and clamps to the largest or smallest `int` outside it |
| `Density.TruncDivMonotone` | lib/src/main/java/com/whiterabbit/jcricket/PopupHint.java:234 | division truncating toward zero by a positive divisor preserves order |
| `Density.ToPixelsMonotone` | lib/src/main/java/com/whiterabbit/jcricket/PopupHint.java:234-235 | a larger offset in density-independent units never gives a smaller offset in pixels |
| `Density.ToPixelsUnitDensity` | lib/src/main/java/com/whiterabbit/jcricket/PopupHint.java:234-235 | at density 1, an offset is the same in pixels as in density-independent units (in the program this holds for offsets with |dp| ≤ 2^24, where the `int`-to-`float` conversion is exact; see Left out) |
| `Density.ToPixels` | lib/src/main/java/com/whiterabbit/jcricket/PopupHint.java:234-235 | `(int)(dp * density)` keeps the sign of the offset: a zero offset gives no shift, a positive one never shifts backwards, a negative one never forwards |
| `Density.DoubleDensityExample` | lib/src/main/java/com/whiterabbit/jcricket/PopupHint.java:234-235 | at density 2, offsets (10, 5) become (20, 10) pixels |
| `Geometry.Translate` | lib/src/main/java/com/whiterabbit/jcricket/PopupHint.java:234-235 | adding the two pixel offsets can be undone by subtracting them, so the result determines the point it came from |
| `Geometry.Anchor` | lib/src/main/java/com/whiterabbit/jcricket/PopupHint.java:203-230 | for a target of non-negative size whose far edges fit in `int`, the anchor of every location lies on the target: between its left and right edges and between its top and bottom edges |
| `Geometry.AnchorIsSideOfTarget` | lib/src/main/java/com/whiterabbit/jcricket/PopupHint.java:203-227 | for a target whose edges fit in `int`, each of the six locations yields the start, middle (`w/2`, `h/2`) or end of each axis of the target: TOP_LEFT (x0, y0), TOP_RIGHT (x0+w, y0), BOTTOM_LEFT (x0, y0+h), BOTTOM_RIGHT (x0+w, y0+h), CENTER (x0+w/2, y0+h/2), BOTTOM_CENTER (x0+w/2, y0+h) |
| `Geometry.AdjustByCorner` | lib/src/main/java/com/whiterabbit/jcricket/PopupHint.java:241-259 | after the adjustment, the chosen corner of a popup of the measured size sits exactly on the given point, for all inputs, overflow included |
| `Geometry.AdjustIsOnlyPlacement` | lib/src/main/java/com/whiterabbit/jcricket/PopupHint.java:241-259 | for every point, corner and measured size, some top-left puts that corner on the point, and the corner-adjusted point is the only such top-left |
| `Geometry.AdjustCommutesWithTranslate` | lib/src/main/java/com/whiterabbit/jcricket/PopupHint.java:241-259 | the corner adjustment is a pure translation: adjust(x+dx, y+dy) = adjust(x, y) + (dx, dy) |
| `Geometry.AdjustShiftsUpLeft` | lib/src/main/java/com/whiterabbit/jcricket/PopupHint.java:242-258 | TOP_LEFT leaves the point unchanged, TOP_RIGHT subtracts the width from x, BOTTOM_LEFT subtracts the height from y, BOTTOM_RIGHT does both; with non-negative sizes and no overflow, the result is never right of or below the point |
| `Geometry.PopupLocationOf` | lib/src/main/java/com/whiterabbit/jcricket/PopupHint.java:198-238 | `getPopupLocation` is the raw anchor plus the pixel offsets: its result minus the offsets is the anchor of the location, with no dependence on the corner |
| `Geometry.PopupLocationIgnoresCorner` | lib/src/main/java/com/whiterabbit/jcricket/PopupHint.java:198-238 | `getPopupLocation`'s result is the same for every popup corner and every earlier measured size, because the adjustment at line 232 is discarded |
| `Geometry.DisplayedPosition` | lib/src/main/java/com/whiterabbit/jcricket/PopupHint.java:184-191 | the hint's chosen corner, at the size measured after showing it, lands on `getPopupLocation`'s point |
| `Geometry.DisplayedPositionPlacesCorner` | lib/src/main/java/com/whiterabbit/jcricket/PopupHint.java:184-191 | the displayed position is the corner-adjusted anchor plus the offsets, so the shift is applied once, after the offsets |
| `Geometry.OffsetsTranslateDisplayedPosition` | lib/src/main/java/com/whiterabbit/jcricket/PopupHint.java:234-235 | the pixel offsets move the final position by exactly themselves, after the corner adjustment |
| `Geometry.CenterBottomRightExample` | lib/src/main/java/com/whiterabbit/jcricket/PopupHint.java:270-271 | target (100, 200) of size 50x20, CENTER, BOTTOM_RIGHT, hint 40x30, no offsets: anchor (125, 210), shown at (85, 180) |
| `Geometry.BottomRightTopLeftExample` | lib/src/main/java/com/whiterabbit/jcricket/PopupHint.java:216-219 | the same target with BOTTOM_RIGHT and TOP_LEFT is shown at (150, 220), whatever the hint's size |
| `Hint.DefaultBuilderState` | lib/src/main/java/com/whiterabbit/jcricket/PopupHint.java:62-71 | a fresh builder wraps its content, uses CENTER and TOP_LEFT and has zero offsets; layout, width and height are 0 and the listener is null |
| `Hint.PopupBuilder.constructor` | lib/src/main/java/com/whiterabbit/jcricket/PopupHint.java:73-75 | the new builder holds the given context and otherwise the default settings |
| `Hint.PopupBuilder.Location` | lib/src/main/java/com/whiterabbit/jcricket/PopupHint.java:83-87 | sets location and corner, changes nothing else, returns the same builder |
| `Hint.PopupBuilder.Offset` | lib/src/main/java/com/whiterabbit/jcricket/PopupHint.java:96-100 | sets both offsets, changes nothing else, returns the same builder |
| `Hint.PopupBuilder.Layout` | lib/src/main/java/com/whiterabbit/jcricket/PopupHint.java:107-110 | sets the layout, changes nothing else, returns the same builder |
| `Hint.PopupBuilder.Size` | lib/src/main/java/com/whiterabbit/jcricket/PopupHint.java:118-123 | turns wrapping off and sets width and height, changes nothing else, returns the same builder |
| `Hint.PopupBuilder.Dismiss` | lib/src/main/java/com/whiterabbit/jcricket/PopupHint.java:131-134 | sets the dismiss listener, changes nothing else, returns the same builder |
| `Hint.PopupBuilder.Build` | lib/src/main/java/com/whiterabbit/jcricket/PopupHint.java:136-138 | returns a new hint configured from the builder's current settings (so wrap mode and a fixed size never coexist), converting offsets at the given density |
| `Hint.Configured` | lib/src/main/java/com/whiterabbit/jcricket/PopupHint.java:41-53 | the hint keeps layout, wrap mode, location, corner, offsets, context and listener unchanged; it takes width and height only when not wrapping, and in wrap mode they stay 0 |
| `Hint.PopupHint.constructor` | lib/src/main/java/com/whiterabbit/jcricket/PopupHint.java:41-55 | the hint's fields are `Configured` from the builder's settings; its pixel conversion is `(int)(dp * density)` for the captured density |
| `Hint.PopupHint.GetPopupLocation` | lib/src/main/java/com/whiterabbit/jcricket/PopupHint.java:198-238 | the location minus the offsets (converted to pixels) is the anchor of the configured location, whatever the corner |
| `Hint.PopupHint.DisplayHint` | lib/src/main/java/com/whiterabbit/jcricket/PopupHint.java:184-191 | moves the hint so that its configured corner, at the measured size, is on the given point |
| `Hint.PopupHint.ShowHint` | lib/src/main/java/com/whiterabbit/jcricket/PopupHint.java:266-274 | the final position is the corner-adjusted anchor plus the offsets, and the hint's corner lands on `getPopupLocation`'s point |
| `Hint.BuildAndShowExample` | lib/src/main/java/com/whiterabbit/jcricket/PopupHint.java:83-87 | building with `location(CENTER, BOTTOM_RIGHT)` and showing over a 50x20 target at (100, 200) with a 40x30 hint puts the hint at (85, 180) |

## Left out

- Inflating the layout, creating and configuring the `PopupWindow`, its transparent background, and `showAtLocation`/`update` (`generateWindow`, lines 145-175, 185, 189). These are host-toolkit calls. `DisplayHint` returns the coordinates that `update` would receive.
- The touch listener that dismisses the popup, and the installation of the `OnDismissListener` (lines 164-173). These are UI event plumbing. The listener is only stored, as an opaque `HostRef`.
- The deferral of the show sequence with `View.post` (lines 266-274). `ShowHint` models the body of the posted runnable and runs it immediately.
- `getLocationOnScreen`, `getWidth`/`getHeight`, `measure` and `getMeasuredWidth`/`getMeasuredHeight`. Their results are parameters. `staleMeasured` is the size the hint had when `getPopupLocation` ran, and `measured` is its size after `measure`.
- Density.ToPixels: the density is a float (line 55), and the model takes it as an exact positive ratio and the offset as an exact integer. It does not capture Java's conversion of the `int` offset to `float`, which is exact only for |dp| ≤ 2^24 (an offset of 16777217 at density 1.0f gives 16777216 pixels, where the model gives 16777217). It also does not capture the rounding of the float product `dp * density` before the `(int)` cast at lines 234-235. Because the density is a parameter, reading it from the host's display metrics is also left out. The fixed size scaled to pixels in `generateWindow` (lines 155-156) is not modelled.
- `getPopupView` and `getHintSubview` (lines 282-294). One is a trivial accessor and the other a lookup in the host's view tree.
- The `default` branch of the switch in `getPopupLocation` (lines 228-229). It cannot be reached: every enum constant has its own case, and a null location would throw before the switch. The Dafny `match` is exhaustive without it.
- A null `PopupCorner` and a null context cannot be expressed: `Geometry.PopupCorner` and `Hint.HostRef` are datatypes, which have no null. In Java, `location(loc, null)` is accepted, and `showHint` then throws a NullPointerException at the discarded `adjustLocationByCorner` call on line 232 (its switch is at line 242), before `showAtLocation`; for a null corner, line 232 is therefore not dead. `new PopupBuilder(null)` is accepted, and building the hint then throws at line 55. The model covers only non-null corners and contexts.
- Geometry.AdjustShiftsUpLeft: states "never right of or below" only when the subtraction does not overflow, because Java's wrap-around breaks it otherwise. The other corner lemmas hold for all inputs.
