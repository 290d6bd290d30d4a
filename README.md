# ColorPickerView sliders, modelled in Dafny

This project models the slider bars of the ColorPickerView Android widget
library: the abstract slider that turns a touch on a horizontal track into a
position in [0, 1] and notifies the colour picker's listener, and its two
concrete bars, the alpha bar and the brightness bar, which turn that position
into a colour built from the picker's current colour.

- `Wrappers.dfy`: an `Option` type for Java references that may be null.
- `JavaNumerics.dfy`: Java's `(int)` cast from `float` (truncation toward
  zero) and `Math.min(x, 1.0f)`, over `real`.
- `Colors.dfy`: the platform colour calls the sliders make
  (`Color.colorToHSV`, both `Color.HSVToColor` overloads, `WHITE`, `GRAY`),
  over a colour kept as its alpha and HSV triple.
- `SliderGeometry.dfy`: the pure arithmetic of `AbstractSlider`: the touch
  position, the position `updateSelectorX` sets, `getBoundaryX`,
  `getBorderSize` and the three rectangles of `onSizeChanged`, with the
  lemmas about them (bounds, end points, monotonicity, the round trip of
  placing a position on the track and touching it, agreement between the
  selector's offset and the reported position).
- `SliderColors.dfy`: the `assembleColor` rules and `updatePaint` gradients of
  the alpha and brightness bars, with the lemmas that the gradient ends are
  exactly the colours reported at positions 0 and 1.
- `Sliders.dfy`: the stateful part. `Slider` is one class for both bars,
  with a `kind` tag in place of the Java subclasses; its methods update the
  fields as the Java methods do, step by step, and their postconditions tie
  the new state to the functions above. `ColorPicker` stands for the
  attached `ColorPickerView`: its pure colour, its action mode, its optional
  alpha bar and a log of the `(color, fromUser)` listener calls. `AlphaBarScenario`
  and `BrightnessBarScenario` are clients verified against the contracts.

Touch positions, selector fractions and corner radii are Java `float`s,
modelled as `real`; widths, offsets and the selector's x are whole pixels.

## Model

| member | source | states |
|---|---|---|
| JavaNumerics.FloatToInt | colorpickerview/src/main/java/com/skydoves/colorpickerview/sliders/AlphaSlideBar.java:114 | the `(int)` cast truncates toward zero: the result is the whole part of the value, at most 1 away from it, with the value's sign |
| JavaNumerics.FloatToIntMonotone | colorpickerview/src/main/java/com/skydoves/colorpickerview/sliders/AlphaSlideBar.java:114 | the cast preserves order |
| JavaNumerics.MinOne | colorpickerview/src/main/java/com/skydoves/colorpickerview/sliders/AbstractSlider.java:265 | `Math.min(p, 1.0f)` is at most 1.0 and at most p, and is one of the two |
| SliderGeometry.TouchPosition | colorpickerview/src/main/java/com/skydoves/colorpickerview/sliders/AbstractSlider.java:226-232 | the position a touch reports always lies in [0, 1], on any track that is not exactly two selectors wide |
| SliderGeometry.TouchPositionAtLeftEnd | colorpickerview/src/main/java/com/skydoves/colorpickerview/sliders/AbstractSlider.java:227-231 | a touch at or left of one full selector width reports 0 |
| SliderGeometry.TouchPositionAtRightEnd | colorpickerview/src/main/java/com/skydoves/colorpickerview/sliders/AbstractSlider.java:228-232 | a touch at or right of width minus one selector width reports 1.0 |
| SliderGeometry.TouchPositionMonotone | colorpickerview/src/main/java/com/skydoves/colorpickerview/sliders/AbstractSlider.java:226-232 | a touch further right never reports a lower position |
| SliderGeometry.TouchPositionRoundTrip | colorpickerview/src/main/java/com/skydoves/colorpickerview/sliders/AbstractSlider.java:226-232 | touching the point at fraction p of the track reports exactly p, for every p in [0, 1] |
| SliderGeometry.UpdatePosition | colorpickerview/src/main/java/com/skydoves/colorpickerview/sliders/AbstractSlider.java:254-258 | the position `updateSelectorX` sets is capped above at 1.0 |
| SliderGeometry.UpdateAgreesWithTouch | colorpickerview/src/main/java/com/skydoves/colorpickerview/sliders/AbstractSlider.java:254-258 | inside the track, `updateSelectorX(x)` sets the same position a touch at x reports |
| SliderGeometry.UpdatePositionBelowTrack | colorpickerview/src/main/java/com/skydoves/colorpickerview/sliders/AbstractSlider.java:257-258 | `updateSelectorX` has no lower clamp: an x left of the track gives a negative position |
| SliderGeometry.BoundaryX | colorpickerview/src/main/java/com/skydoves/colorpickerview/sliders/AbstractSlider.java:279-284 | `getBoundaryX` stays in [0, maxPos] whenever maxPos = width - selectorSize >= 0 (with a non-negative selector size), and never exceeds x unless it is 0 |
| SliderGeometry.BoundaryXMonotone | colorpickerview/src/main/java/com/skydoves/colorpickerview/sliders/AbstractSlider.java:279-284 | a larger x never gives a smaller offset |
| SliderGeometry.BoundaryXOfInt | colorpickerview/src/main/java/com/skydoves/colorpickerview/sliders/AbstractSlider.java:234-235 | on a whole-pixel x the `(int)` cast of the offset loses nothing |
| SliderGeometry.BoundaryXRestoresOffset | colorpickerview/src/main/java/com/skydoves/colorpickerview/sliders/AbstractSlider.java:254-259 | replaying a saved offset s as s + selectorSize restores s while s + selectorSize is left of maxPos |
| SliderGeometry.BoundaryXSkipsBeforeRightEnd | colorpickerview/src/main/java/com/skydoves/colorpickerview/sliders/AbstractSlider.java:279-284 | from whole-pixel x the offset is either maxPos or at most width - 2 * selectorSize - 1: it jumps across the last selector width |
| SliderGeometry.TouchOffsetMatchesPosition | colorpickerview/src/main/java/com/skydoves/colorpickerview/sliders/AbstractSlider.java:226-235 | inside the track a touch at x puts the selector at x - selectorWidth, and the reported position is that offset divided by the track length |
| SliderGeometry.SetterAndTouchOffsetsDiffer | colorpickerview/src/main/java/com/skydoves/colorpickerview/sliders/AbstractSlider.java:264-268 | on a 200-pixel bar with a 20-pixel selector and no borders, setSelectorPosition(0.5) aims at offset 60 while the touch reporting 0.5 lands at offset 80 |
| SliderGeometry.FractionInRange | colorpickerview/src/main/java/com/skydoves/colorpickerview/sliders/AbstractSlider.java:231 | a clamped touch lies at a fraction in [0, 1] of the track |
| SliderGeometry.BarRectsNest | colorpickerview/src/main/java/com/skydoves/colorpickerview/sliders/AbstractSlider.java:176-182 | a larger inset gives a rectangle inside the smaller inset's |
| SliderGeometry.LayoutNests | colorpickerview/src/main/java/com/skydoves/colorpickerview/sliders/AbstractSlider.java:176-182 | with non-negative border widths, drawRect (inset by getBorderSize, the outer plus the inner width) lies in innerBorderRect, which lies in outerBorderRect |
| SliderColors.AlphaOf | colorpickerview/src/main/java/com/skydoves/colorpickerview/sliders/AlphaSlideBar.java:114 | the alpha of a position in [0, 1] lies in [0, 255]; position 0 gives 0 and position 1 gives 255 |
| SliderColors.AlphaOfMonotone | colorpickerview/src/main/java/com/skydoves/colorpickerview/sliders/AlphaSlideBar.java:114 | a higher position never gives a lower alpha |
| SliderColors.AlphaColor | colorpickerview/src/main/java/com/skydoves/colorpickerview/sliders/AlphaSlideBar.java:111-116 | the alpha bar's colour keeps the base colour's HSV and replaces only the alpha |
| SliderColors.BrightnessColor | colorpickerview/src/main/java/com/skydoves/colorpickerview/sliders/BrightnessSlideBar.java:83-92 | the brightness bar's colour keeps hue and saturation, has the position as value, and takes the alpha bar's alpha when there is one and is opaque otherwise |
| SliderColors.BrightnessThenAlpha | colorpickerview/src/main/java/com/skydoves/colorpickerview/sliders/BrightnessSlideBar.java:87-91 | with an alpha bar attached, the brightness colour equals the alpha rule applied to the opaque brightness colour |
| SliderColors.AlphaGradient | colorpickerview/src/main/java/com/skydoves/colorpickerview/sliders/AlphaSlideBar.java:73-89 | the alpha bar's gradient runs from the colour reported at position 0 to the colour reported at position 1 |
| SliderColors.BrightnessGradient | colorpickerview/src/main/java/com/skydoves/colorpickerview/sliders/BrightnessSlideBar.java:56-67 | the brightness bar's gradient runs from value 0 to value 1 at the base hue and saturation, the opaque colours reported at positions 0 and 1 |
| Sliders.TrackedActionIgnoresIndexBits | colorpickerview/src/main/java/com/skydoves/colorpickerview/sliders/AbstractSlider.java:209-212 | IsTrackedAction, the switch on the masked action, is the same for every value of the multi-touch index bits |
| Sliders.FiringPolicy | colorpickerview/src/main/java/com/skydoves/colorpickerview/sliders/AbstractSlider.java:237-243 | Fires: outside LAST every handled touch notifies; in LAST a notification implies a masked ACTION_UP, and an up whose raw action carries index bits is handled but does not notify |
| Sliders.ColorPicker.FireColorListener | colorpickerview/src/main/java/com/skydoves/colorpickerview/sliders/AbstractSlider.java:237-243 | each listener call appends one (colour, fromUser) entry to the log |
| Sliders.Slider.constructor | colorpickerview/src/main/java/com/skydoves/colorpickerview/sliders/AbstractSlider.java:58-72 | a new slider is at position 1.0, offset 0, white, enabled, with no picker, zero borders, gray and white border paints, and no rectangles yet |
| Sliders.Slider.AttachColorPickerView | colorpickerview/src/main/java/com/skydoves/colorpickerview/sliders/AbstractSlider.java:436-438 | the picker is attached |
| Sliders.Slider.SetPreferenceName | colorpickerview/src/main/java/com/skydoves/colorpickerview/sliders/AbstractSlider.java:472-474 | the preference name is set |
| Sliders.Slider.SetEnabled | colorpickerview/src/main/java/com/skydoves/colorpickerview/sliders/AbstractSlider.java:79-84 | the selector is visible and the bar clickable exactly when enabled |
| Sliders.Slider.AssembleColor | colorpickerview/src/main/java/com/skydoves/colorpickerview/sliders/AlphaSlideBar.java:111-116 | the reported colour, reading state and changing none: the alpha bar keeps the base HSV with alpha from the position; the brightness bar (BrightnessSlideBar.java:83-92) sets value to the position with the alpha bar's alpha or opaque; the helper AttachedAlphaPosition reads the alpha bar's position |
| Sliders.Slider.UpdatePaint | colorpickerview/src/main/java/com/skydoves/colorpickerview/sliders/AlphaSlideBar.java:73-89 | the colour paint's shader becomes the bar's gradient for the current base colour (BrightnessSlideBar.java:56-67 for the brightness bar) |
| Sliders.Slider.NotifyColor | colorpickerview/src/main/java/com/skydoves/colorpickerview/sliders/AbstractSlider.java:195-199 | the base colour becomes the picker's pure colour and the shader follows it |
| Sliders.Slider.OnTouchEvent | colorpickerview/src/main/java/com/skydoves/colorpickerview/sliders/AbstractSlider.java:201-223 | a touch is handled exactly when the slider is enabled, has a picker and the masked action is down, move or up; disabled or detached, nothing changes; an unhandled action on an attached, enabled slider only releases the selector; a handled one has the effect of OnTouchReceived |
| Sliders.Slider.TrackFraction | colorpickerview/src/main/java/com/skydoves/colorpickerview/sliders/AbstractSlider.java:226-232 | the step-by-step clamps and cap compute TouchPosition |
| Sliders.Slider.OnTouchReceived | colorpickerview/src/main/java/com/skydoves/colorpickerview/sliders/AbstractSlider.java:225-252 | position = TouchPosition of the touch x; offset = getBoundaryX of the truncated touch x; the selector's x lies in [0, width - selectorWidth] when that is non-negative; in LAST mode the listener is called once with fromUser true only for ACTION_UP, in any other mode once per event; the position stays at most 1.0 |
| Sliders.Slider.UpdateSelectorX | colorpickerview/src/main/java/com/skydoves/colorpickerview/sliders/AbstractSlider.java:254-262 | position = UpdatePosition(x), offset = getBoundaryX(x), and exactly one listener call with fromUser false |
| Sliders.Slider.SetSelectorPosition | colorpickerview/src/main/java/com/skydoves/colorpickerview/sliders/AbstractSlider.java:264-269 | the position reads back as min(p, 1.0); the offset is computed from the uncapped p; no listener call |
| Sliders.Slider.SetSelectorByHalfSelectorPosition | colorpickerview/src/main/java/com/skydoves/colorpickerview/sliders/AbstractSlider.java:271-277 | the position reads back as min(p, 1.0); the offset is aimed half a selector further right; no listener call |
| Sliders.Slider.OnInflateFinished | colorpickerview/src/main/java/com/skydoves/colorpickerview/sliders/AlphaSlideBar.java:91-102 | without a preference name the selector goes to x = width with no listener call; with one, the saved offset (the width when none is saved) plus the selector size goes through updateSelectorX and the listener is called once with fromUser false; the same in BrightnessSlideBar.java:69-80 |
| Sliders.Slider.OnSizeChanged | colorpickerview/src/main/java/com/skydoves/colorpickerview/sliders/AbstractSlider.java:173-183 | corner radius is h/2; drawRect is inset by the border size (plus padding vertically), the border rectangles by their stroke centres; with non-negative widths they nest; the alpha bar rebuilds its background only when w > 0 and h > 0 (AlphaSlideBar.java:60-71); the helper BarRect builds each rectangle |
| Sliders.Slider.SetOuterBorderWidth | colorpickerview/src/main/java/com/skydoves/colorpickerview/sliders/AbstractSlider.java:361-365 | the outer border width and its paint's stroke width both become the new width |
| Sliders.Slider.SetInnerBorderWidth | colorpickerview/src/main/java/com/skydoves/colorpickerview/sliders/AbstractSlider.java:403-407 | the inner border width and its paint's stroke width both become the new width |
| Sliders.Slider.SetOuterBorderColor | colorpickerview/src/main/java/com/skydoves/colorpickerview/sliders/AbstractSlider.java:340-344 | the outer border paint takes the new colour |
| Sliders.Slider.SetInnerBorderColor | colorpickerview/src/main/java/com/skydoves/colorpickerview/sliders/AbstractSlider.java:382-386 | the inner border paint takes the new colour |

Every state-changing method also keeps the slider's invariant `Valid()`: the
position never exceeds 1.0, and on a bar at least as wide as its selector
the selected offset stays within [0, width - selectorWidth].

## Where the code departs from the widget's documented design

The model follows the code:

- The touch track starts one full selector width from each edge; the
  border widths play no part in it.
- The alpha is the truncation of `position * 255`, not its rounding.
- Only touches are clamped to [0, 1]. `updateSelectorX` caps its position
  at 1.0 and has no lower clamp, and the two setters keep `min(p, 1.0)`,
  so a negative position passes through unchanged.
- Outside LAST mode the listener is called on every down, move and up, not
  only on moves.
- The offset of a touch is computed from the raw, unclamped touch x, and
  `setSelectorPosition` places the selector from its uncapped argument.
- `setSelectorPosition(p)` aims at `width * p - selectorSize - borderSize`
  and `getBoundaryX` subtracts the selector size again, so the selector does
  not land where a touch reporting p would put it (SetterAndTouchOffsetsDiffer).

## Left out

- Sliders.Slider.OnTouchReceived: requires the track not to be exactly two selector widths wide, where Java divides zero by zero and stores NaN; the same requirement is on UpdateSelectorX, TrackFraction, OnTouchEvent (for handled touches) and OnInflateFinished (with a preference name).
- Sliders.Slider.NotifyColor: requires an attached picker; without one Java dereferences null and throws. UpdateSelectorX and OnInflateFinished (with a preference name) require one for the same reason.
- Float rounding, NaN and infinities: positions are exact reals.
- Java's 32-bit `int` overflow (in the border size) and the saturation of the `(int)` cast at the ends of the int range.
- The RGB side of `Color.colorToHSV` and `Color.HSVToColor`: a colour is modelled by the alpha and HSV triple it was built from, so the 8-bit quantisation of channels is not captured and BrightnessThenAlpha holds in the model only.
- Drawing: `onDraw`, the canvas, bitmaps, the alpha tile drawable and clip paths; the background bitmap is modelled by its size, clip rectangle and corner radius, and the paint by its shader and border strokes. `invalidate()` is not modelled.
- View plumbing: `setSelectorDrawable`, `setSelectorDrawableRes`, `onCreate`'s paint set-up beyond the border strokes, and the global-layout listener of `initializeSelector`, which only calls `onInflateFinished` once.
- Attribute and resource parsing (`useAttrs`, `getAttrs`) and the resource setters (`setOuterBorderColorRes`, `setOuterBorderSizeRes`, `setInnerBorderColorRes`, `setInnerBorderSizeRes`); the border widths and colours start at their defaults and change through the plain setters.
- The getters `getColor`, `getSelectedX` and `getPreferenceName` are reads of the fields of the same names; `getSelectorSize` is the selector's measured width. `getSelectorPosition` (Slider.GetSelectorPosition) and `getBorderSize` (Slider.GetBorderSize, SliderGeometry.BorderSize) are plain reads with no contract of their own: what they return is stated by SetSelectorPosition's round trip and by OnSizeChanged and LayoutNests.
- IsTrackedAction and Fires are predicates with no contract of their own; TrackedActionIgnoresIndexBits and FiringPolicy state their meaning.
- Measurement: the bar's measured width and height and the selector's measured width are fixed when a slider is made; `getWidth()`/`getHeight()` in the brightness bar's gradient are taken to equal the measured size.
- ColorPickerPreferenceManager: the saved offset is a parameter of OnInflateFinished.
- ColorPickerView: only the parts listed above; the flag view that touches are forwarded to, and whatever the listener itself does, are not part of this model. ActionMode is modelled as LAST and one other mode.
- ColorHsvPalette.java is not part of this model: it only builds and draws shaders.
- `selector.setPressed` and the selector's visibility are boolean fields.
