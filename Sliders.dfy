/**
 * The slider views: the state the abstract slider keeps and updates on
 * touches, programmatic moves and layout, specialised into an alpha bar and
 * a brightness bar by a kind tag, and the colour picker they report to.
 */
module Sliders {
  import opened Wrappers
  import opened JavaNumerics
  import opened Colors
  import opened SliderGeometry
  import opened SliderColors

  /** The picker's notification policy: `LAST` reports on release only. */
  datatype ActionMode = Always | Last

  /** `MotionEvent` action codes and the mask that strips the multi-touch index bits. */
  const ActionDown: nat := 0
  const ActionUp: nat := 1
  const ActionMove: nat := 2
  const ActionMask: nat := 0xff

  /** A touch event: its raw `getAction()` code and its x coordinate. */
  datatype MotionEvent = MotionEvent(action: nat, x: real)

  /** `getActionMasked()`: the action without the multi-touch index bits. */
  function ActionMasked(e: MotionEvent): nat
  {
    e.action % (ActionMask + 1)
  }

  /** The actions the slider handles: down, move and up. */
  predicate IsTrackedAction(e: MotionEvent)
  {
    var a := ActionMasked(e);
    a == ActionDown || a == ActionUp || a == ActionMove
  }

  /** Whether a handled touch notifies the listener under `mode`. */
  predicate Fires(mode: ActionMode, e: MotionEvent)
  {
    mode == Last ==> e.action == ActionUp
  }

  /**
   * The switch of `onTouchEvent` looks at the masked action only, so the
   * multi-touch index bits never change whether a touch is handled.
   */
  lemma TrackedActionIgnoresIndexBits(e: MotionEvent, index: nat)
    ensures IsTrackedAction(MotionEvent(e.action + index * (ActionMask + 1), e.x)) == IsTrackedAction(e)
  {
    ModAddMultiple(e.action, index);
  }

  /** Adding whole multiples of 256 leaves the masked action unchanged. */
  lemma {:induction false} ModAddMultiple(a: nat, k: nat)
    ensures (a + k * 256) % 256 == a % 256
  {
    if k > 0 {
      ModAddMultiple(a, k - 1);
      assert a + k * 256 == (a + (k - 1) * 256) + 256;
    }
  }

  /**
   * The notification policy: outside `LAST` every handled touch notifies;
   * in `LAST` mode only a release does, and a release whose raw action
   * carries index bits does not, although the switch handles it.
   */
  lemma FiringPolicy(mode: ActionMode, e: MotionEvent)
    ensures mode == Always ==> Fires(mode, e)
    ensures mode == Last && Fires(mode, e) ==> IsTrackedAction(e) && ActionMasked(e) == ActionUp
    ensures mode == Last && e.action == ActionUp + (ActionMask + 1) ==>
              IsTrackedAction(e) && ActionMasked(e) == ActionUp && !Fires(mode, e)
  {
    if e.action == ActionUp + (ActionMask + 1) {
      ModAddMultiple(ActionUp, 1);
    }
  }

  /** One call of the picker's colour listener. */
  datatype Notification = Notification(color: Color, fromUser: bool)

  /**
   * The colour picker a slider is attached to, reduced to what the sliders
   * use: its pure colour, its action mode, an optional alpha slider, and
   * the log of listener calls.
   */
  class ColorPicker {
    var pureColor: Color
    var actionMode: ActionMode
    var alphaSlider: Slider?
    ghost var notifications: seq<Notification>

    constructor (pureColor: Color, actionMode: ActionMode)
      ensures this.pureColor == pureColor && this.actionMode == actionMode
      ensures alphaSlider == null && notifications == []
    {
      this.pureColor := pureColor;
      this.actionMode := actionMode;
      alphaSlider := null;
      notifications := [];
    }

    /** `fireColorListener(color, fromUser)`. */
    method FireColorListener(color: Color, fromUser: bool)
      modifies this`notifications
      ensures notifications == old(notifications) + [Notification(color, fromUser)]
    {
      notifications := notifications + [Notification(color, fromUser)];
    }
  }

  /** Which concrete slider a `Slider` is. */
  datatype SliderKind = AlphaBar | BrightnessBar

  /** The selector's stroke paint for one border: its width and colour. */
  datatype BorderPaint = BorderPaint(strokeWidth: int, color: Color)

  /** The alpha bar's checkered background, clipped to the rounded colour bar. */
  datatype Background = Background(width: int, height: int, clip: Rect, cornerRadius: real)

  class Slider {
    const kind: SliderKind
    /** `getMeasuredWidth()` and `getMeasuredHeight()` of the bar. */
    const width: nat
    const height: nat
    /** `selector.getMeasuredWidth()`, which is also `getSelectorSize()`. */
    const selectorWidth: nat

    var picker: ColorPicker?
    var selectorPosition: real
    var selectedX: int
    var color: Color
    var enabled: bool
    var clickable: bool
    var selectorVisible: bool
    var selectorPressed: bool
    /** `selector.getX()`. */
    var selectorX: int
    var preferenceName: Option<string>
    var outerBorderWidth: int
    var innerBorderWidth: int
    var barVerticalPadding: int
    var outerBorderPaint: BorderPaint
    var innerBorderPaint: BorderPaint
    var cornerRadius: real
    var drawRect: Option<Rect>
    var innerBorderRect: Option<Rect>
    var outerBorderRect: Option<Rect>
    /** The shader of the colour paint. */
    var shader: Option<Gradient>
    /** The alpha bar's background bitmap. */
    var background: Option<Background>

    /** The right-most offset the selector may take. */
    function MaxPos(): int
    {
      width - selectorWidth
    }

    /**
     * Kept by every operation: the position never exceeds 1.0, and on a bar
     * at least as wide as the selector the selected offset stays on the bar.
     */
    ghost predicate Valid()
      reads this`selectorPosition, this`selectedX
    {
      selectorPosition <= 1.0 &&
      (MaxPos() >= 0 ==> 0 <= selectedX <= MaxPos())
    }

    constructor (kind: SliderKind, width: nat, height: nat, selectorWidth: nat)
      ensures Valid()
      ensures this.kind == kind && this.width == width && this.height == height
      ensures this.selectorWidth == selectorWidth
      ensures picker == null && preferenceName == None
      ensures selectorPosition == 1.0 && selectedX == 0 && selectorX == 0 && color == White
      ensures enabled && !clickable && selectorVisible && !selectorPressed
      ensures outerBorderWidth == 0 && innerBorderWidth == 0 && barVerticalPadding == 0
      ensures outerBorderPaint == BorderPaint(0, Gray) && innerBorderPaint == BorderPaint(0, White)
      ensures drawRect == None && innerBorderRect == None && outerBorderRect == None
      ensures shader == None && background == None
    {
      this.kind := kind;
      this.width := width;
      this.height := height;
      this.selectorWidth := selectorWidth;
      picker := null;
      selectorPosition := 1.0;
      selectedX := 0;
      color := White;
      enabled := true;
      clickable := false;
      selectorVisible := true;
      selectorPressed := false;
      selectorX := 0;
      preferenceName := None;
      outerBorderWidth := 0;
      innerBorderWidth := 0;
      barVerticalPadding := 0;
      outerBorderPaint := BorderPaint(0, Gray);
      innerBorderPaint := BorderPaint(0, White);
      cornerRadius := 0.0;
      drawRect := None;
      innerBorderRect := None;
      outerBorderRect := None;
      shader := None;
      background := None;
    }

    /** `attachColorPickerView`. */
    method AttachColorPickerView(p: ColorPicker)
      modifies this`picker
      ensures picker == p
    {
      picker := p;
    }

    /** `setPreferenceName`. */
    method SetPreferenceName(name: Option<string>)
      modifies this`preferenceName
      ensures preferenceName == name
    {
      preferenceName := name;
    }

    /** `setEnabled`: the selector is shown and the bar clickable exactly when enabled. */
    method SetEnabled(e: bool)
      modifies this`enabled, this`selectorVisible, this`clickable
      ensures enabled == e && selectorVisible == e && clickable == e
    {
      enabled := e;
      selectorVisible := e;
      clickable := e;
    }

    /** `getSelectorPosition()`. */
    function GetSelectorPosition(): real
      reads this`selectorPosition
    {
      selectorPosition
    }

    /** `getBorderSize()`. */
    function GetBorderSize(): int
      reads this`outerBorderWidth, this`innerBorderWidth
    {
      BorderSize(outerBorderWidth, innerBorderWidth)
    }

    /** The alpha slider's position, when the picker has one. */
    function AttachedAlphaPosition(): (r: Option<real>)
      reads this`picker, picker,
            if picker != null && picker.alphaSlider != null then {picker.alphaSlider} else {}
      ensures r.Some? <==> picker != null && picker.alphaSlider != null
      ensures r.Some? ==> r.value == picker.alphaSlider.selectorPosition
    {
      if picker != null && picker.alphaSlider != null then Some(picker.alphaSlider.selectorPosition)
      else None
    }

    /**
     * `assembleColor()`: the colour this slider reports. It reads the base
     * colour and the positions and changes nothing.
     */
    function AssembleColor(): (c: Color)
      reads this`color, this`selectorPosition, this`picker, picker,
            if picker != null && picker.alphaSlider != null then {picker.alphaSlider} else {}
      ensures kind == AlphaBar ==>
                ColorToHsv(c) == ColorToHsv(color) && c.alpha == AlphaOf(selectorPosition)
      ensures kind == BrightnessBar ==>
                ColorToHsv(c) == ColorToHsv(color).(value := selectorPosition)
      ensures kind == BrightnessBar && picker != null && picker.alphaSlider != null ==>
                c.alpha == AlphaOf(picker.alphaSlider.selectorPosition)
      ensures kind == BrightnessBar && (picker == null || picker.alphaSlider == null) ==>
                c.alpha == Opaque
    {
      match kind
      case AlphaBar => AlphaColor(color, selectorPosition)
      case BrightnessBar => BrightnessColor(color, selectorPosition, AttachedAlphaPosition())
    }

    /** The gradient `updatePaint` gives the colour paint for the current base colour. */
    function PaintGradient(): Gradient
      reads this`color
    {
      match kind
      case AlphaBar => AlphaGradient(color, width, height)
      case BrightnessBar => BrightnessGradient(color, width, height)
    }

    /** `updatePaint(colorPaint)`. */
    method UpdatePaint()
      modifies this`shader
      ensures shader == Some(PaintGradient())
    {
      shader := Some(PaintGradient());
    }

    /** `notifyColor()`: take the picker's pure colour as the base and repaint. */
    method NotifyColor()
      requires picker != null
      modifies this`color, this`shader
      ensures color == picker.pureColor
      ensures shader == Some(PaintGradient())
    {
      color := picker.pureColor;
      UpdatePaint();
    }

    /**
     * `onTouchEvent(event)`: a down, move or up on an enabled slider with a
     * picker is handled and returns true; anything else returns false, and
     * only an unhandled action on an enabled, attached slider releases the
     * selector.
     */
    method OnTouchEvent(event: MotionEvent) returns (handled: bool)
      requires Valid()
      requires enabled && picker != null && IsTrackedAction(event) ==> width != 2 * selectorWidth
      modifies this`selectorPressed, this`selectorPosition, this`selectedX, this`selectorX, picker
      ensures Valid()
      ensures picker != null ==> unchanged(picker`pureColor, picker`actionMode, picker`alphaSlider)
      ensures handled <==> enabled && picker != null && IsTrackedAction(event)
      ensures !handled ==>
                unchanged(this`selectorPosition, this`selectedX, this`selectorX) &&
                (picker != null ==> unchanged(picker`notifications))
      ensures !enabled || picker == null ==> unchanged(this`selectorPressed)
      ensures enabled && picker != null ==> selectorPressed == handled
      ensures handled ==> TouchReceived(event, old(picker.notifications))
    {
      if !enabled {
        return false;
      }
      if picker != null {
        if IsTrackedAction(event) {
          selectorPressed := true;
          OnTouchReceived(event);
          return true;
        } else {
          selectorPressed := false;
          return false;
        }
      } else {
        return false;
      }
    }

    /**
     * What a handled touch leaves behind, given the picker's log before it:
     * the position and offset the touch maps to, the selector on the bar,
     * and one listener call from the user unless the mode is `LAST` and the
     * touch is not the release.
     */
    ghost predicate TouchReceived(event: MotionEvent, before: seq<Notification>)
      requires picker != null && width != 2 * selectorWidth
      reads this, picker, if picker.alphaSlider != null then {picker.alphaSlider} else {}
    {
      selectorPosition == TouchPosition(event.x, width, selectorWidth) &&
      selectedX == FloatToInt(BoundaryX(FloatToInt(event.x) as real, width, selectorWidth)) &&
      selectorX == (if MaxPos() >= 0 then selectedX else 0) &&
      picker.notifications ==
        before + (if Fires(picker.actionMode, event) then [Notification(AssembleColor(), true)] else [])
    }

    /**
     * The first half of `onTouchReceived`: the touch x clamped to the track
     * between one selector width from either edge, turned into a fraction
     * of the track and capped at 1.0.
     */
    method TrackFraction(x: real) returns (fraction: real)
      requires width != 2 * selectorWidth
      ensures fraction == TouchPosition(x, width, selectorWidth)
    {
      var eventX := x;
      var left := selectorWidth as real;
      var right := (width - selectorWidth) as real;
      if eventX < left {
        eventX := left;
      }
      if eventX > right {
        eventX := right;
      }
      fraction := (eventX - left) / (right - left);
      if left < right {
        assert eventX == Clamp(x, left, right);
        FractionInRange(eventX, left, right);
        assert TouchPosition(x, width, selectorWidth) == fraction <= 1.0;
      } else {
        assert eventX == right && right - left != 0.0;
        assert fraction == 1.0;
      }
      if fraction > 1.0 {
        fraction := 1.0;
      }
    }

    /** `onTouchReceived(event)`. */
    method OnTouchReceived(event: MotionEvent)
      requires Valid()
      requires picker != null && width != 2 * selectorWidth
      modifies this`selectorPosition, this`selectedX, this`selectorX, picker`notifications
      ensures Valid()
      ensures TouchReceived(event, old(picker.notifications))
      ensures MaxPos() >= 0 ==> 0 <= selectorX <= MaxPos()
    {
      selectorPosition := TrackFraction(event.x);

      var snapX := FloatToInt(event.x);
      selectedX := FloatToInt(BoundaryX(snapX as real, width, selectorWidth));
      BoundaryXOfInt(snapX, width, selectorWidth);
      selectorX := selectedX;
      ghost var reported := AssembleColor();
      if picker.actionMode == Last {
        if event.action == ActionUp {
          picker.FireColorListener(AssembleColor(), true);
        }
      } else {
        picker.FireColorListener(AssembleColor(), true);
      }

      var maxPos := width - selectorWidth;
      if selectorX >= maxPos {
        selectorX := maxPos;
      }
      if selectorX <= 0 {
        selectorX := 0;
      }
      assert AssembleColor() == reported;
    }

    /**
     * `updateSelectorX(x)`: move the selector to `x` from code, which
     * notifies the listener once with `fromUser` false.
     */
    method UpdateSelectorX(x: int)
      requires Valid()
      requires picker != null && width != 2 * selectorWidth
      modifies this`selectorPosition, this`selectedX, this`selectorX, picker`notifications
      ensures Valid()
      ensures selectorPosition == UpdatePosition(x, width, selectorWidth)
      ensures selectedX == FloatToInt(BoundaryX(x as real, width, selectorWidth))
      ensures selectorX == selectedX
      ensures picker.notifications == old(picker.notifications) + [Notification(AssembleColor(), false)]
    {
      var left := selectorWidth as real;
      var right := (width - selectorWidth) as real;
      selectorPosition := (x as real - left) / (right - left);
      if selectorPosition > 1.0 {
        selectorPosition := 1.0;
      }
      selectedX := FloatToInt(BoundaryX(x as real, width, selectorWidth));
      selectorX := selectedX;
      picker.FireColorListener(AssembleColor(), false);
    }

    /** The x `setSelectorPosition(p)` aims the selector at. */
    function PositionX(p: real): real
      reads this`outerBorderWidth, this`innerBorderWidth
    {
      width as real * p - selectorWidth as real - GetBorderSize() as real
    }

    /** The x `setSelectorByHalfSelectorPosition(p)` aims the selector at. */
    function HalfSelectorPositionX(p: real): real
      reads this`outerBorderWidth, this`innerBorderWidth
    {
      width as real * p - selectorWidth as real * 0.5 - GetBorderSize() as real
    }

    /**
     * `setSelectorPosition(p)`: the position reads back as `min(p, 1.0)`;
     * the selector is placed from the uncapped `p`. No listener is called.
     */
    method SetSelectorPosition(p: real)
      requires Valid()
      modifies this`selectorPosition, this`selectedX, this`selectorX
      ensures Valid()
      ensures GetSelectorPosition() == MinOne(p)
      ensures selectedX == FloatToInt(BoundaryX(PositionX(p), width, selectorWidth))
      ensures selectorX == selectedX
    {
      selectorPosition := MinOne(p);
      var x := PositionX(p);
      selectedX := FloatToInt(BoundaryX(x, width, selectorWidth));
      selectorX := selectedX;
    }

    /** `setSelectorByHalfSelectorPosition(p)`: as `SetSelectorPosition`, half a selector further right. */
    method SetSelectorByHalfSelectorPosition(p: real)
      requires Valid()
      modifies this`selectorPosition, this`selectedX, this`selectorX
      ensures Valid()
      ensures GetSelectorPosition() == MinOne(p)
      ensures selectedX == FloatToInt(BoundaryX(HalfSelectorPositionX(p), width, selectorWidth))
      ensures selectorX == selectedX
    {
      selectorPosition := MinOne(p);
      var x := HalfSelectorPositionX(p);
      selectedX := FloatToInt(BoundaryX(x, width, selectorWidth));
      selectorX := selectedX;
    }

    /**
     * `onInflateFinished()`: without a preference name the selector goes to
     * x = width and nothing is reported; with one, the saved offset (or the
     * width when none is saved) plus the selector size is replayed through
     * `updateSelectorX`.
     */
    method OnInflateFinished(saved: Option<int>)
      requires Valid()
      requires preferenceName.Some? ==> picker != null && width != 2 * selectorWidth
      modifies this`selectorPosition, this`selectedX, this`selectorX, picker
      ensures Valid()
      ensures picker != null ==> unchanged(picker`pureColor, picker`actionMode, picker`alphaSlider)
      ensures preferenceName.None? ==>
                selectorX == width && unchanged(this`selectorPosition, this`selectedX) &&
                (picker != null ==> unchanged(picker`notifications))
      ensures preferenceName.Some? ==>
                var x := saved.GetOr(width) + selectorWidth;
                selectorPosition == UpdatePosition(x, width, selectorWidth) &&
                selectedX == FloatToInt(BoundaryX(x as real, width, selectorWidth)) &&
                selectorX == selectedX &&
                picker.notifications == old(picker.notifications) + [Notification(AssembleColor(), false)]
    {
      var defaultPosition := width;
      if preferenceName.Some? {
        UpdateSelectorX(saved.GetOr(defaultPosition) + selectorWidth);
      } else {
        selectorX := defaultPosition;
      }
    }

    /**
     * `onSizeChanged(w, h)`: the corner radius is half the height and the
     * colour bar, inner border and outer border rectangles are the view
     * inset by the border size, the inner stroke's centre and the outer
     * stroke's centre; the alpha bar rebuilds its background only for a
     * non-empty size.
     */
    method OnSizeChanged(w: int, h: int)
      modifies this`cornerRadius, this`drawRect, this`innerBorderRect, this`outerBorderRect,
               this`background
      ensures cornerRadius == h as real / 2.0
      ensures drawRect == Some(BarRect(w, h, DrawOffset(outerBorderWidth, innerBorderWidth), barVerticalPadding))
      ensures innerBorderRect == Some(BarRect(w, h, InnerBorderOffset(outerBorderWidth, innerBorderWidth), barVerticalPadding))
      ensures outerBorderRect == Some(BarRect(w, h, OuterBorderOffset(outerBorderWidth), barVerticalPadding))
      ensures 0 <= outerBorderWidth && 0 <= innerBorderWidth ==>
                Within(drawRect.value, innerBorderRect.value) &&
                Within(innerBorderRect.value, outerBorderRect.value)
      ensures background ==
                if kind == AlphaBar && w > 0 && h > 0
                then Some(Background(w, h, drawRect.value, cornerRadius))
                else old(background)
    {
      cornerRadius := h as real / 2.0;
      var drawOffset := GetBorderSize() as real;
      drawRect := Some(Rect(drawOffset, drawOffset + barVerticalPadding as real,
                            w as real - drawOffset, h as real - drawOffset - barVerticalPadding as real));
      var innerOffset := innerBorderWidth as real / 2.0 + outerBorderWidth as real;
      innerBorderRect := Some(Rect(innerOffset, innerOffset + barVerticalPadding as real,
                                   w as real - innerOffset, h as real - innerOffset - barVerticalPadding as real));
      var outerOffset := outerBorderWidth as real / 2.0;
      outerBorderRect := Some(Rect(outerOffset, outerOffset + barVerticalPadding as real,
                                   w as real - outerOffset, h as real - outerOffset - barVerticalPadding as real));
      if 0 <= outerBorderWidth && 0 <= innerBorderWidth {
        LayoutNests(w, h, outerBorderWidth, innerBorderWidth, barVerticalPadding);
      }
      if kind == AlphaBar && w > 0 && h > 0 {
        background := Some(Background(w, h, drawRect.value, cornerRadius));
      }
    }

    /** `setOuterBorderWidth`: the field and the outer border's stroke. */
    method SetOuterBorderWidth(borderWidth: int)
      modifies this`outerBorderWidth, this`outerBorderPaint
      ensures outerBorderWidth == borderWidth
      ensures outerBorderPaint == old(outerBorderPaint).(strokeWidth := borderWidth)
    {
      outerBorderWidth := borderWidth;
      outerBorderPaint := outerBorderPaint.(strokeWidth := borderWidth);
    }

    /** `setInnerBorderWidth`: the field and the inner border's stroke. */
    method SetInnerBorderWidth(borderWidth: int)
      modifies this`innerBorderWidth, this`innerBorderPaint
      ensures innerBorderWidth == borderWidth
      ensures innerBorderPaint == old(innerBorderPaint).(strokeWidth := borderWidth)
    {
      innerBorderWidth := borderWidth;
      innerBorderPaint := innerBorderPaint.(strokeWidth := borderWidth);
    }

    /** `setOuterBorderColor`. */
    method SetOuterBorderColor(c: Color)
      modifies this`outerBorderPaint
      ensures outerBorderPaint == old(outerBorderPaint).(color := c)
    {
      outerBorderPaint := outerBorderPaint.(color := c);
    }

    /** `setInnerBorderColor`. */
    method SetInnerBorderColor(c: Color)
      modifies this`innerBorderPaint
      ensures innerBorderPaint == old(innerBorderPaint).(color := c)
    {
      innerBorderPaint := innerBorderPaint.(color := c);
    }
  }

  /**
   * A client of the specifications: a 200-pixel alpha bar with a 20-pixel
   * selector under a picker in `LAST` mode, dragged past its right end,
   * released, disabled and then moved from code.
   */
  method AlphaBarScenario()
  {
    var picker := new ColorPicker(White, Last);
    var bar := new Slider(AlphaBar, 200, 40, 20);
    bar.AttachColorPickerView(picker);

    var handled := bar.OnTouchEvent(MotionEvent(ActionMove, 300.0));
    assert handled && bar.selectorPosition == 1.0 && bar.selectorX == 180;
    assert picker.notifications == [];

    handled := bar.OnTouchEvent(MotionEvent(ActionUp, 300.0));
    assert picker.notifications == [Notification(Color(Opaque, White.hsv), true)];

    bar.SetEnabled(false);
    handled := bar.OnTouchEvent(MotionEvent(ActionDown, 10.0));
    assert !handled && bar.selectorPosition == 1.0;

    bar.SetSelectorPosition(0.25);
    assert bar.GetSelectorPosition() == 0.25;
    bar.SetSelectorPosition(3.0);
    assert bar.GetSelectorPosition() == 1.0;
  }

  /**
   * A brightness bar composed with an alpha bar: a press at the left end of
   * the brightness track reports black at the alpha bar's alpha.
   */
  method BrightnessBarScenario()
  {
    var picker := new ColorPicker(White, Always);
    var alpha := new Slider(AlphaBar, 200, 40, 20);
    var brightness := new Slider(BrightnessBar, 200, 40, 20);
    alpha.SetSelectorPosition(0.5);
    picker.alphaSlider := alpha;
    brightness.AttachColorPickerView(picker);
    brightness.NotifyColor();

    assert brightness.color == White && alpha.selectorPosition == 0.5;
    assert AlphaOf(0.5) == 127;

    var handled := brightness.OnTouchEvent(MotionEvent(ActionDown, 5.0));
    assert handled && brightness.selectorPosition == 0.0 && alpha.selectorPosition == 0.5;
    assert brightness.AssembleColor() == Color(127, White.hsv.(value := 0.0));
    assert picker.notifications == [Notification(Color(127, White.hsv.(value := 0.0)), true)];
  }
}
