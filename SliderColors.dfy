/**
 * The colour rules of the two concrete sliders: what `assembleColor`
 * reports for a position, and the gradient `updatePaint` draws the bar with.
 */
module SliderColors {
  import opened Wrappers
  import opened JavaNumerics
  import opened Colors

  /** The alpha a position stands for: `(int) (position * 255)`. */
  function AlphaOf(position: real): (a: int)
    ensures 0.0 <= position <= 1.0 ==> 0 <= a <= Opaque
    ensures position == 0.0 ==> a == 0
    ensures position == 1.0 ==> a == Opaque
  {
    FloatToInt(position * 255.0)
  }

  /** A higher position never gives a lower alpha. */
  lemma AlphaOfMonotone(p: real, q: real)
    requires p <= q
    ensures AlphaOf(p) <= AlphaOf(q)
  {
    FloatToIntMonotone(p * 255.0, q * 255.0);
  }

  /**
   * `AlphaSlideBar.assembleColor`: the base colour's hue, saturation and
   * value, with the alpha the position stands for.
   */
  function AlphaColor(base: Color, position: real): (c: Color)
    ensures ColorToHsv(c) == ColorToHsv(base)
    ensures c.alpha == AlphaOf(position)
  {
    HsvToColor(AlphaOf(position), ColorToHsv(base))
  }

  /**
   * `BrightnessSlideBar.assembleColor`: the base colour's hue and saturation
   * with the position as value; the alpha comes from the alpha slider's
   * position when one is attached, and is opaque otherwise.
   */
  function BrightnessColor(base: Color, position: real, alphaPosition: Option<real>): (c: Color)
    ensures ColorToHsv(c).hue == ColorToHsv(base).hue
    ensures ColorToHsv(c).saturation == ColorToHsv(base).saturation
    ensures ColorToHsv(c).value == position
    ensures alphaPosition.Some? ==> c.alpha == AlphaOf(alphaPosition.value)
    ensures alphaPosition.None? ==> c.alpha == Opaque
  {
    var hsv := ColorToHsv(base).(value := position);
    match alphaPosition
    case Some(a) => HsvToColor(AlphaOf(a), hsv)
    case None => HsvToOpaqueColor(hsv)
  }

  /**
   * With an alpha slider attached, the brightness slider reports what the
   * alpha slider would report on top of the opaque brightness colour: the
   * two substitutions commute, whichever slider moved last.
   */
  lemma BrightnessThenAlpha(base: Color, position: real, alphaPosition: real)
    ensures BrightnessColor(base, position, Some(alphaPosition))
            == AlphaColor(BrightnessColor(base, position, None), alphaPosition)
  {
  }

  /**
   * A linear gradient from (0, 0) to (x1, y1), as `LinearGradient` with
   * `Shader.TileMode.CLAMP`.
   */
  datatype Gradient = LinearGradient(x1: int, y1: int, startColor: Color, endColor: Color)

  /**
   * `AlphaSlideBar.updatePaint`: from the base HSV at alpha 0 to the same
   * HSV at alpha 255, so the two ends of the bar show exactly the colours
   * the slider reports at positions 0 and 1.
   */
  function AlphaGradient(base: Color, width: int, height: int): (g: Gradient)
    ensures g.startColor == AlphaColor(base, 0.0)
    ensures g.endColor == AlphaColor(base, 1.0)
    ensures g.x1 == width && g.y1 == height
  {
    var hsv := ColorToHsv(base);
    LinearGradient(width, height, HsvToColor(0, hsv), HsvToColor(255, hsv))
  }

  /**
   * `BrightnessSlideBar.updatePaint`: from value 0 to value 1 at the base
   * hue and saturation, both opaque, so the two ends of the bar show what
   * the slider reports at positions 0 and 1 when no alpha slider is attached.
   */
  function BrightnessGradient(base: Color, width: int, height: int): (g: Gradient)
    ensures g.startColor == BrightnessColor(base, 0.0, None)
    ensures g.endColor == BrightnessColor(base, 1.0, None)
    ensures g.x1 == width && g.y1 == height
  {
    var hsv := ColorToHsv(base);
    LinearGradient(width, height, HsvToOpaqueColor(hsv.(value := 0.0)), HsvToOpaqueColor(hsv.(value := 1.0)))
  }
}
