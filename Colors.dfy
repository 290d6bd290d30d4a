/**
 * The part of the platform colour API the sliders use: `Color.colorToHSV`,
 * the two `Color.HSVToColor` overloads and the colour constants.
 *
 * A `@ColorInt` is kept as the alpha and the hue/saturation/value triple it
 * was assembled from; the conversion to and from 8-bit RGB channels is not
 * part of this model, so `ColorToHsv` reads back exactly the triple that
 * `HsvToColor` was given.
 */
module Colors {

  /** Hue in [0, 360), saturation and value in [0, 1]. */
  datatype Hsv = Hsv(hue: real, saturation: real, value: real)

  /** A colour: an alpha channel (0 transparent .. 255 opaque) and an HSV triple. */
  datatype Color = Color(alpha: int, hsv: Hsv)

  /** The alpha of a fully opaque colour. */
  const Opaque: int := 255

  /** `Color.WHITE` (0xFFFFFFFF). */
  const White: Color := Color(Opaque, Hsv(0.0, 0.0, 1.0))

  /** `Color.GRAY` (0xFF888888). */
  const Gray: Color := Color(Opaque, Hsv(0.0, 0.0, 136.0 / 255.0))

  /** `Color.colorToHSV(c, hsv)`: the HSV triple of `c`, dropping its alpha. */
  function ColorToHsv(c: Color): Hsv
  {
    c.hsv
  }

  /** `Color.HSVToColor(alpha, hsv)`. */
  function HsvToColor(alpha: int, hsv: Hsv): (c: Color)
    ensures ColorToHsv(c) == hsv && c.alpha == alpha
  {
    Color(alpha, hsv)
  }

  /** `Color.HSVToColor(hsv)`: the overload without alpha yields an opaque colour. */
  function HsvToOpaqueColor(hsv: Hsv): (c: Color)
    ensures c == HsvToColor(Opaque, hsv)
  {
    Color(Opaque, hsv)
  }
}
