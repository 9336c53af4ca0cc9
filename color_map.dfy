/**
 * `brightness_to_rgb` (car_light.py, lines 113-134): the colour a vehicle is
 * painted with in the GUI, derived from its brightness in two linear regimes
 * split at BrightnessBase. The model follows what the code returns; the
 * comments beside it describe blue tuples that the code does not produce.
 */
module ColorMap {
  import opened Config

  /** An (r, g, b, a) colour as handed to `setColor`. */
  datatype Rgba = Rgba(r: int, g: int, b: int, a: int)

  /** Python's `int()` on a number: truncation toward zero. */
  function Truncate(x: real): (n: int)
    ensures x >= 0.0 ==> n as real <= x < n as real + 1.0
    ensures x < 0.0 ==> n as real - 1.0 < x <= n as real
  {
    if x >= 0.0 then x.Floor else -((-x).Floor)
  }

  /**
   * Below the base brightness the blue channel grows with the brightness from
   * 80 at BrightnessMin; from the base up the red channel grows from 0 and blue
   * is 0. The green value the source also computes in the upper regime is never
   * used, so it is not modelled.
   */
  function BrightnessToRgb(br: int): (c: Rgba)
    ensures c.g == 255 && c.a == 255
    ensures br < BrightnessBase ==> c.r == 255
    ensures br >= BrightnessBase ==> c.b == 0
  {
    if br < BrightnessBase then
      var factor := (br - BrightnessMin) as real / (BrightnessBase - BrightnessMin) as real;
      Rgba(255, 255, Truncate(80.0 + 20.0 * factor), 255)
    else
      var factor := (br - BrightnessBase) as real / (BrightnessMax - BrightnessBase) as real;
      Rgba(Truncate(0.0 + 100.0 * factor), 255, 0, 255)
  }

  /** The dim regime: for MIN <= br < BASE the colour is (255, 255, 80 + (br - MIN) / 10, 255). */
  lemma DimRegime(br: int)
    requires BrightnessMin <= br < BrightnessBase
    ensures BrightnessToRgb(br) == Rgba(255, 255, 80 + (br - BrightnessMin) / 10, 255)
    ensures 80 <= BrightnessToRgb(br).b <= 99
  {
    var k := br - BrightnessMin;
    var q, rem := k / 10, k % 10;
    var factor := k as real / 200.0;
    assert 80.0 + 20.0 * factor == (80 + q) as real + rem as real / 10.0;
  }

  /** The bright regime: for BASE <= br <= MAX the colour is ((br - BASE) / 2, 255, 0, 255). */
  lemma BrightRegime(br: int)
    requires BrightnessBase <= br <= BrightnessMax
    ensures BrightnessToRgb(br) == Rgba((br - BrightnessBase) / 2, 255, 0, 255)
    ensures 0 <= BrightnessToRgb(br).r <= 100
  {
    var k := br - BrightnessBase;
    var q, rem := k / 2, k % 2;
    var factor := k as real / 200.0;
    assert 0.0 + 100.0 * factor == q as real + rem as real / 2.0;
  }

  /** Every channel stays in 0..255 for every brightness the clamp can produce. */
  lemma ChannelsInRange(br: int)
    requires BrightnessMin <= br <= BrightnessMax
    ensures var c := BrightnessToRgb(br);
      0 <= c.r <= 255 && 0 <= c.g <= 255 && 0 <= c.b <= 255 && c.a == 255
  {
    if br < BrightnessBase {
      DimRegime(br);
    } else {
      BrightRegime(br);
    }
  }

  /**
   * Within each regime a brighter light never gets a weaker tint: blue does not
   * decrease below the base, red does not decrease from the base up.
   */
  lemma TintMonotone(br1: int, br2: int)
    requires BrightnessMin <= br1 <= br2 <= BrightnessMax
    ensures br2 < BrightnessBase ==> BrightnessToRgb(br1).b <= BrightnessToRgb(br2).b
    ensures BrightnessBase <= br1 ==> BrightnessToRgb(br1).r <= BrightnessToRgb(br2).r
  {
    if br2 < BrightnessBase {
      DimRegime(br1);
      DimRegime(br2);
    } else if BrightnessBase <= br1 {
      BrightRegime(br1);
      BrightRegime(br2);
    }
  }
}
