/** Colours and palettes of the name tag: unpacking 0xRRGGBB numbers, the
    brightness limiter that keeps every colour inside the 8-bit range all the
    way up the colour-cycle ramp, the per-step channel level written to the
    pixel, and the four palettes the controller publishes. */
module Palettes {
  import opened Machines

  /** COLOR_CYCLE_STEP_MAX: the top of the brightness ramp. */
  const StepMax: int := 44
  /** COLOR_CYCLE_STEP_DIV: the divisor applied to channel * step. */
  const StepDiv: int := 4
  /** The limiter's max_multiplier: STEP_MAX / STEP_DIV with true division, 44 / 4. */
  const MaxMultiplier: real := 11.0

  /** An integer colour triple, as unpacked from a number or written to a pixel. */
  datatype Rgb = Rgb(r: int, g: int, b: int)

  /** A palette colour. The limiter may rescale a colour by a fractional
      factor, so palette channels are reals. */
  datatype Color = Color(r: real, g: real, b: real)

  predicate InByteRange(c: Rgb) {
    0 <= c.r <= 255 && 0 <= c.g <= 255 && 0 <= c.b <= 255
  }

  /** Packs a triple back into a 0xRRGGBB number. */
  function NumberColor(c: Rgb): int {
    c.r * 0x1_0000 + c.g * 0x100 + c.b
  }

  /** The three low bytes of h, repacked, are h modulo 2^24. */
  lemma LowBytes(h: int)
    ensures ((h / 0x1_0000) % 0x100) * 0x1_0000 + ((h / 0x100) % 0x100) * 0x100 + h % 0x100 == h % 0x100_0000
  {
    var q, b := h / 0x100, h % 0x100;
    assert h == 0x100 * q + b;
    var q2, g := q / 0x100, q % 0x100;
    assert h == 0x1_0000 * q2 + 0x100 * g + b;
    assert h / 0x1_0000 == q2;
    var q3, r := q2 / 0x100, q2 % 0x100;
    assert h == 0x100_0000 * q3 + (0x1_0000 * r + 0x100 * g + b);
    assert h % 0x100_0000 == 0x1_0000 * r + 0x100 * g + b;
  }

  /** number_color_to_tuple: (h >> 16 & 0xFF, h >> 8 & 0xFF, h & 0xFF). Python's
      `>>` floors and `& 0xFF` keeps the low byte, even for negative numbers,
      which is what Euclidean `/` and `%` by a positive divisor do. */
  function NumberColorToTuple(h: int): (c: Rgb)
    ensures InByteRange(c)
    ensures NumberColor(c) == h % 0x100_0000
  {
    LowBytes(h);
    Rgb((h / 0x1_0000) % 0x100, (h / 0x100) % 0x100, h % 0x100)
  }

  /** Unpacking is the inverse of packing on byte triples. */
  lemma NumberColorRoundTrip(c: Rgb)
    requires InByteRange(c)
    ensures NumberColorToTuple(NumberColor(c)) == c
  {
    var h := NumberColor(c);
    assert h % 0x100 == c.b;
    assert h / 0x100 == c.r * 0x100 + c.g;
    assert h / 0x1_0000 == c.r;
  }

  /** number_palet_to_tuple: unpacks every number of a palette, in order. */
  function NumberPaletToTuple(hs: seq<int>): (p: seq<Rgb>)
    ensures |p| == |hs|
    ensures forall i :: 0 <= i < |hs| ==> p[i] == NumberColorToTuple(hs[i])
  {
    if hs == [] then [] else [NumberColorToTuple(hs[0])] + NumberPaletToTuple(hs[1..])
  }

  /** Python passes the unpacked integer triples on as numbers. */
  function AsColor(c: Rgb): Color {
    Color(c.r as real, c.g as real, c.b as real)
  }

  function AsColors(p: seq<Rgb>): seq<Color> {
    seq(|p|, i requires 0 <= i < |p| => AsColor(p[i]))
  }

  function Max(x: real, y: real): real {
    if x >= y then x else y
  }

  /** max(color) */
  function MaxComponent(c: Color): real {
    Max(Max(c.r, c.g), c.b)
  }

  predicate NonNegative(c: Color) {
    0.0 <= c.r && 0.0 <= c.g && 0.0 <= c.b
  }

  /** The limiter's test: the brightest channel times STEP_MAX / STEP_DIV stays below 256. */
  predicate Limited(c: Color) {
    MaxComponent(c) * MaxMultiplier < 256.0
  }

  /** A colour whose every ramp level fits a byte. */
  predicate Safe(c: Color) {
    NonNegative(c) && Limited(c)
  }

  /** Every channel multiplied by the same factor. */
  function Times(c: Color, k: real): Color {
    Color(c.r * k, c.g * k, c.b * k)
  }

  lemma MulMonotone(x: real, y: real, k: real)
    requires 0.0 < k
    ensures x >= y <==> x * k >= y * k
  {
    if x >= y {
      assert x * k - y * k == (x - y) * k;
    } else {
      assert y * k - x * k == (y - x) * k;
    }
  }

  lemma MaxComponentTimes(c: Color, k: real)
    requires 0.0 < k
    ensures MaxComponent(Times(c, k)) == MaxComponent(c) * k
  {
    MulMonotone(c.r, c.g, k);
    MulMonotone(Max(c.r, c.g), c.b, k);
  }

  /** The factor 255 / (top * 11) of a colour that fails the test. */
  lemma ScaleFactor(top: real, k: real)
    requires 256.0 <= top * MaxMultiplier && k == 255.0 / (top * MaxMultiplier)
    ensures 0.0 < k < 1.0 && k * top * MaxMultiplier == 255.0
  {
  }

  lemma TimesNonNegative(c: Color, k: real)
    requires NonNegative(c) && 0.0 < k
    ensures NonNegative(Times(c, k))
  {
  }

  /** The rescaling branch of the limiter: the factor is positive and below 1,
      and brings the brightest channel times 11 to exactly 255. */
  lemma Rescale(c: Color, k: real)
    requires !Limited(c)
    requires k == 255.0 / (MaxComponent(c) * MaxMultiplier)
    ensures 0.0 < k < 1.0
    ensures MaxComponent(Times(c, k)) * MaxMultiplier == 255.0
    ensures NonNegative(c) ==> NonNegative(Times(c, k))
    ensures k * MaxComponent(c) * MaxMultiplier < 256.0
    ensures Limited(Times(c, k)) && Times(c, k) != c
  {
    ScaleFactor(MaxComponent(c), k);
    MaxComponentTimes(c, k);
    if NonNegative(c) {
      TimesNonNegative(c, k);
    }
  }

  /** color_cycle_color_limiter: a colour that passes the ramp test is returned
      as it is; any other is scaled by 255 / (max * 11). Floating-point
      rounding of the scale factor is idealised as exact real arithmetic. */
  function ColorLimiter(c: Color): (r: Color)
    ensures Limited(r)
    ensures r == c <==> Limited(c)
  {
    var maxComponent := MaxComponent(c);
    if maxComponent * MaxMultiplier < 256.0 then c
    else
      var scaleFactor := 255.0 / (maxComponent * MaxMultiplier);
      Rescale(c, scaleFactor);
      Times(c, scaleFactor)
  }

  /** The limiter always returns a colour that passes the ramp test; it
      returns its argument exactly when that already passes; otherwise it
      scales all three channels by one factor in (0, 1) that brings the
      brightest channel times 11 to 255 (which is what Python's assert at
      code.py:17 checks), so the channels keep their ratios and their signs. */
  lemma ColorLimiterSpec(c: Color)
    ensures Limited(ColorLimiter(c))
    ensures ColorLimiter(c) == c <==> Limited(c)
    ensures !Limited(c) ==> MaxComponent(ColorLimiter(c)) * MaxMultiplier == 255.0
    ensures exists k: real {:trigger Times(c, k)} :: 0.0 < k <= 1.0 && ColorLimiter(c) == Times(c, k)
    ensures NonNegative(c) ==> NonNegative(ColorLimiter(c))
  {
    if Limited(c) {
      assert c == Times(c, 1.0);
    } else {
      var k := 255.0 / (MaxComponent(c) * MaxMultiplier);
      Rescale(c, k);
      assert ColorLimiter(c) == Times(c, k);
    }
  }

  /** color_cycle_pallet_limiter: limits every colour of a palette, in order. */
  function PalletLimiter(p: seq<Color>): (r: seq<Color>)
    ensures |r| == |p|
    ensures forall i :: 0 <= i < |p| ==> r[i] == ColorLimiter(p[i])
    ensures forall i :: 0 <= i < |p| ==> Limited(r[i])
    ensures forall i :: 0 <= i < |p| && NonNegative(p[i]) ==> NonNegative(r[i])
  {
    if p == [] then []
    else
      ColorLimiterSpec(p[0]);
      [ColorLimiter(p[0])] + PalletLimiter(p[1..])
  }

  /** Python's int() on a float: truncation toward zero. */
  function Trunc(x: real): (n: int)
    ensures 0.0 <= x ==> n as real <= x < n as real + 1.0
    ensures x < 0.0 ==> n as real - 1.0 < x <= n as real
  {
    if x >= 0.0 then x.Floor else -((-x).Floor)
  }

  /** One channel as load_pixel writes it: int(x * step / COLOR_CYCLE_STEP_DIV). */
  function Level(x: real, step: int): int {
    Trunc(x * step as real / StepDiv as real)
  }

  function ScaledColor(c: Color, step: int): Rgb {
    Rgb(Level(c.r, step), Level(c.g, step), Level(c.b, step))
  }

  /** A channel that passed the limiter's test stays within a byte at every
      step of the ramp. */
  lemma LevelInByteRange(x: real, step: int)
    requires 0.0 <= x && x * MaxMultiplier < 256.0
    requires 0 <= step <= StepMax
    ensures 0 <= Level(x, step) <= 255
  {
    var y := x * step as real / StepDiv as real;
    assert 0.0 <= x * step as real;
    assert y == x * (step as real / 4.0);
    assert (StepMax as real - step as real) * x >= 0.0;
    assert y <= x * MaxMultiplier;
  }

  /** The ramp is monotone: a higher step never gives a dimmer channel. */
  lemma LevelMonotone(x: real, s: int, t: int)
    requires 0.0 <= x && 0 <= s <= t
    ensures 0 <= Level(x, s) <= Level(x, t)
  {
    var d := t as real - s as real;
    assert 0.0 <= x * d;
    assert x * t as real == x * s as real + x * d;
    assert 0.0 <= x * s as real;
  }

  lemma ScaledColorInByteRange(c: Color, step: int)
    requires Safe(c)
    requires 0 <= step <= StepMax
    ensures InByteRange(ScaledColor(c, step))
  {
    LevelInByteRange(c.r, step);
    LevelInByteRange(c.g, step);
    LevelInByteRange(c.b, step);
  }

  const UkraineYellow: Color := Color(255.0, 0xD5 as real, 0.0)
  const Sapphire: Color := Color(0.0, 0x5B as real, 0xBB as real)

  /** The identity of the palette objects the controller publishes: each theme
      publishes one module-level tuple, and ColorCycle compares them with `is`. */
  datatype Pallet = XmassPallet | HanukkahPallet | PridePallet | UkrainePallet

  /** The colours held by each published palette, each passed through the
      limiter, so every one of them passes the ramp test. */
  function PalletColors(p: Pallet): (r: seq<Color>)
    ensures forall i :: 0 <= i < |r| ==> Limited(r[i])
  {
    match p
    case UkrainePallet => PalletLimiter([UkraineYellow, Sapphire])
    case XmassPallet => PalletLimiter([Color(42.0, 255.0, 0.0), Color(255.0, 0.0, 0.0)])
    case HanukkahPallet => PalletLimiter([Color(0.0, 0.0, 255.0), Color(64.0, 64.0, 64.0)])
    case PridePallet =>
      PalletLimiter(AsColors(NumberPaletToTuple([0xE40303, 0xFF4000, 0xFFED00, 0x008026, 0x24408E, 0x732982])))
  }

  /** Python truthiness of `controller.colors()`: not None and not empty. */
  predicate Truthy(p: Option<Pallet>) {
    p.Some? && |PalletColors(p.value)| > 0
  }

  /** Every shipped palette is non-empty and every colour in it stays within a
      byte at every ramp step. */
  lemma ShippedPalletsSafe(p: Pallet)
    ensures |PalletColors(p)| > 0
    ensures forall i :: 0 <= i < |PalletColors(p)| ==> Safe(PalletColors(p)[i])
  {
  }

  /** Every published palette is truthy. */
  lemma PublishedIsTruthy(p: Pallet)
    ensures Truthy(Some(p))
  {
  }
}
