/** Pixel and length arithmetic: pixels to centimetres at a resolution in dots
    per inch, centimetres to pixels, and the per-axis output size, which never
    exceeds the source size. */
module Utility {
  import opened Wrappers
  import opened Decimals
  import opened Constants

  /** `ConvertPixelsToCms`: the length of `value` pixels at `resolution` dpi,
      rounded to two places with ties to even. The resolution divides, so it
      must not be zero. */
  function ConvertPixelsToCms(value: int, resolution: real): (r: real)
    requires resolution != 0.0
    ensures HasTwoDecimals(r)
    ensures var exact := value as real * CmsPerInch / resolution;
            && exact - 0.005 <= r <= exact + 0.005
            && ((r - exact == 0.005 || exact - r == 0.005) ==> (r * 100.0).Floor % 2 == 0)
  {
    RoundTo2(value as real * CmsPerInch / resolution)
  }

  /** `ConvertCmsToPixels` without the final conversion to a 32-bit integer:
      the nearest whole number of pixels to `value` centimetres at
      `resolution` dpi, ties to even. Only 2.54 divides here. */
  function ConvertCmsToPixels(value: real, resolution: real): (n: int)
    ensures var exact := value * resolution / CmsPerInch;
            && exact - 0.5 <= n as real <= exact + 0.5
            && (n as real - exact == 0.5 || exact - n as real == 0.5 ==> n % 2 == 0)
  {
    RoundToEven(value * resolution / CmsPerInch)
  }

  /** `CalculateDimension`: the source size when no target is given, otherwise
      the target in pixels, clamped to the source size. */
  function CalculateDimension(sourcePixels: int, resolution: real, outputCms: Option<real>): (r: int)
    ensures r <= sourcePixels
    ensures outputCms.None? ==> r == sourcePixels
    ensures outputCms.Some? && ConvertCmsToPixels(outputCms.value, resolution) <= sourcePixels ==>
              r == ConvertCmsToPixels(outputCms.value, resolution)
    ensures outputCms.Some? && ConvertCmsToPixels(outputCms.value, resolution) > sourcePixels ==>
              r == sourcePixels
  {
    if outputCms.Some? then
      var requested := ConvertCmsToPixels(outputCms.value, resolution);
      if sourcePixels < requested then sourcePixels else requested
    else
      sourcePixels
  }

  // ---------------------------------------------------------------------------
  // Properties

  /** At a positive resolution a longer target never gives fewer pixels. */
  lemma CmsToPixelsMonotone(a: real, b: real, resolution: real)
    requires resolution > 0.0 && a <= b
    ensures ConvertCmsToPixels(a, resolution) <= ConvertCmsToPixels(b, resolution)
  {
    assert a * resolution <= b * resolution;
    RoundToEvenMonotone(a * resolution / CmsPerInch, b * resolution / CmsPerInch);
  }

  /** At a positive resolution more pixels are never fewer centimetres. */
  lemma PixelsToCmsMonotone(a: int, b: int, resolution: real)
    requires resolution > 0.0 && a <= b
    ensures ConvertPixelsToCms(a, resolution) <= ConvertPixelsToCms(b, resolution)
  {
    DivideOrder(a as real * CmsPerInch, b as real * CmsPerInch, resolution);
    RoundTo2Monotone(a as real * CmsPerInch / resolution, b as real * CmsPerInch / resolution);
  }

  /** A non-negative length at a non-negative resolution is a non-negative
      number of pixels. */
  lemma CmsToPixelsNonNegative(value: real, resolution: real)
    requires value >= 0.0 && resolution >= 0.0
    ensures ConvertCmsToPixels(value, resolution) >= 0
  {
    assert value * resolution >= 0.0;
  }

  /** A larger target never gives a smaller output. */
  lemma CalculateDimensionMonotone(sourcePixels: int, resolution: real, a: real, b: real)
    requires resolution > 0.0 && a <= b
    ensures CalculateDimension(sourcePixels, resolution, Some(a)) <= CalculateDimension(sourcePixels, resolution, Some(b))
  {
    CmsToPixelsMonotone(a, b, resolution);
  }

  /** Converting a length to pixels and back loses at most half a pixel's
      width (1.27 cm over the resolution) plus the final rounding to two
      places. */
  lemma {:induction false} CmsPixelsRoundTrip(value: real, resolution: real)
    requires resolution > 0.0
    ensures var back := ConvertPixelsToCms(ConvertCmsToPixels(value, resolution), resolution);
            value - 1.27 / resolution - 0.005 <= back <= value + 1.27 / resolution + 0.005
  {
    var exact := value * resolution / CmsPerInch;
    var n := ConvertCmsToPixels(value, resolution);
    var back := n as real * CmsPerInch / resolution;
    assert exact * CmsPerInch / resolution == value;
    assert back - value == (n as real - exact) * CmsPerInch / resolution;
    assert -0.5 <= n as real - exact <= 0.5;
    assert (n as real - exact) * CmsPerInch <= 1.27 by {
      assert (n as real - exact) * CmsPerInch <= 0.5 * CmsPerInch;
    }
    assert (n as real - exact) * CmsPerInch >= -1.27 by {
      assert (n as real - exact) * CmsPerInch >= -0.5 * CmsPerInch;
    }
    DivideBounds((n as real - exact) * CmsPerInch, 1.27, resolution);
  }

  /** Converting a pixel count to centimetres and back returns it to within
      one pixel at up to 254 dpi: the rounding to two places moves the length
      by at most 0.005 cm, which is at most half a pixel there, and the
      rounding to whole pixels adds at most another half. */
  lemma {:induction false} PixelsCmsRoundTrip(pixels: int, resolution: real)
    requires 0.0 < resolution <= 254.0
    ensures var back := ConvertCmsToPixels(ConvertPixelsToCms(pixels, resolution), resolution);
            pixels - 1 <= back <= pixels + 1
  {
    var exact := pixels as real * CmsPerInch / resolution;
    var cms := ConvertPixelsToCms(pixels, resolution);
    var error := cms - exact;
    assert -0.005 <= error <= 0.005;
    assert exact * resolution / CmsPerInch == pixels as real;
    assert cms * resolution / CmsPerInch - pixels as real == error * resolution / CmsPerInch;
    ScaledErrorBound(error, resolution);
    DivideBounds(error * resolution, 1.27, CmsPerInch);
    assert 1.27 / CmsPerInch == 0.5;
    var x := cms * resolution / CmsPerInch;
    assert -0.5 <= x - pixels as real <= 0.5;
    var back := ConvertCmsToPixels(cms, resolution);
    assert x - 0.5 <= back as real <= x + 0.5;
  }

  lemma ScaledErrorBound(error: real, resolution: real)
    requires -0.005 <= error <= 0.005 && 0.0 < resolution <= 254.0
    ensures -1.27 <= error * resolution <= 1.27
  {
    if error >= 0.0 {
      assert error * resolution <= 0.005 * resolution;
    } else {
      assert error * resolution >= -0.005 * resolution;
    }
  }

  lemma DivideOrder(x: real, y: real, d: real)
    requires d > 0.0 && x <= y
    ensures x / d <= y / d
  {
    assert y / d - x / d == (y - x) / d;
  }

  lemma DivideBounds(x: real, bound: real, d: real)
    requires d > 0.0 && -bound <= x <= bound
    ensures -(bound / d) <= x / d <= bound / d
  {
  }

  /** Two centimetres at 300 dpi are 236 pixels (236.22 rounded). */
  lemma TwoCentimetresAt300Dpi()
    ensures ConvertCmsToPixels(2.0, 300.0) == 236
  {
    RoundToEvenIsUnique(2.0 * 300.0 / CmsPerInch, 236);
  }

  // ---------------------------------------------------------------------------
  // The 32-bit conversion as written

  /** `(int)` of a rounded decimal: values outside the 32-bit range throw. */
  function ToInt32(n: int): (r: Result<int, string>)
    ensures r.Success? <==> Int32MinValue <= n <= Int32MaxValue
    ensures r.Success? ==> r.value == n
    ensures r.Failure? ==> r.error == Int32OverflowMessage
  {
    if Int32MinValue <= n <= Int32MaxValue then Success(n) else Failure(Int32OverflowMessage)
  }

  /** `CalculateDimension` as written: the target's pixel count is cast to a
      32-bit integer before it is clamped, so a target too large for the cast
      throws instead of giving the source size. Before that, the `decimal`
      product of the target and the resolution throws when it leaves the
      `decimal` range; the division by 2.54 only shrinks it. */
  function CalculateDimensionAsWritten(sourcePixels: int, resolution: real, outputCms: Option<real>)
    : (r: Result<int, string>)
    ensures outputCms.None? ==> r == Success(sourcePixels)
    ensures r.Failure? ==> outputCms.Some?
    ensures outputCms.Some? && !InDecimalRange(outputCms.value * resolution) ==>
              r == Failure(DecimalOverflowMessage)
    ensures outputCms.Some? && InDecimalRange(outputCms.value * resolution) ==>
              && (r.Failure? <==> ToInt32(ConvertCmsToPixels(outputCms.value, resolution)).Failure?)
              && (r.Failure? ==> r.error == Int32OverflowMessage)
  {
    if outputCms.Some? then
      if !InDecimalRange(outputCms.value * resolution) then
        Failure(DecimalOverflowMessage)
      else
        match ToInt32(ConvertCmsToPixels(outputCms.value, resolution))
        case Failure(e) => Failure(e)
        case Success(requested) => Success(if sourcePixels < requested then sourcePixels else requested)
    else
      Success(sourcePixels)
  }

  /** A `decimal` product stays inside the range of the type. */
  predicate InDecimalRange(x: real) {
    -DecimalMaxValue <= x <= DecimalMaxValue
  }

  /** Whenever the cast does not throw, the code as written and the clamped
      definition agree. */
  lemma AsWrittenAgreesWithoutOverflow(sourcePixels: int, resolution: real, outputCms: Option<real>)
    requires outputCms.Some? ==> ConvertCmsToPixels(outputCms.value, resolution) <= Int32MaxValue
    requires outputCms.Some? ==> ConvertCmsToPixels(outputCms.value, resolution) >= Int32MinValue
    ensures CalculateDimensionAsWritten(sourcePixels, resolution, outputCms)
              == Success(CalculateDimension(sourcePixels, resolution, outputCms))
  {
    if outputCms.Some? {
      var product := outputCms.value * resolution;
      var n := ConvertCmsToPixels(outputCms.value, resolution);
      assert product / CmsPerInch - 0.5 <= n as real <= product / CmsPerInch + 0.5;
      assert -2147483649.0 <= product / CmsPerInch <= 2147483648.0;
      assert InDecimalRange(product);
    }
  }

  /** A width of 1,000,000,000 cm for a 1000-pixel image at 100 dpi: the code
      as written throws, where the clamp gives the source's 1000 pixels. */
  lemma HugeTargetOverflows()
    ensures CalculateDimensionAsWritten(1000, 100.0, Some(1000000000.0)) == Failure(Int32OverflowMessage)
    ensures CalculateDimension(1000, 100.0, Some(1000000000.0)) == 1000
  {
    assert InDecimalRange(1000000000.0 * 100.0);
    var n := ConvertCmsToPixels(1000000000.0, 100.0);
    assert n as real >= 1000000000.0 * 100.0 / CmsPerInch - 0.5;
  }

  /** A width of 10^27 cm, which parsing accepts, at 100 dpi: the `decimal`
      product throws before the cast is reached. */
  lemma HugeProductOverflowsDecimal()
    ensures 1000000000000000000000000000.0 <= DecimalMaxValue
    ensures CalculateDimensionAsWritten(1000, 100.0, Some(1000000000000000000000000000.0))
              == Failure(DecimalOverflowMessage)
  {
    assert !InDecimalRange(1000000000000000000000000000.0 * 100.0);
  }
}
