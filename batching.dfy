/** The ray-batch arithmetic of the renderer. One ray buffer holds
    `DispatchGroupSize * DispatchGroupCount` rays; every light casts one
    ray per pixel, so a batch covers `RayCapacity / lightCount` pixels and
    enough batches must be dispatched to cover every pixel of the result
    texture. */
module Batching {
  import opened Common

  const DispatchGroupSize: nat := 64
  const DispatchGroupCount: nat := 65535

  /** Capacity of the single ray buffer: 4194240 rays. */
  const RayCapacity: nat := DispatchGroupSize * DispatchGroupCount

  /** `_rayCountMax`: width * height * lightCount as a C# `int`. */
  function RayCountMax(width: nat, height: nat, lightCount: nat): (r: int)
    ensures InInt32(r)
    ensures InInt32(width * height * lightCount) ==> r == width * height * lightCount
  {
    Wrap32(width * height * lightCount)
  }

  /** `_pixelsPerBatch`: as many pixels as fit in the ray buffer when each
      casts one ray per light. With no light the value is never used (the
      frame is skipped), and it is 0 here. */
  function PixelsPerBatch(lightCount: nat): (ppb: nat)
    ensures lightCount > 0 ==> ppb * lightCount <= RayCapacity < (ppb + 1) * lightCount
    ensures lightCount == 0 ==> ppb == 0
  {
    if lightCount == 0 then 0 else RayCapacity / lightCount
  }

  /** `_rayBatchCount` as the renderer computes it: the number of full ray
      buffers needed for every ray, ignoring how many pixels a batch
      actually covers. */
  function BatchCountAsWritten(rayCountMax: int): (n: int)
    ensures n * RayCapacity >= rayCountMax
    ensures (n - 1) * RayCapacity < rayCountMax
  {
    CeilDiv(rayCountMax, RayCapacity)
  }

  /** The batch count the coverage check asks for: enough batches of
      `pixelsPerBatch` pixels to reach every pixel. */
  function BatchCount(pixels: nat, pixelsPerBatch: nat): (n: nat)
    ensures pixelsPerBatch > 0 ==> n * pixelsPerBatch >= pixels
    ensures pixelsPerBatch > 0 && n > 0 ==> (n - 1) * pixelsPerBatch < pixels
  {
    if pixelsPerBatch == 0 then 0 else CeilDiv(pixels, pixelsPerBatch)
  }

  /** A batch never dispatches more than the 65535 thread groups of 64
      that the initialisation kernel may receive. */
  lemma InitializeGroupsFit(lightCount: nat)
    requires lightCount > 0
    ensures 0 <= CeilDiv(PixelsPerBatch(lightCount), DispatchGroupSize) <= DispatchGroupCount
  {
    var ppb := PixelsPerBatch(lightCount);
    ScaleUpLeft(1, lightCount, ppb);
    var q := CeilDiv(ppb, DispatchGroupSize);
    ScaleBackStrict(q - 1, DispatchGroupCount, DispatchGroupSize);
    ScaleBack(q, 0, DispatchGroupSize);
  }

  /** The batch count as written can leave pixels uncovered: a 4080 x 1028
      texture lit by seven lights has exactly one ray buffer of pixels, and
      seven batches of 599177 pixels fall one pixel short. */
  lemma CoverageCounterexample()
    ensures var pixels := 4080 * 1028;
            var ppb := PixelsPerBatch(7);
            var n := BatchCountAsWritten(RayCountMax(4080, 1028, 7));
            ppb == 599177 && n == 7 && n * ppb == pixels - 1
  {
    assert 4080 * 1028 * 7 == 7 * RayCapacity;
    assert CeilDiv(7 * RayCapacity, RayCapacity) == 7;
  }

  /** With the corrected count every pixel is in some batch and the last
      batch is needed. */
  lemma BatchesCoverPixels(width: nat, height: nat, lightCount: nat)
    requires lightCount > 0 && lightCount <= RayCapacity
    ensures var ppb := PixelsPerBatch(lightCount);
            var n := BatchCount(width * height, ppb);
            ppb > 0 && n * ppb >= width * height && (n > 0 ==> (n - 1) * ppb < width * height)
  {
    var ppb := PixelsPerBatch(lightCount);
    assert ppb > 0 by {
      assert (ppb + 1) * lightCount > RayCapacity >= lightCount;
    }
  }

  /** When the light count divides the ray capacity, and the ray count fits
      in an `int`, the count as written equals the corrected one. */
  lemma BatchCountsAgreeWhenDivisible(width: nat, height: nat, lightCount: nat)
    requires lightCount > 0 && RayCapacity % lightCount == 0
    requires InInt32(width * height * lightCount)
    ensures BatchCountAsWritten(RayCountMax(width, height, lightCount))
            == BatchCount(width * height, PixelsPerBatch(lightCount))
  {
    var pixels := width * height;
    var ppb := PixelsPerBatch(lightCount);
    assert ppb * lightCount == RayCapacity;
    assert ppb > 0;
    assert RayCountMax(width, height, lightCount) == pixels * lightCount;
    var a := BatchCountAsWritten(pixels * lightCount);
    // a is the least n with n * RayCapacity >= rays; dividing out the
    // light count makes it the least n with n * ppb >= pixels.
    Assoc(a, ppb, lightCount);
    Assoc(a - 1, ppb, lightCount);
    ScaleBack(a * ppb, pixels, lightCount);
    ScaleBackStrict((a - 1) * ppb, pixels, lightCount);
    Least(a, BatchCount(pixels, ppb), ppb, pixels);
  }

  lemma Assoc(a: int, b: int, c: int)
    ensures a * (b * c) == (a * b) * c
  {}

  /** Multiplying both sides by a positive factor keeps the order. */
  lemma ScaleBack(x: int, y: int, k: nat)
    requires k > 0 && x * k >= y * k
    ensures x >= y
  {
    assert (x - y) * k == x * k - y * k;
  }

  lemma ScaleBackStrict(x: int, y: int, k: nat)
    requires k > 0 && x * k < y * k
    ensures x < y
  {
    assert (x - y) * k == x * k - y * k;
  }

  lemma ScaleUp(x: int, y: int, k: nat)
    requires x <= y
    ensures x * k <= y * k
  {
    assert (y - x) * k == y * k - x * k;
  }

  /** Two least multiples of `d` that reach `p` coincide. */
  lemma Least(a: int, c: int, d: nat, p: int)
    requires d > 0
    requires a * d >= p && (a - 1) * d < p
    requires c * d >= p && (c - 1) * d < p
    ensures a == c
  {
    LeastBelow(a, c, d, p);
    LeastBelow(c, a, d, p);
  }

  /** The count as written is never more than the corrected one: the
      renderer only ever dispatches too few batches, never too many. */
  lemma AsWrittenNeverExceeds(width: nat, height: nat, lightCount: nat)
    requires lightCount > 0 && lightCount <= RayCapacity
    requires InInt32(width * height * lightCount)
    ensures BatchCountAsWritten(RayCountMax(width, height, lightCount))
            <= BatchCount(width * height, PixelsPerBatch(lightCount))
  {
    var pixels := width * height;
    var ppb := PixelsPerBatch(lightCount);
    BatchesCoverPixels(width, height, lightCount);
    var c := BatchCount(pixels, ppb);
    assert RayCountMax(width, height, lightCount) == pixels * lightCount;
    var a := BatchCountAsWritten(pixels * lightCount);
    // c batches of ppb pixels cast c * ppb * lightCount <= c * RayCapacity rays.
    ScaleUp(pixels, c * ppb, lightCount);
    Assoc(c, ppb, lightCount);
    ScaleUpLeft(ppb * lightCount, RayCapacity, c);
    // so c full ray buffers reach every ray, and a is the least such count
    LeastBelow(a, c, RayCapacity, pixels * lightCount);
  }

  lemma ScaleUpLeft(x: int, y: int, k: nat)
    requires x <= y
    ensures k * x <= k * y
  {
    assert k * y - k * x == k * (y - x);
  }

  /** The least multiple of `d` reaching `p` is at most any other one. */
  lemma LeastBelow(a: int, c: int, d: nat, p: int)
    requires d > 0
    requires (a - 1) * d < p && c * d >= p
    ensures a <= c
  {
    ScaleBackStrict(a - 1, c, d);
  }

  /** Batch `b` covers the pixels `b * ppb .. (b + 1) * ppb - 1`: with the
      corrected count every pixel of the texture lies in one dispatched
      batch, the one numbered `p / ppb`. */
  lemma PixelInBatch(pixels: nat, ppb: nat, p: nat)
    requires ppb > 0 && p < pixels
    ensures p / ppb < BatchCount(pixels, ppb)
    ensures (p / ppb) * ppb <= p < (p / ppb + 1) * ppb
  {
    var b := p / ppb;
    var n := BatchCount(pixels, ppb);
    assert b * ppb + p % ppb == p;
    if n <= b {
      ScaleUp(n, b, ppb);
      assert false;
    }
  }
}
