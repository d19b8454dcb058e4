/**
 * Screen geometry of MandelbrotView: the mapping from a pixel to a point of the
 * complex plane, and the size of the bitmap that backs the view.
 */
module Geometry {
  import opened EscapeTime

  /** A point in the view's own coordinates (CGPoint). */
  datatype Point = Point(x: real, y: real)

  /** Pixels per unit of the complex plane at zoom 1. */
  const PixelsPerUnit: real := 160.0

  /**
   * The pixel (i, j) as a point of the plane, for a given centre and zoom:
   * (i - 1.33 * centre.x) / 160 / zoom and (j - 1.00 * centre.y) / 160 / zoom.
   * The contract states the mapping by its inverse: scaling the point back by
   * 160 * zoom and shifting it by the weighted centre gives the pixel again.
   */
  function PixelToPlane(i: int, j: int, center: Point, zoom: real): (c: Complex)
    requires zoom != 0.0
    ensures c.re * zoom * PixelsPerUnit + 1.33 * center.x == i as real
    ensures c.im * zoom * PixelsPerUnit + 1.00 * center.y == j as real
  {
    var re := (i as real - 1.33 * center.x) / PixelsPerUnit;
    var im := (j as real - 1.00 * center.y) / PixelsPerUnit;
    Complex(re / zoom, im / zoom)
  }

  /** Distinct pixels are distinct points of the plane, whatever the centre and the zoom. */
  lemma PixelToPlaneInjective(i1: int, j1: int, i2: int, j2: int, center: Point, zoom: real)
    requires zoom != 0.0
    requires PixelToPlane(i1, j1, center, zoom) == PixelToPlane(i2, j2, center, zoom)
    ensures i1 == i2 && j1 == j2
  {
    var c1 := PixelToPlane(i1, j1, center, zoom);
    var c2 := PixelToPlane(i2, j2, center, zoom);
    assert i1 as real == c1.re * zoom * PixelsPerUnit + 1.33 * center.x;
    assert i2 as real == c2.re * zoom * PixelsPerUnit + 1.33 * center.x;
  }

  /** Multiplying the zoom by k > 0 scales every mapped point by 1/k towards the origin. */
  lemma ZoomScalesPlane(i: int, j: int, center: Point, zoom: real, k: real)
    requires zoom != 0.0 && k > 0.0
    ensures PixelToPlane(i, j, center, zoom * k).re * k == PixelToPlane(i, j, center, zoom).re
    ensures PixelToPlane(i, j, center, zoom * k).im * k == PixelToPlane(i, j, center, zoom).im
  {
    var a := PixelToPlane(i, j, center, zoom);
    var b := PixelToPlane(i, j, center, zoom * k);
    assert b.re * (zoom * k) * PixelsPerUnit == a.re * zoom * PixelsPerUnit;
    assert b.im * (zoom * k) * PixelsPerUnit == a.im * zoom * PixelsPerUnit;
  }

  /**
   * The view's intended window at zoom 1 is real in [-2, 1], imaginary in
   * [-1, 1]. For a 480 x 320 frame centred on its middle (240, 160) the corner
   * pixels map to (-1.995, -1) and (1.005, 1): the window is met only
   * approximately, because the weight 1.33 is not 4/3, and only for a frame of
   * that shape.
   */
  lemma DefaultViewCorners()
    ensures PixelToPlane(0, 0, Point(240.0, 160.0), 1.0) == Complex(-1.995, -1.0)
    ensures PixelToPlane(480, 320, Point(240.0, 160.0), 1.0) == Complex(1.005, 1.0)
  {
  }

  /**
   * The row stride of the bitmap: width * 4 bytes (RGBA, 8 bits each) rounded
   * up to the next multiple of 16.
   */
  function BytesPerRow(width: nat): (r: nat)
    ensures r % 16 == 0
    ensures width * 4 <= r < width * 4 + 16
  {
    var bytes := width * 4;
    bytes + (16 - bytes % 16) % 16
  }

  /** The stride is the LEAST multiple of 16 that holds a row. */
  lemma BytesPerRowIsLeast(width: nat, m: nat)
    requires m % 16 == 0 && width * 4 <= m
    ensures BytesPerRow(width) <= m
  {
  }

  /** A width that is a multiple of 4 needs no padding. */
  lemma NoPaddingForAlignedWidth(width: nat)
    requires width % 4 == 0
    ensures BytesPerRow(width) == width * 4
  {
    BytesPerRowIsLeast(width, width * 4);
  }

  /** The layout computed for the bitmap context of a view of the given size. */
  datatype BitmapLayout = BitmapLayout(width: nat, height: nat, bytesPerRow: nat, byteCount: nat)

  /**
   * createCustomBitmapContextWithSize: the stride and the total byte count
   * (stride * height); the context itself is created by CoreGraphics.
   */
  function CreateBitmapLayout(width: nat, height: nat): (r: BitmapLayout)
    ensures r.width == width && r.height == height
    ensures r.bytesPerRow % 16 == 0 && width * 4 <= r.bytesPerRow < width * 4 + 16
    ensures r.byteCount == r.bytesPerRow * height && r.byteCount % 16 == 0
    ensures width * 4 * height <= r.byteCount
    ensures height > 0 ==> r.byteCount < (width * 4 + 16) * height
  {
    var stride := BytesPerRow(width);
    ScaleRowBounds(width * 4, stride, height);
    BitmapLayout(width, height, stride, stride * height)
  }

  /** Arithmetic behind CreateBitmapLayout: the bounds and the alignment of one row carry over to height rows. */
  lemma ScaleRowBounds(rowBytes: nat, stride: nat, height: nat)
    requires stride % 16 == 0 && rowBytes <= stride < rowBytes + 16
    ensures (stride * height) % 16 == 0
    ensures rowBytes * height <= stride * height
    ensures height > 0 ==> stride * height < (rowBytes + 16) * height
  {
    MultipleOf16Scales(stride / 16, height);
    MulMonotone(rowBytes, stride, height);
    if height > 0 {
      MulStrictlyMonotone(stride, rowBytes + 16, height);
    }
  }

  lemma MultipleOf16Scales(k: nat, height: nat)
    ensures (16 * k * height) % 16 == 0
  {
    assert 16 * k * height == 16 * (k * height);
  }

  lemma MulMonotone(a: nat, b: nat, h: nat)
    requires a <= b
    ensures a * h <= b * h
  {
    assert b * h == a * h + (b - a) * h;
  }

  lemma MulStrictlyMonotone(a: nat, b: nat, h: nat)
    requires a < b && h > 0
    ensures a * h < b * h
  {
    assert b * h == a * h + (b - a) * h;
    MulMonotone(1, b - a, h);
  }
}
