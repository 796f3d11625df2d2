/**
 * Rectangles in display space and the mapping of a rectangle into the
 * natural pixel space of the loaded image (App.tsx).
 */
module Geometry {

  /** A drag must exceed this many display pixels in each direction to commit. */
  const MinDragSize: int := 10

  /** A selection in display pixels, relative to the rendered image's corner. */
  datatype Rect = Rect(left: int, top: int, width: int, height: int)

  /** The source rectangle handed to the crop, in natural image pixels. */
  datatype CropRegion = CropRegion(x: real, y: real, width: real, height: real)

  /** The box of the rendered <img> element, as read by `updateSize`. */
  datatype ImageElement = ImageElement(
    clientHeight: int, clientWidth: int,
    naturalHeight: int, naturalWidth: int,
    offsetLeft: int, offsetTop: int)

  /** Scale from rendered to natural pixels: `natural / rendered`. */
  function Ratio(natural: int, rendered: int): (r: real)
    requires rendered > 0
    ensures r * rendered as real == natural as real
    ensures natural >= 0 ==> r >= 0.0
    ensures natural == rendered ==> r == 1.0
  {
    natural as real / rendered as real
  }

  /**
   * The crop object built for one rectangle from the current ratios. The
   * crop's far edges are the rectangle's far edges scaled by the ratios, and
   * unit ratios leave the rectangle as it is.
   */
  function Crop(rect: Rect, widthRatio: real, heightRatio: real): (c: CropRegion)
    ensures c.x + c.width == widthRatio * (rect.left + rect.width) as real
    ensures c.y + c.height == heightRatio * (rect.top + rect.height) as real
    ensures widthRatio == 1.0 && heightRatio == 1.0 ==>
      c == CropRegion(rect.left as real, rect.top as real, rect.width as real, rect.height as real)
  {
    CropRegion(
      widthRatio * rect.left as real,
      heightRatio * rect.top as real,
      widthRatio * rect.width as real,
      heightRatio * rect.height as real)
  }

  /**
   * Whenever each ratio times the rendered size is the natural size, every
   * crop coordinate times the rendered size is the display coordinate times
   * the natural size.
   */
  lemma CropScalesWithRatios(rect: Rect, widthRatio: real, heightRatio: real,
                             naturalWidth: int, imageWidth: int, naturalHeight: int, imageHeight: int)
    ensures (widthRatio * imageWidth as real == naturalWidth as real
             && heightRatio * imageHeight as real == naturalHeight as real) ==>
      var c := Crop(rect, widthRatio, heightRatio);
      && c.x * imageWidth as real == rect.left as real * naturalWidth as real
      && c.y * imageHeight as real == rect.top as real * naturalHeight as real
      && c.width * imageWidth as real == rect.width as real * naturalWidth as real
      && c.height * imageHeight as real == rect.height as real * naturalHeight as real
  {
  }

  /**
   * With ratios taken from the metrics, every crop coordinate is the display
   * coordinate scaled by natural/rendered: multiplying back by the rendered
   * size gives the display coordinate times the natural size.
   */
  lemma CropScalesByMetrics(rect: Rect, naturalWidth: int, imageWidth: int, naturalHeight: int, imageHeight: int)
    requires imageWidth > 0 && imageHeight > 0
    ensures var c := Crop(rect, Ratio(naturalWidth, imageWidth), Ratio(naturalHeight, imageHeight));
      && c.x * imageWidth as real == rect.left as real * naturalWidth as real
      && c.y * imageHeight as real == rect.top as real * naturalHeight as real
      && c.width * imageWidth as real == rect.width as real * naturalWidth as real
      && c.height * imageHeight as real == rect.height as real * naturalHeight as real
  {
  }

  /**
   * A rectangle that lies inside the rendered image maps to a crop that lies
   * inside the natural image.
   */
  lemma CropInsideImage(rect: Rect, naturalWidth: int, imageWidth: int, naturalHeight: int, imageHeight: int)
    requires imageWidth > 0 && imageHeight > 0 && naturalWidth >= 0 && naturalHeight >= 0
    requires 0 <= rect.left && 0 <= rect.width && rect.left + rect.width <= imageWidth
    requires 0 <= rect.top && 0 <= rect.height && rect.top + rect.height <= imageHeight
    ensures var c := Crop(rect, Ratio(naturalWidth, imageWidth), Ratio(naturalHeight, imageHeight));
      && 0.0 <= c.x && 0.0 <= c.width && c.x + c.width <= naturalWidth as real
      && 0.0 <= c.y && 0.0 <= c.height && c.y + c.height <= naturalHeight as real
  {
    CropInsideScaled(rect, Ratio(naturalWidth, imageWidth), Ratio(naturalHeight, imageHeight),
                     naturalWidth, imageWidth, naturalHeight, imageHeight);
  }

  /** The same, for any non-negative ratios that scale the rendered size to the natural size. */
  lemma CropInsideScaled(rect: Rect, wr: real, hr: real,
                         naturalWidth: int, imageWidth: int, naturalHeight: int, imageHeight: int)
    requires wr >= 0.0 && wr * imageWidth as real == naturalWidth as real
    requires hr >= 0.0 && hr * imageHeight as real == naturalHeight as real
    requires 0 <= rect.left && 0 <= rect.width && rect.left + rect.width <= imageWidth
    requires 0 <= rect.top && 0 <= rect.height && rect.top + rect.height <= imageHeight
    ensures var c := Crop(rect, wr, hr);
      && 0.0 <= c.x && 0.0 <= c.width && c.x + c.width <= naturalWidth as real
      && 0.0 <= c.y && 0.0 <= c.height && c.y + c.height <= naturalHeight as real
  {
    InsideOneAxis(wr, rect.left, rect.width, imageWidth, naturalWidth);
    InsideOneAxis(hr, rect.top, rect.height, imageHeight, naturalHeight);
    assert Crop(rect, wr, hr) == CropRegion(wr * rect.left as real, hr * rect.top as real,
                                            wr * rect.width as real, hr * rect.height as real);
  }

  /** On one axis: a span inside [0, rendered] scales to a span inside [0, natural]. */
  lemma InsideOneAxis(ratio: real, start: int, extent: int, rendered: int, natural: int)
    requires ratio >= 0.0 && ratio * rendered as real == natural as real
    requires 0 <= start && 0 <= extent && start + extent <= rendered
    ensures 0.0 <= ratio * start as real && 0.0 <= ratio * extent as real
    ensures ratio * start as real + ratio * extent as real <= natural as real
  {
    assert ratio * start as real + ratio * extent as real == ratio * (start + extent) as real;
    assert ratio * (start + extent) as real <= ratio * rendered as real;
  }

  /** With the initial 50x50 metrics both ratios are 1 and the crop is the rectangle itself. */
  lemma InitialCropIsRect(rect: Rect)
    ensures Ratio(50, 50) == 1.0
    ensures Crop(rect, Ratio(50, 50), Ratio(50, 50))
         == CropRegion(rect.left as real, rect.top as real, rect.width as real, rect.height as real)
  {
  }

  /** A 2000-pixel image rendered 500 pixels wide and high scales by 4. */
  lemma CropExample()
    ensures Ratio(2000, 500) == 4.0
    ensures Crop(Rect(10, 10, 100, 50), Ratio(2000, 500), Ratio(2000, 500))
         == CropRegion(40.0, 40.0, 400.0, 200.0)
  {
  }

  /**
   * A resize that changes the rendered width leaves the rectangle as it is
   * but changes the width of its crop.
   */
  lemma ResizeChangesCrop(rect: Rect, naturalWidth: int, before: int, after: int, naturalHeight: int, imageHeight: int)
    requires before > 0 && after > 0 && imageHeight > 0 && before != after
    requires naturalWidth != 0 && rect.width != 0
    ensures Crop(rect, Ratio(naturalWidth, before), Ratio(naturalHeight, imageHeight)).width
         != Crop(rect, Ratio(naturalWidth, after), Ratio(naturalHeight, imageHeight)).width
  {
    DistinctRatios(naturalWidth, before, after);
    var w0, w1 := Ratio(naturalWidth, before), Ratio(naturalWidth, after);
    DistinctScales(w0, w1, rect.width);
  }

  /** The same non-zero natural size over two different rendered sizes gives two different ratios. */
  lemma DistinctRatios(natural: int, before: int, after: int)
    requires before > 0 && after > 0 && before != after && natural != 0
    ensures Ratio(natural, before) != Ratio(natural, after)
  {
    ScalesDiffer(Ratio(natural, before), Ratio(natural, after), natural as real, before as real, after as real);
  }

  /** Two factors that scale different sizes to the same non-zero size are different. */
  lemma ScalesDiffer(w0: real, w1: real, n: real, b: real, a: real)
    requires w0 * b == n && w1 * a == n && n != 0.0 && b != a
    ensures w0 != w1
  {
  }

  /** Two different factors scale the same non-zero coordinate to different values. */
  lemma DistinctScales(w0: real, w1: real, v: int)
    requires w0 != w1 && v != 0
    ensures w0 * v as real != w1 * v as real
  {
  }
}
