/**
 * The component state of App.tsx and its handlers: a class whose fields are
 * the component's state variables and whose methods are the event handlers
 * and effects that set them. Each gesture handler is proved against
 * Selection.Step.
 */
module App {
  import opened Wrappers
  import opened Geometry
  import Selection
  import Drawer

  class Cutter {
    // display metrics
    var imageHeight: int
    var imageWidth: int
    var naturalImageHeight: int
    var naturalImageWidth: int
    var widthRatio: real
    var heightRatio: real
    var imageLeft: int
    var imageTop: int
    // drag gesture
    var cursorLeft: int
    var cursorTop: int
    var startLeft: int
    var startTop: int
    var isDragging: bool
    // committed selections and the drawer height derived from them
    var rects: seq<Rect>
    var maxHeight: int

    /** Every stored rectangle passed the release threshold; the drawer is never below its default. */
    ghost predicate Valid()
      reads this
    {
      Selection.AllCommittable(rects) && maxHeight >= Drawer.DefaultHeight
    }

    /** The part of the state the gesture handlers read and write. */
    ghost function State(): Selection.DragState
      reads this
    {
      Selection.DragState(isDragging, startLeft, startTop, cursorLeft, cursorTop, imageLeft, imageTop, rects)
    }

    /** The initial values of the component's state. */
    constructor ()
      ensures Valid()
      ensures imageHeight == 50 && imageWidth == 50 && naturalImageHeight == 50 && naturalImageWidth == 50
      ensures widthRatio == 1.0 && heightRatio == 1.0
      ensures imageLeft == 0 && imageTop == 0 && cursorLeft == 0 && cursorTop == 0
      ensures startLeft == 0 && startTop == 0 && !isDragging
      ensures rects == [] && maxHeight == Drawer.DefaultHeight
    {
      imageHeight, imageWidth := 50, 50;
      naturalImageHeight, naturalImageWidth := 50, 50;
      widthRatio, heightRatio := 1.0, 1.0;
      imageLeft, imageTop := 0, 0;
      cursorLeft, cursorTop := 0, 0;
      startLeft, startTop := 0, 0;
      isDragging := false;
      rects := [];
      maxHeight := Drawer.DefaultHeight;
    }

    /** Press: start dragging and record the anchor; nothing else changes. */
    method OnMouseDown(pageX: int, pageY: int)
      requires Valid()
      modifies this`isDragging, this`startLeft, this`startTop
      ensures Valid()
      ensures isDragging && startLeft == pageX && startTop == pageY
      ensures State() == Selection.Step(old(State()), Selection.MouseDown(pageX, pageY))
    {
      isDragging := true;
      startLeft := pageX;
      startTop := pageY;
    }

    /**
     * Release: stop dragging, and append the dragged rectangle, relative to
     * the image origin, when both extents exceed the threshold.
     */
    method OnMouseUp(pageX: int, pageY: int)
      requires Valid()
      modifies this`isDragging, this`rects
      ensures Valid()
      ensures !isDragging
      ensures pageX - startLeft > MinDragSize && pageY - startTop > MinDragSize ==>
        rects == old(rects) + [Rect(startLeft - imageLeft, startTop - imageTop, pageX - startLeft, pageY - startTop)]
      ensures !(pageX - startLeft > MinDragSize && pageY - startTop > MinDragSize) ==> rects == old(rects)
      ensures State() == Selection.Step(old(State()), Selection.MouseUp(pageX, pageY))
    {
      isDragging := false;
      var newWidth := pageX - startLeft;
      var newHeight := pageY - startTop;
      if newWidth > MinDragSize && newHeight > MinDragSize {
        var newRect := Rect(startLeft - imageLeft, startTop - imageTop, newWidth, newHeight);
        rects := rects + [newRect];
      }
    }

    /** Move: record the cursor; nothing else changes. */
    method OnMouseMove(pageX: int, pageY: int)
      requires Valid()
      modifies this`cursorLeft, this`cursorTop
      ensures Valid()
      ensures cursorLeft == pageX && cursorTop == pageY
      ensures State() == Selection.Step(old(State()), Selection.MouseMove(pageX, pageY))
    {
      cursorLeft := pageX;
      cursorTop := pageY;
    }

    /** The remove button of rectangle idx: splice it out of the list. */
    method RemoveRect(idx: nat)
      requires Valid()
      modifies this`rects
      ensures Valid()
      ensures idx < |old(rects)| ==> rects == old(rects)[..idx] + old(rects)[idx + 1..]
      ensures idx >= |old(rects)| ==> rects == old(rects)
      ensures State() == Selection.Step(old(State()), Selection.RemoveAt(idx))
    {
      if idx < |rects| {
        rects := rects[..idx] + rects[idx + 1..];
      }
    }

    /**
     * `updateSize`: copy the image element's box into the metrics when the
     * element exists; otherwise keep every metric as it was.
     */
    method UpdateSize(image: Option<ImageElement>)
      requires Valid()
      modifies this`imageHeight, this`imageWidth, this`naturalImageHeight, this`naturalImageWidth,
               this`imageLeft, this`imageTop
      ensures Valid()
      ensures image.Some? ==>
        && imageHeight == image.value.clientHeight && imageWidth == image.value.clientWidth
        && naturalImageHeight == image.value.naturalHeight && naturalImageWidth == image.value.naturalWidth
        && imageLeft == image.value.offsetLeft && imageTop == image.value.offsetTop
      ensures image.None? ==>
        && imageHeight == old(imageHeight) && imageWidth == old(imageWidth)
        && naturalImageHeight == old(naturalImageHeight) && naturalImageWidth == old(naturalImageWidth)
        && imageLeft == old(imageLeft) && imageTop == old(imageTop)
    {
      if image.Some? {
        var el := image.value;
        imageHeight := el.clientHeight;
        imageWidth := el.clientWidth;
        naturalImageHeight := el.naturalHeight;
        naturalImageWidth := el.naturalWidth;
        imageLeft := el.offsetLeft;
        imageTop := el.offsetTop;
      }
    }

    /** The ratio effect: natural over rendered size, in each direction. */
    method UpdateRatios()
      requires Valid()
      requires imageWidth > 0 && imageHeight > 0
      modifies this`widthRatio, this`heightRatio
      ensures Valid()
      ensures RatiosCurrent()
      ensures widthRatio * imageWidth as real == naturalImageWidth as real
      ensures heightRatio * imageHeight as real == naturalImageHeight as real
    {
      widthRatio := Ratio(naturalImageWidth, imageWidth);
      heightRatio := Ratio(naturalImageHeight, imageHeight);
    }

    /** The ratios agree with the current metrics (true after UpdateRatios, until the next resize). */
    ghost predicate RatiosCurrent()
      reads this
    {
      imageWidth > 0 && imageHeight > 0
      && widthRatio == Ratio(naturalImageWidth, imageWidth)
      && heightRatio == Ratio(naturalImageHeight, imageHeight)
    }

    /**
     * The crop object of the drawer's preview of rectangle idx, built from
     * the ratio fields; while the ratios are current it is the rectangle
     * scaled from rendered to natural pixels.
     */
    function CropOf(idx: nat): (c: CropRegion)
      reads this
      requires idx < |rects|
      ensures RatiosCurrent() ==>
        && c.x * imageWidth as real == rects[idx].left as real * naturalImageWidth as real
        && c.y * imageHeight as real == rects[idx].top as real * naturalImageHeight as real
        && c.width * imageWidth as real == rects[idx].width as real * naturalImageWidth as real
        && c.height * imageHeight as real == rects[idx].height as real * naturalImageHeight as real
    {
      Crop(rects[idx], widthRatio, heightRatio)
    }

    /**
     * The max-height effect: the reduce over the rectangles as written, never
     * below the default, and either the default or the last height plus the
     * padding.
     */
    method UpdateMaxHeight()
      requires Valid()
      modifies this`maxHeight
      ensures Valid()
      ensures maxHeight == Drawer.DrawerHeight(rects)
      ensures rects != [] ==> (maxHeight == Drawer.DefaultHeight || maxHeight == rects[|rects| - 1].height + Drawer.Padding)
    {
      maxHeight := Drawer.DrawerHeight(rects);
    }
  }
}
