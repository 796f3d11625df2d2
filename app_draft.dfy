/**
 * The earlier draft of the component (App.js): the same gesture, but the
 * release handler appends unconditionally and mixes raw client coordinates
 * with image-relative ones.
 */
module AppDraft {
  import opened Wrappers
  import opened Geometry
  import Selection

  /**
   * Pointer events on the draft's stage, with client coordinates. The draft
   * keeps the gesture state of the current version (`Selection.DragState`),
   * but its events are its own: they carry client rather than page
   * coordinates and there is no removal event.
   */
  datatype DraftEvent =
    | Press(clientX: int, clientY: int)
    | Move(clientX: int, clientY: int)
    | Release(clientX: int, clientY: int)

  /**
   * The rectangle the draft builds from the anchor and a pointer position:
   * its left/top edge is the raw anchor, while its right/bottom edge is the
   * pointer taken relative to the image origin. Nothing bounds its size.
   */
  function Span(startLeft: int, startTop: int, imageLeft: int, imageTop: int, x: int, y: int): (r: Rect)
    ensures r.left == startLeft && r.top == startTop
    ensures r.left + r.width == x - imageLeft && r.top + r.height == y - imageTop
  {
    Rect(startLeft, startTop, x - imageLeft - startLeft, y - imageTop - startTop)
  }

  /** The rectangle drawn while dragging: the span to the cursor, present exactly while dragging. */
  function Candidate(s: Selection.DragState): (r: Option<Rect>)
    ensures r.Some? <==> s.isDragging
    ensures r.Some? ==> r.value == Span(s.startLeft, s.startTop, s.imageLeft, s.imageTop, s.cursorLeft, s.cursorTop)
  {
    if s.isDragging then
      Some(Rect(s.startLeft, s.startTop, s.cursorLeft - s.imageLeft - s.startLeft, s.cursorTop - s.imageTop - s.startTop))
    else
      None
  }

  /**
   * One handler run of the draft. Every release appends exactly one
   * rectangle at the end and nothing else touches the list; only a press
   * starts a drag and a release ends it.
   */
  function DraftStep(s: Selection.DragState, e: DraftEvent): (t: Selection.DragState)
    ensures |t.rects| == |s.rects| + (if e.Release? then 1 else 0)
    ensures t.rects[..|s.rects|] == s.rects
    ensures t.isDragging == (e.Press? || (s.isDragging && !e.Release?))
    ensures t.imageLeft == s.imageLeft && t.imageTop == s.imageTop
  {
    match e
    case Press(x, y) => s.(isDragging := true, startLeft := x, startTop := y)
    case Move(x, y) => s.(cursorLeft := x, cursorTop := y)
    case Release(x, y) =>
      s.(isDragging := false, rects := s.rects + [Span(s.startLeft, s.startTop, s.imageLeft, s.imageTop, x, y)])
  }

  function DraftRun(s: Selection.DragState, es: seq<DraftEvent>): Selection.DragState
    decreases |es|
  {
    if es == [] then s else DraftRun(DraftStep(s, es[0]), es[1..])
  }

  /** The number of releases in a draft event sequence (the draft's events have no removal). */
  function Releases(es: seq<DraftEvent>): nat
    decreases |es|
  {
    if es == [] then 0 else (if es[0].Release? then 1 else 0) + Releases(es[1..])
  }

  /**
   * Every release appends exactly one rectangle and nothing else does;
   * earlier rectangles stay at the front, in order.
   */
  lemma {:induction false} DraftRunGrowsByReleases(s: Selection.DragState, es: seq<DraftEvent>)
    ensures var t := DraftRun(s, es);
      |t.rects| == |s.rects| + Releases(es) && t.rects[..|s.rects|] == s.rects
    decreases |es|
  {
    if es != [] {
      var s' := DraftStep(s, es[0]);
      assert s'.rects[..|s.rects|] == s.rects;
      DraftRunGrowsByReleases(s', es[1..]);
      var t := DraftRun(s', es[1..]);
      assert t.rects[..|s.rects|] == t.rects[..|s'.rects|][..|s.rects|];
    }
  }

  /**
   * A click without movement still commits a rectangle: anchored at the
   * click, with extents minus the image origin (zero when the image sits at
   * the origin).
   */
  lemma ClickCommitsDegenerateRect(s: Selection.DragState)
    ensures DraftStep(s, Release(s.startLeft, s.startTop)).rects
         == s.rects + [Rect(s.startLeft, s.startTop, -s.imageLeft, -s.imageTop)]
  {
  }

  /** Released at the cursor's last position, the draft commits exactly the drawn rectangle. */
  lemma ReleaseAtCursorCommitsCandidate(s: Selection.DragState)
    requires s.isDragging
    ensures DraftStep(s, Release(s.cursorLeft, s.cursorTop)).rects == s.rects + [Candidate(s).value]
  {
  }

  /**
   * Against the current version, for equal event coordinates, which are the
   * same point only on an unscrolled page: the draft reads client
   * coordinates, the current version page coordinates. For equal anchor and
   * release coordinates the draft's rectangle starts at the raw anchor
   * instead of the image-relative one, and is narrower and shorter by the
   * image origin; the two agree when the image sits at the origin.
   */
  lemma DraftVersusCurrent(startLeft: int, startTop: int, imageLeft: int, imageTop: int, x: int, y: int)
    requires x - startLeft > MinDragSize && y - startTop > MinDragSize
    ensures var c := Selection.Released(startLeft, startTop, imageLeft, imageTop, x, y).value;
      var d := Span(startLeft, startTop, imageLeft, imageTop, x, y);
      && d.left == c.left + imageLeft && d.top == c.top + imageTop
      && d.width == c.width - imageLeft && d.height == c.height - imageTop
      && (imageLeft == 0 && imageTop == 0 ==> d == c)
  {
  }

  class Cutter {
    var imageHeight: int
    var imageWidth: int
    var imageLeft: int
    var imageTop: int
    var cursorLeft: int
    var cursorTop: int
    var startLeft: int
    var startTop: int
    var isDragging: bool
    var rects: seq<Rect>

    ghost function State(): Selection.DragState
      reads this
    {
      Selection.DragState(isDragging, startLeft, startTop, cursorLeft, cursorTop, imageLeft, imageTop, rects)
    }

    constructor ()
      ensures imageHeight == 50 && imageWidth == 50 && imageLeft == 0 && imageTop == 0
      ensures cursorLeft == 0 && cursorTop == 0 && startLeft == 0 && startTop == 0
      ensures !isDragging && rects == []
    {
      imageHeight, imageWidth := 50, 50;
      imageLeft, imageTop := 0, 0;
      cursorLeft, cursorTop := 0, 0;
      startLeft, startTop := 0, 0;
      isDragging := false;
      rects := [];
    }

    /** Press: start dragging and record the raw client anchor. */
    method OnMouseDown(clientX: int, clientY: int)
      modifies this`isDragging, this`startLeft, this`startTop
      ensures isDragging && startLeft == clientX && startTop == clientY
      ensures State() == DraftStep(old(State()), Press(clientX, clientY))
    {
      isDragging := true;
      startLeft := clientX;
      startTop := clientY;
    }

    /** Release: stop dragging and always append one rectangle. */
    method OnMouseUp(clientX: int, clientY: int)
      modifies this`isDragging, this`rects
      ensures !isDragging
      ensures |rects| == |old(rects)| + 1 && rects[..|old(rects)|] == old(rects)
      ensures rects[|old(rects)|]
           == Rect(startLeft, startTop, clientX - imageLeft - startLeft, clientY - imageTop - startTop)
      ensures State() == DraftStep(old(State()), Release(clientX, clientY))
    {
      isDragging := false;
      var newRect := Rect(startLeft, startTop, clientX - imageLeft - startLeft, clientY - imageTop - startTop);
      rects := rects + [newRect];
    }

    /** Move: record the cursor only. */
    method OnMouseMove(clientX: int, clientY: int)
      modifies this`cursorLeft, this`cursorTop
      ensures cursorLeft == clientX && cursorTop == clientY
      ensures State() == DraftStep(old(State()), Move(clientX, clientY))
    {
      cursorLeft := clientX;
      cursorTop := clientY;
    }

    /** `updateSize` of the draft: copy the rendered box when the element exists. */
    method UpdateSize(image: Option<ImageElement>)
      modifies this`imageHeight, this`imageWidth, this`imageLeft, this`imageTop
      ensures image.Some? ==>
        && imageHeight == image.value.clientHeight && imageWidth == image.value.clientWidth
        && imageLeft == image.value.offsetLeft && imageTop == image.value.offsetTop
      ensures image.None? ==>
        && imageHeight == old(imageHeight) && imageWidth == old(imageWidth)
        && imageLeft == old(imageLeft) && imageTop == old(imageTop)
    {
      if image.Some? {
        imageHeight := image.value.clientHeight;
        imageWidth := image.value.clientWidth;
        imageLeft := image.value.offsetLeft;
        imageTop := image.value.offsetTop;
      }
    }
  }
}
