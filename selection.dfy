/**
 * The drag gesture and the committed rectangle list of App.tsx, as a pure
 * state machine. The component class in module App is proved against `Step`.
 */
module Selection {
  import opened Wrappers
  import opened Geometry

  /** The gesture state the handlers read and write (page coordinates, integers). */
  datatype DragState = DragState(
    isDragging: bool,
    startLeft: int, startTop: int,
    cursorLeft: int, cursorTop: int,
    imageLeft: int, imageTop: int,
    rects: seq<Rect>)

  /** Pointer events on the stage, with page coordinates, and the remove button. */
  datatype Event =
    | MouseDown(pageX: int, pageY: int)
    | MouseMove(pageX: int, pageY: int)
    | MouseUp(pageX: int, pageY: int)
    | RemoveAt(idx: nat)

  /** A rectangle large enough to have been committed. */
  predicate Committable(r: Rect)
  {
    r.width > MinDragSize && r.height > MinDragSize
  }

  predicate AllCommittable(rects: seq<Rect>)
  {
    forall i :: 0 <= i < |rects| ==> Committable(rects[i])
  }

  /**
   * What a release at (pageX, pageY) commits after a press at
   * (startLeft, startTop): a rectangle whose corners are the press and
   * release points taken relative to the image origin, or nothing when
   * either extent is at most MinDragSize (reversed drags included).
   */
  function Released(startLeft: int, startTop: int, imageLeft: int, imageTop: int, pageX: int, pageY: int): (r: Option<Rect>)
    ensures r.Some? <==> pageX - startLeft > MinDragSize && pageY - startTop > MinDragSize
    ensures r.Some? ==> Committable(r.value)
    ensures r.Some? ==> r.value.left + imageLeft == startLeft && r.value.top + imageTop == startTop
    ensures r.Some? ==> (r.value.left + r.value.width + imageLeft == pageX
                      && r.value.top + r.value.height + imageTop == pageY)
  {
    var newWidth := pageX - startLeft;
    var newHeight := pageY - startTop;
    if newWidth > MinDragSize && newHeight > MinDragSize then
      Some(Rect(startLeft - imageLeft, startTop - imageTop, newWidth, newHeight))
    else
      None
  }

  /**
   * The dashed rectangle drawn while a drag is in progress: present exactly
   * while dragging, spanning from the press point to the cursor, relative to
   * the image origin, with no size threshold.
   */
  function Candidate(s: DragState): (r: Option<Rect>)
    ensures r.Some? <==> s.isDragging
    ensures r.Some? ==> r.value.left + s.imageLeft == s.startLeft && r.value.top + s.imageTop == s.startTop
    ensures r.Some? ==> (r.value.left + r.value.width + s.imageLeft == s.cursorLeft
                      && r.value.top + r.value.height + s.imageTop == s.cursorTop)
  {
    if s.isDragging then
      Some(Rect(s.startLeft - s.imageLeft, s.startTop - s.imageTop, s.cursorLeft - s.startLeft, s.cursorTop - s.startTop))
    else
      None
  }

  /**
   * `rects.splice(idx, 1)` for an index the remove buttons supply: the
   * element at idx leaves, the survivors keep their order, and an index past
   * the end changes nothing.
   */
  function Splice(rects: seq<Rect>, idx: nat): (r: seq<Rect>)
    ensures |r| == if idx < |rects| then |rects| - 1 else |rects|
    ensures forall i :: 0 <= i < |r| ==> r[i] == rects[if i < idx then i else i + 1]
  {
    if idx < |rects| then rects[..idx] + rects[idx + 1..] else rects
  }

  /**
   * One handler run: press, move, release, or a remove-button click. No
   * handler moves the image; only a press starts a drag and a release always
   * ends it; only a release adds a rectangle, at most one, at the end.
   */
  function Step(s: DragState, e: Event): (t: DragState)
    ensures t.imageLeft == s.imageLeft && t.imageTop == s.imageTop
    ensures t.isDragging == (e.MouseDown? || (s.isDragging && !e.MouseUp?))
    ensures |t.rects| <= |s.rects| + (if e.MouseUp? then 1 else 0)
    ensures !e.RemoveAt? ==> |s.rects| <= |t.rects| && t.rects[..|s.rects|] == s.rects
    ensures !e.MouseUp? && !e.RemoveAt? ==> t.rects == s.rects
  {
    match e
    case MouseDown(x, y) => s.(isDragging := true, startLeft := x, startTop := y)
    case MouseMove(x, y) => s.(cursorLeft := x, cursorTop := y)
    case MouseUp(x, y) =>
      var c := Released(s.startLeft, s.startTop, s.imageLeft, s.imageTop, x, y);
      s.(isDragging := false, rects := if c.Some? then s.rects + [c.value] else s.rects)
    case RemoveAt(i) => s.(rects := Splice(s.rects, i))
  }

  /**
   * The state after a sequence of handler runs. The image origin is never
   * changed by them, and a sequence that ends with a release leaves no drag
   * in progress.
   */
  function Run(s: DragState, es: seq<Event>): (t: DragState)
    ensures t.imageLeft == s.imageLeft && t.imageTop == s.imageTop
    ensures es != [] && es[|es| - 1].MouseUp? ==> !t.isDragging
    decreases |es|
  {
    if es == [] then s
    else
      assert es != [] && es[|es| - 1].MouseUp? && |es| > 1 ==> es[1..][|es[1..]| - 1] == es[|es| - 1];
      Run(Step(s, es[0]), es[1..])
  }

  /** Number of releases in a sequence of events. */
  function Releases(es: seq<Event>): nat
    decreases |es|
  {
    if es == [] then 0 else (if es[0].MouseUp? then 1 else 0) + Releases(es[1..])
  }

  /**
   * A release appends a rectangle exactly when both extents exceed the
   * threshold; it always ends the drag, and the earlier rectangles stay as
   * they were, in order, at the front.
   */
  lemma ReleaseCommitsIff(s: DragState, x: int, y: int)
    ensures var t := Step(s, MouseUp(x, y));
      && !t.isDragging
      && (|t.rects| == |s.rects| + 1 <==> x - s.startLeft > MinDragSize && y - s.startTop > MinDragSize)
      && (|t.rects| == |s.rects| <==> !(x - s.startLeft > MinDragSize && y - s.startTop > MinDragSize))
      && t.rects[..|s.rects|] == s.rects
      && (|t.rects| > |s.rects| ==>
            t.rects[|s.rects|] == Rect(s.startLeft - s.imageLeft, s.startTop - s.imageTop, x - s.startLeft, y - s.startTop))
  {
  }

  /** Exactly 10 pixels is rejected and 11 is accepted, in each direction. */
  lemma ThresholdBoundary(s: DragState)
    ensures Step(s, MouseUp(s.startLeft + 10, s.startTop + 11)).rects == s.rects
    ensures Step(s, MouseUp(s.startLeft + 11, s.startTop + 10)).rects == s.rects
    ensures |Step(s, MouseUp(s.startLeft + 11, s.startTop + 11)).rects| == |s.rects| + 1
  {
  }

  /** A drag released left of or above its press point never commits. */
  lemma ReversedDragNeverCommits(s: DragState, x: int, y: int)
    requires x <= s.startLeft || y <= s.startTop
    ensures Step(s, MouseUp(x, y)).rects == s.rects
  {
  }

  /**
   * Released at the cursor's last position, a drag commits exactly the
   * rectangle that was drawn while dragging, if it is large enough.
   */
  lemma ReleaseAtCursorCommitsCandidate(s: DragState)
    requires s.isDragging
    requires s.cursorLeft - s.startLeft > MinDragSize && s.cursorTop - s.startTop > MinDragSize
    ensures Step(s, MouseUp(s.cursorLeft, s.cursorTop)).rects == s.rects + [Candidate(s).value]
  {
  }

  /** Every handler keeps the committed list free of small or reversed rectangles. */
  lemma StepKeepsCommittable(s: DragState, e: Event)
    requires AllCommittable(s.rects)
    ensures AllCommittable(Step(s, e).rects)
  {
  }

  /** Invariant: no sequence of events ever stores a rectangle of extent 10 or less. */
  lemma {:induction false} RunKeepsCommittable(s: DragState, es: seq<Event>)
    requires AllCommittable(s.rects)
    ensures AllCommittable(Run(s, es).rects)
    decreases |es|
  {
    if es != [] {
      StepKeepsCommittable(s, es[0]);
      RunKeepsCommittable(Step(s, es[0]), es[1..]);
    }
  }

  /** Each release adds at most one rectangle and nothing else adds any. */
  lemma {:induction false} RunCommitsAtMostReleases(s: DragState, es: seq<Event>)
    ensures |Run(s, es).rects| <= |s.rects| + Releases(es)
    decreases |es|
  {
    if es != [] {
      RunCommitsAtMostReleases(Step(s, es[0]), es[1..]);
    }
  }

  /** Without a removal, the list only grows at its end: earlier rectangles never move. */
  lemma {:induction false} RunWithoutRemovalExtends(s: DragState, es: seq<Event>)
    requires forall i :: 0 <= i < |es| ==> !es[i].RemoveAt?
    ensures var t := Run(s, es); |s.rects| <= |t.rects| && t.rects[..|s.rects|] == s.rects
    decreases |es|
  {
    if es != [] {
      var s' := Step(s, es[0]);
      assert |s.rects| <= |s'.rects| && s'.rects[..|s.rects|] == s.rects;
      RunWithoutRemovalExtends(s', es[1..]);
      var t := Run(s', es[1..]);
      assert t.rects[..|s.rects|] == t.rects[..|s'.rects|][..|s.rects|];
    }
  }

  /**
   * Committing is not idempotent: the same large drag made twice appends two
   * equal rectangles.
   */
  lemma RepeatedDragCommitsTwice(s: DragState, x0: int, y0: int, x1: int, y1: int)
    requires x1 - x0 > MinDragSize && y1 - y0 > MinDragSize
    ensures var g := [MouseDown(x0, y0), MouseUp(x1, y1)];
      var r := Rect(x0 - s.imageLeft, y0 - s.imageTop, x1 - x0, y1 - y0);
      Run(s, g + g).rects == s.rects + [r, r]
  {
    var g := [MouseDown(x0, y0), MouseUp(x1, y1)];
    var r := Rect(x0 - s.imageLeft, y0 - s.imageTop, x1 - x0, y1 - y0);
    var gg := g + g;
    var s1 := Step(Step(s, g[0]), g[1]);
    assert s1.rects == s.rects + [r];
    calc {
      Run(s, gg);
      Run(Step(s, gg[0]), gg[1..]);
      { assert gg[1..][0] == g[1] && gg[1..][1..] == g; }
      Run(s1, g);
      Run(Step(s1, g[0]), g[1..]);
      { assert g[1..][1..] == []; }
      Step(Step(s1, g[0]), g[1]);
    }
  }

  /** Removing a rectangle, from any valid index, keeps the survivors in their relative order. */
  lemma RemovalKeepsOrder(rects: seq<Rect>, idx: nat)
    requires idx < |rects|
    ensures Splice(rects, idx) == rects[..idx] + rects[idx + 1..]
    ensures multiset(Splice(rects, idx)) + multiset{rects[idx]} == multiset(rects)
  {
    assert rects == rects[..idx] + [rects[idx]] + rects[idx + 1..];
  }
}
