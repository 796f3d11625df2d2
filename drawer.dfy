/**
 * The height of the results drawer, computed in App.tsx by a `reduce` over
 * the committed rectangles.
 */
module Drawer {
  import opened Geometry

  /** Initial value of the reduce and its fallback. */
  const DefaultHeight: int := 200
  /** Margin added above a rectangle's height. */
  const Padding: int := 15

  /**
   * One step of the reduce: a height above the running value sets the
   * result to that height plus the padding, anything else resets it to the
   * default. The running value already includes the padding.
   */
  function HeightStep(acc: int, height: int): (r: int)
    ensures acc >= DefaultHeight ==> r >= DefaultHeight
    ensures r > acc + Padding || r == DefaultHeight
    ensures r != DefaultHeight ==> r == height + Padding
  {
    if height > acc then height + Padding else DefaultHeight
  }

  /**
   * The reduce as written: starting at DefaultHeight, folded left to right.
   * It is never below the default, and it is the default or the last height
   * plus the padding; the last height counts only if it beats the running
   * value, which already includes the padding.
   */
  function DrawerHeight(rects: seq<Rect>): (r: int)
    ensures r >= DefaultHeight
    ensures rects == [] ==> r == DefaultHeight
    ensures rects != [] ==> (r == DefaultHeight || r == rects[|rects| - 1].height + Padding)
    decreases |rects|
  {
    if rects == [] then DefaultHeight
    else HeightStep(DrawerHeight(rects[..|rects| - 1]), rects[|rects| - 1].height)
  }

  /** The result is the default or some rectangle's height plus the padding. */
  lemma DrawerHeightFromSomeRect(rects: seq<Rect>)
    ensures DrawerHeight(rects) == DefaultHeight
         || exists i :: 0 <= i < |rects| && DrawerHeight(rects) == rects[i].height + Padding
  {
    if DrawerHeight(rects) != DefaultHeight {
      var i := |rects| - 1;
      assert DrawerHeight(rects) == rects[i].height + Padding;
    }
  }

  /**
   * The evidently intended height: the tallest rectangle plus the padding,
   * and never below the default.
   */
  function IntendedDrawerHeight(rects: seq<Rect>): (r: int)
    ensures r >= DefaultHeight
    ensures forall i :: 0 <= i < |rects| ==> r >= rects[i].height + Padding
    ensures r == DefaultHeight || exists i :: 0 <= i < |rects| && r == rects[i].height + Padding
    decreases |rects|
  {
    if rects == [] then DefaultHeight
    else
      var rest := IntendedDrawerHeight(rects[..|rects| - 1]);
      var last := rects[|rects| - 1].height + Padding;
      if last > rest then last else rest
  }

  /** As written, the height never exceeds the intended one. */
  lemma DrawerHeightAtMostIntended(rects: seq<Rect>)
    ensures DrawerHeight(rects) <= IntendedDrawerHeight(rects)
  {
    if rects != [] {
      assert rects[|rects| - 1].height + Padding <= IntendedDrawerHeight(rects);
    }
  }

  /**
   * Each rectangle is more than the padding taller than the one before it,
   * and the first is taller than the default height.
   */
  predicate SteeplyRising(rects: seq<Rect>)
  {
    && (rects != [] ==> rects[0].height > DefaultHeight)
    && forall i :: 0 < i < |rects| ==> rects[i].height > rects[i - 1].height + Padding
  }

  /**
   * On steeply rising heights every step of the reduce as written beats the
   * running value, so it agrees with the intended height: the last (tallest)
   * height plus the padding.
   */
  lemma {:induction false} DrawerHeightAgreesWhenSteep(rects: seq<Rect>)
    requires SteeplyRising(rects)
    ensures DrawerHeight(rects) == IntendedDrawerHeight(rects)
    ensures rects != [] ==> DrawerHeight(rects) == rects[|rects| - 1].height + Padding
    decreases |rects|
  {
    if rects != [] {
      var prefix := rects[..|rects| - 1];
      assert SteeplyRising(prefix) by {
        forall i | 0 < i < |prefix|
          ensures prefix[i].height > prefix[i - 1].height + Padding
        {
          assert prefix[i] == rects[i] && prefix[i - 1] == rects[i - 1];
        }
      }
      DrawerHeightAgreesWhenSteep(prefix);
      var last := rects[|rects| - 1].height;
      if prefix != [] {
        assert prefix[|prefix| - 1] == rects[|rects| - 2];
        assert DrawerHeight(prefix) == rects[|rects| - 2].height + Padding < last;
      }
      assert DrawerHeight(rects) == HeightStep(DrawerHeight(prefix), last);
    }
  }

  /**
   * As written, a rectangle 300 high followed by a taller one, 310 high,
   * gives the default height, below both crops shown in the drawer; so does
   * 300 followed by a shorter 100.
   */
  lemma DrawerHeightIgnoresEarlierTallRect()
    ensures var rects := [Rect(0, 0, 50, 300), Rect(0, 0, 50, 310)];
      && DrawerHeight(rects) == 200
      && IntendedDrawerHeight(rects) == 325
      && DrawerHeight(rects) < rects[1].height
    ensures var rects := [Rect(0, 0, 50, 300), Rect(0, 0, 50, 100)];
      && DrawerHeight(rects) == 200
      && IntendedDrawerHeight(rects) == 315
  {
    var rects := [Rect(0, 0, 50, 300), Rect(0, 0, 50, 310)];
    assert rects[..1] == [rects[0]] && [rects[0]][..0] == [];
    var shorter := [Rect(0, 0, 50, 300), Rect(0, 0, 50, 100)];
    assert shorter[..1] == [shorter[0]];
  }
}
