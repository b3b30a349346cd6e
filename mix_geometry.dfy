/**
 * Geometry of the mix compositor's slots: the `NodeMixInfo` getters
 * (`layout.field || node.field`, `right`, `bottom`) and the bounding-box
 * `reduce` that gives the mix node its size.
 */
module MixGeometry {
  import opened Js

  /** A slot layout; every coordinate is optional, the depth key is mandatory. */
  datatype MixLayout = MixLayout(x: Option<int>, y: Option<int>, width: Option<int>, height: Option<int>, zIndex: int)

  datatype Rect = Rect(x: int, y: int, width: int, height: int) {
    function Right(): int { x + width }
    function Bottom(): int { y + height }
  }

  datatype Size = Size(width: int, height: int)

  /**
   * The rectangle a slot occupies: each layout field when truthy, otherwise
   * the child node's own value, so an explicit 0 in the layout falls back too.
   */
  function SlotRect(layout: MixLayout, node: Rect): (r: Rect)
    ensures r.x == OrNumber(layout.x, node.x) && r.y == OrNumber(layout.y, node.y)
    ensures r.width == OrNumber(layout.width, node.width) && r.height == OrNumber(layout.height, node.height)
    ensures r.Right() == r.x + r.width && r.Bottom() == r.y + r.height
  {
    Rect(OrNumber(layout.x, node.x), OrNumber(layout.y, node.y),
         OrNumber(layout.width, node.width), OrNumber(layout.height, node.height))
  }

  function Max(a: int, b: int): int { if a < b then b else a }

  /** One step of the reduce: an empty slot leaves the accumulated size alone. */
  function Grow(acc: Size, slot: Option<Rect>): Size {
    match slot
    case None => acc
    case Some(r) => Size(Max(acc.width, r.Right()), Max(acc.height, r.Bottom()))
  }

  /** Left fold over the sparse slot table, in index order, like `Array.prototype.reduce`. */
  function Reduce(slots: seq<Option<Rect>>, acc: Size): (r: Size)
    ensures acc.width <= r.width && acc.height <= r.height
    decreases |slots|
  {
    if slots == [] then acc else Reduce(slots[1..], Grow(acc, slots[0]))
  }

  /** The mix size: the reduce started from 0 x 0. */
  function Extent(slots: seq<Option<Rect>>): Size {
    Reduce(slots, Size(0, 0))
  }

  /** Every occupied slot ends at or before `s` on both axes. */
  ghost predicate Covers(slots: seq<Option<Rect>>, s: Size) {
    forall i | 0 <= i < |slots| && slots[i].Some? ::
      slots[i].value.Right() <= s.width && slots[i].value.Bottom() <= s.height
  }

  /** `w` is reached by some occupied slot's right edge. */
  ghost predicate RightReached(slots: seq<Option<Rect>>, w: int) {
    exists i | 0 <= i < |slots| && slots[i].Some? :: slots[i].value.Right() == w
  }

  ghost predicate BottomReached(slots: seq<Option<Rect>>, h: int) {
    exists i | 0 <= i < |slots| && slots[i].Some? :: slots[i].value.Bottom() == h
  }

  /** The fold yields the maximum of the accumulator and every occupied slot's right and bottom edges. */
  lemma {:induction false} ReduceIsMax(slots: seq<Option<Rect>>, acc: Size)
    ensures var r := Reduce(slots, acc);
      && acc.width <= r.width && acc.height <= r.height
      && Covers(slots, r)
      && (r.width == acc.width || RightReached(slots, r.width))
      && (r.height == acc.height || BottomReached(slots, r.height))
    decreases |slots|
  {
    if slots != [] {
      var next := Grow(acc, slots[0]);
      var tail := slots[1..];
      ReduceIsMax(tail, next);
      var r := Reduce(slots, acc);
      assert r == Reduce(tail, next);
      forall i | 0 <= i < |slots| && slots[i].Some?
        ensures slots[i].value.Right() <= r.width && slots[i].value.Bottom() <= r.height
      {
        if i > 0 { assert slots[i] == tail[i - 1]; }
      }
      if r.width != acc.width {
        if r.width == next.width {
          assert slots[0].Some? && slots[0].value.Right() == r.width;
        } else {
          var j :| 0 <= j < |tail| && tail[j].Some? && tail[j].value.Right() == r.width;
          assert slots[j + 1] == tail[j];
        }
      }
      if r.height != acc.height {
        if r.height == next.height {
          assert slots[0].Some? && slots[0].value.Bottom() == r.height;
        } else {
          var j :| 0 <= j < |tail| && tail[j].Some? && tail[j].value.Bottom() == r.height;
          assert slots[j + 1] == tail[j];
        }
      }
    }
  }

  /**
   * The mix size is the bounding box of its occupied slots measured from the
   * origin: never negative, no slot sticks out, and each dimension is either 0
   * or reached by some slot's right (bottom) edge.
   */
  lemma ExtentIsBoundingBox(slots: seq<Option<Rect>>)
    ensures var s := Extent(slots);
      && 0 <= s.width && 0 <= s.height
      && Covers(slots, s)
      && (s.width == 0 || RightReached(slots, s.width))
      && (s.height == 0 || BottomReached(slots, s.height))
  {
    ReduceIsMax(slots, Size(0, 0));
  }

  /** A table whose slots are all empty has size 0 x 0. */
  lemma {:induction false} EmptyTableExtent(slots: seq<Option<Rect>>)
    requires forall i | 0 <= i < |slots| :: slots[i].None?
    ensures Extent(slots) == Size(0, 0)
  {
    ExtentIsBoundingBox(slots);
  }

  /** Two overlapping 100 x 100 slots at (0,0) and (50,50) give a 150 x 150 mix. */
  lemma TwoSlotExample()
    ensures Extent([Some(Rect(0, 0, 100, 100)), Some(Rect(50, 50, 100, 100))]) == Size(150, 150)
  {
  }
}
