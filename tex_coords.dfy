/**
 * Texture-coordinate tables written into a node's texture-coordinate buffer,
 * as flat (u, v) pairs in the order bottom-left, top-left, bottom-right,
 * top-right of the quad.
 */
module TexCoords {

  /** The table every GPU node starts with. */
  const BaseTable: seq<int> := [0, 0, 0, 1, 1, 0, 1, 1]

  /** The mirror node's table. */
  const MirrorTable: seq<int> := [1, 0, 1, 1, 0, 0, 0, 1]

  /** The destination node's table (screen coordinates run top-down). */
  const DestinationTable: seq<int> := [0, 1, 0, 0, 1, 1, 1, 0]

  predicate Pairs(t: seq<int>) { |t| % 2 == 0 }

  /** Replace every u by 1 - u, keep every v: a horizontal flip. */
  function FlipU(t: seq<int>): (r: seq<int>)
    requires Pairs(t)
    ensures |r| == |t|
    ensures forall k | 0 <= k < |t| :: r[k] == (if k % 2 == 0 then 1 - t[k] else t[k])
    decreases |t|
  {
    if t == [] then [] else [1 - t[0], t[1]] + FlipU(t[2..])
  }

  /** Replace every v by 1 - v, keep every u: a vertical flip. */
  function FlipV(t: seq<int>): (r: seq<int>)
    requires Pairs(t)
    ensures |r| == |t|
    ensures forall k | 0 <= k < |t| :: r[k] == (if k % 2 == 1 then 1 - t[k] else t[k])
    decreases |t|
  {
    if t == [] then [] else [t[0], 1 - t[1]] + FlipV(t[2..])
  }

  /** The mirror table is the base table flipped horizontally. */
  lemma MirrorIsHorizontalFlip()
    ensures MirrorTable == FlipU(BaseTable)
  {
    var f := FlipU(BaseTable);
    assert f[0] == 1 && f[1] == 0 && f[2] == 1 && f[3] == 1;
    assert f[4] == 0 && f[5] == 0 && f[6] == 0 && f[7] == 1;
  }

  /** The destination table is the base table flipped vertically. */
  lemma DestinationIsVerticalFlip()
    ensures DestinationTable == FlipV(BaseTable)
  {
    var f := FlipV(BaseTable);
    assert f[0] == 0 && f[1] == 1 && f[2] == 0 && f[3] == 0;
    assert f[4] == 1 && f[5] == 1 && f[6] == 1 && f[7] == 0;
  }

  /** Flipping twice restores the table, so mirroring a mirrored picture gives the original. */
  lemma FlipUInvolutive(t: seq<int>)
    requires Pairs(t)
    ensures Pairs(FlipU(t)) && FlipU(FlipU(t)) == t
  {
    var once := FlipU(t);
    var twice := FlipU(once);
    forall k | 0 <= k < |t| ensures twice[k] == t[k] {
    }
  }
}
