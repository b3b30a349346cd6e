/**
 * The mix node's sparse slot table: a JavaScript array indexed by zIndex in
 * which a missing index means "no slot". Insertion refuses an occupied index;
 * removal clears the first slot holding a given key and never compacts.
 */
module SlotTable {
  import opened Js

  predicate Occupied<T>(t: seq<Option<T>>, z: nat) {
    z < |t| && t[z].Some?
  }

  /** `t[z] = v` on a JavaScript array: grows the array with holes when `z` is past its end. */
  function Place<T>(t: seq<Option<T>>, z: nat, v: T): (r: seq<Option<T>>)
    requires !Occupied(t, z)
    ensures |r| == (if z < |t| then |t| else z + 1)
    ensures r[z] == Some(v)
    ensures forall i | 0 <= i < |r| && i != z :: r[i] == (if i < |t| then t[i] else None)
  {
    if z < |t| then t[z := Some(v)] else t + seq(z - |t|, _ => None) + [Some(v)]
  }

  predicate Holds<T, K(==)>(t: seq<Option<T>>, i: int, key: T -> K, k: K) {
    0 <= i < |t| && t[i].Some? && key(t[i].value) == k
  }

  /** `findIndex(slot => slot?.key === k)`: the first index holding `k`, or -1. */
  function IndexOf<T, K(==)>(t: seq<Option<T>>, key: T -> K, k: K): (r: int)
    ensures -1 <= r < |t|
    ensures r >= 0 ==> Holds(t, r, key, k)
    ensures forall j | 0 <= j < |t| && (r < 0 || j < r) :: !Holds(t, j, key, k)
    decreases |t|
  {
    if t == [] then -1
    else if t[0].Some? && key(t[0].value) == k then 0
    else
      var r := IndexOf(t[1..], key, k);
      assert forall j | 1 <= j < |t| :: Holds(t, j, key, k) == Holds(t[1..], j - 1, key, k);
      if r < 0 then -1 else r + 1
  }

  /**
   * `t[t.findIndex(...)] = undefined`: clears the first slot holding `k`. When
   * nothing holds `k` the index is -1, which is not an array index, and the
   * table is left as it was.
   */
  function Remove<T, K(==)>(t: seq<Option<T>>, key: T -> K, k: K): (r: seq<Option<T>>)
    ensures |r| == |t|
    ensures var i := IndexOf(t, key, k);
      forall j | 0 <= j < |t| :: r[j] == (if j == i then None else t[j])
  {
    var i := IndexOf(t, key, k);
    if i < 0 then t else t[i := None]
  }

  /** Inserting at an occupied index is refused, so two slots never share a zIndex. */
  lemma PlaceKeepsOthers<T>(t: seq<Option<T>>, z: nat, v: T, i: nat)
    requires !Occupied(t, z) && i < |t| && i != z
    ensures Place(t, z, v)[i] == t[i]
  {
  }

  /**
   * Removing a key that was just inserted at a free index (and held nowhere
   * else) leaves that index empty and every other index as before: the
   * table is the original one, padded with holes up to `z`.
   */
  lemma {:induction false} PlaceThenRemove<T, K>(t: seq<Option<T>>, z: nat, v: T, key: T -> K)
    requires !Occupied(t, z)
    requires forall j | 0 <= j < |t| :: !Holds(t, j, key, key(v))
    ensures var r := Remove(Place(t, z, v), key, key(v));
      && |r| == (if z < |t| then |t| else z + 1)
      && r[z].None?
      && forall j | 0 <= j < |r| && j != z :: r[j] == (if j < |t| then t[j] else None)
  {
    var p := Place(t, z, v);
    assert Holds(p, z, key, key(v));
    forall j | 0 <= j < |p| && j != z ensures !Holds(p, j, key, key(v)) {
      if j < |t| {
        assert p[j] == t[j] && !Holds(t, j, key, key(v));
      } else {
        assert p[j].None?;
      }
    }
    assert IndexOf(p, key, key(v)) == z;
  }

  /** Removing a key no slot holds leaves the dense table as it is (what the write at index -1 does is `Graph.Dropped`'s part). */
  lemma RemoveAbsent<T, K>(t: seq<Option<T>>, key: T -> K, k: K)
    requires forall j | 0 <= j < |t| :: !Holds(t, j, key, k)
    ensures Remove(t, key, k) == t
  {
  }
}
