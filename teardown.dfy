/**
 * Disconnecting and closing, as changes to the node table: a node's
 * `disconnect` (`Unlinked`), its `close` (`Closing`), the loop in which a
 * closing mix disconnects the child of every slot (`SlotsUnlinked`), and the
 * context's `disconnect` event closing one listening node after another
 * (`AllClosed`), each with the release calls it makes on the GPU path.
 */
module Teardown {
  import opened Js
  import opened Lifecycle
  import opened SlotTable
  import opened Graph

  /** `disconnect` by `id`: a connected node is detached; in any other state nothing happens. */
  function Unlinked(t: map<NodeId, Node>, id: NodeId): (r: map<NodeId, Node>)
    requires id in t
    ensures r.Keys == t.Keys
  {
    if t[id].state == Connected then Detached(t, id) else t
  }

  /** `disconnect` only removes edges, and leaves the node unconnected. */
  lemma UnlinkedUnplugs(t: map<NodeId, Node>, id: NodeId)
    requires id in t
    ensures AllUnplugged(t, Unlinked(t, id)) && Unlinked(t, id)[id].state != Connected
    ensures NodeNext(t[id].state, Disconnect).Some? ==> Unlinked(t, id)[id].state == NodeNext(t[id].state, Disconnect).value
    ensures NodeNext(t[id].state, Disconnect).None? ==> Unlinked(t, id) == t
  {
    if t[id].state == Connected {
      DetachedIsUnplugged(t, id);
    }
  }

  /**
   * The first steps of `close` on `id`: its output removes it, then the node
   * drops its output and shuts its own surface and tracks.
   */
  function Unhooked(t: map<NodeId, Node>, id: NodeId): (r: map<NodeId, Node>)
    requires id in t
    ensures r.Keys == t.Keys
  {
    var n := t[id];
    var t' := if n.output.Some? && n.output.value in t then t[n.output.value := Dropped(t[n.output.value], id)] else t;
    t'[id := Shut(t'[id])]
  }

  /** The first steps of `close` only remove edges; the node ends closed without an output. */
  lemma UnhookedUnplugs(t: map<NodeId, Node>, id: NodeId)
    requires id in t
    ensures var r := Unhooked(t, id);
      && AllUnplugged(t, r) && r[id].state == Closed && r[id].output.None?
      && (t[id].output != Some(id) ==> r[id] == Shut(t[id]))
  {
    var r := Unhooked(t, id);
    var n := t[id];
    if n.output == Some(id) {
      var d := Dropped(n, id);
      assert Unplugged(n, d) && Unplugged(d, Shut(d));
      assert Unplugged(n, r[id]);
    }
    forall j | j in t ensures Unplugged(t[j], r[j]) {
      if j != id {
        assert r[j] == t[j] || r[j] == Dropped(t[j], id);
      }
    }
  }

  /** One pass of the mix's loop: the child in slot `i`, if the slot is still there and taken, disconnects. */
  function UnlinkSlot(t: map<NodeId, Node>, mix: NodeId, i: nat): (r: map<NodeId, Node>)
    requires mix in t
    ensures r.Keys == t.Keys
  {
    if i < |t[mix].inputs| && t[mix].inputs[i].Some? && t[mix].inputs[i].value.node in t
    then Unlinked(t, t[mix].inputs[i].value.node)
    else t
  }

  /**
   * The rest of a closing mix's loop, slots `i` up to `n` (the slot count when
   * the loop began): each slot is read as it is when the loop reaches it, and
   * its child, if any, disconnects.
   */
  function SlotsUnlinked(t: map<NodeId, Node>, mix: NodeId, i: nat, n: nat): (r: map<NodeId, Node>)
    requires mix in t
    ensures r.Keys == t.Keys
    decreases n - i
  {
    if i >= n then t
    else SlotsUnlinked(UnlinkSlot(t, mix, i), mix, i + 1, n)
  }

  /** The vertex buffer one pass of the mix's loop releases: that of slot `i`, if it is taken and has one. */
  function SlotBufferDelete(t: map<NodeId, Node>, mix: NodeId, i: nat): (r: seq<Op>)
    requires mix in t
    ensures |r| <= 1
  {
    if i < |t[mix].inputs| && t[mix].inputs[i].Some? && t[mix].inputs[i].value.positionBuffer.Some?
    then [DeleteHandle(t[mix].inputs[i].value.positionBuffer.value)]
    else []
  }

  /** The vertex buffers released by the rest of a closing mix's loop, slots `i` up to `n`, in slot order. */
  function SlotBufferDeletes(t: map<NodeId, Node>, mix: NodeId, i: nat, n: nat): (r: seq<Op>)
    requires mix in t
    ensures |r| <= if i <= n then n - i else 0
    decreases n - i
  {
    if i >= n then []
    else SlotBufferDelete(t, mix, i) + SlotBufferDeletes(UnlinkSlot(t, mix, i), mix, i + 1, n)
  }

  /** The mix's loop only releases: every call it makes is a delete. */
  lemma {:induction false} SlotBufferDeletesOnlyDelete(t: map<NodeId, Node>, mix: NodeId, i: nat, n: nat)
    requires mix in t
    ensures forall k | 0 <= k < |SlotBufferDeletes(t, mix, i, n)| :: SlotBufferDeletes(t, mix, i, n)[k].DeleteHandle?
    decreases n - i
  {
    if i < n {
      SlotBufferDeletesOnlyDelete(UnlinkSlot(t, mix, i), mix, i + 1, n);
    }
  }

  /** Running the mix's loop one slot further is one more pass after the shorter run. */
  lemma {:induction false} SlotsUnlinkedSnoc(t: map<NodeId, Node>, mix: NodeId, i: nat, n: nat)
    requires mix in t && i <= n
    ensures SlotsUnlinked(t, mix, i, n + 1) == UnlinkSlot(SlotsUnlinked(t, mix, i, n), mix, n)
    ensures SlotBufferDeletes(t, mix, i, n + 1)
      == SlotBufferDeletes(t, mix, i, n) + SlotBufferDelete(SlotsUnlinked(t, mix, i, n), mix, n)
    decreases n - i
  {
    if i < n {
      var u := UnlinkSlot(t, mix, i);
      SlotsUnlinkedSnoc(u, mix, i + 1, n);
      assert SlotBufferDeletes(t, mix, i, n + 1) == SlotBufferDelete(t, mix, i) + SlotBufferDeletes(u, mix, i + 1, n + 1);
    }
  }

  /** A disconnect by the child of slot `i` keeps the mix's slot count and leaves every later slot alone. */
  lemma UnlinkSlotKeepsLater(t: map<NodeId, Node>, mix: NodeId, i: nat)
    requires mix in t && i < |t[mix].inputs| && SlotsKnown(t, mix, i)
    ensures |UnlinkSlot(t, mix, i)[mix].inputs| == |t[mix].inputs|
    ensures forall k | i < k < |t[mix].inputs| :: UnlinkSlot(t, mix, i)[mix].inputs[k] == t[mix].inputs[k]
  {
    var s := t[mix].inputs[i];
    if s.Some? && s.value.node in t {
      var c := s.value.node;
      UnlinkedUnplugs(t, c);
      assert Unplugged(t[mix], UnlinkSlot(t, mix, i)[mix]);
      if t[c].state == Connected && t[c].output == Some(mix) {
        var r := Remove(t[mix].inputs, SlotNode, c);
        assert Holds(t[mix].inputs, i, SlotNode, c);
        assert IndexOf(t[mix].inputs, SlotNode, c) <= i;
        assert UnlinkSlot(t, mix, i)[mix] == Dropped(t[mix], c);
      }
    }
  }

  /** The rest of the mix's loop only removes edges. */
  lemma {:induction false} SlotsUnlinkedUnplugs(t: map<NodeId, Node>, mix: NodeId, i: nat, n: nat)
    requires mix in t
    ensures AllUnplugged(t, SlotsUnlinked(t, mix, i, n))
    decreases n - i
  {
    if i < n {
      var u := UnlinkSlot(t, mix, i);
      if i < |t[mix].inputs| && t[mix].inputs[i].Some? && t[mix].inputs[i].value.node in t {
        UnlinkedUnplugs(t, t[mix].inputs[i].value.node);
      }
      SlotsUnlinkedUnplugs(u, mix, i + 1, n);
      UnpluggedTransitive(t, u, SlotsUnlinked(u, mix, i + 1, n));
    }
  }

  /** Every occupied slot of the mix from `i` on names another node of the table. */
  predicate SlotsKnown(t: map<NodeId, Node>, mix: NodeId, i: nat)
    requires mix in t
  {
    forall k | i <= k < |t[mix].inputs| && t[mix].inputs[k].Some? ::
      t[mix].inputs[k].value.node in t && t[mix].inputs[k].value.node != mix
  }

  /** Every child that sat in a slot from `i` on when the rest of the mix's loop began ends unconnected. */
  lemma {:induction false} SlotsUnlinkedDisconnects(t: map<NodeId, Node>, mix: NodeId, i: nat)
    requires mix in t && i <= |t[mix].inputs| && SlotsKnown(t, mix, i)
    ensures forall k | i <= k < |t[mix].inputs| && t[mix].inputs[k].Some? ::
      SlotsUnlinked(t, mix, i, |t[mix].inputs|)[t[mix].inputs[k].value.node].state != Connected
    decreases |t[mix].inputs| - i
  {
    if i < |t[mix].inputs| {
      var u := UnlinkSlot(t, mix, i);
      var r := SlotsUnlinked(u, mix, i + 1, |t[mix].inputs|);
      var s := t[mix].inputs[i];
      UnlinkSlotKeepsLater(t, mix, i);
      assert SlotsKnown(u, mix, i + 1);
      SlotsUnlinkedDisconnects(u, mix, i + 1);
      if s.Some? {
        var c := s.value.node;
        UnlinkedUnplugs(t, c);
        SlotsUnlinkedUnplugs(u, mix, i + 1, |t[mix].inputs|);
        assert Unplugged(u[c], r[c]);
      }
      forall k | i < k < |t[mix].inputs| && t[mix].inputs[k].Some?
        ensures r[t[mix].inputs[k].value.node].state != Connected
      {
        assert u[mix].inputs[k] == t[mix].inputs[k];
      }
    }
  }

  /** `close` of `id` up to the mix's loop: the node is unhooked from its output, and its input disconnects. */
  function SelfClosed(t: map<NodeId, Node>, id: NodeId): (r: map<NodeId, Node>)
    requires id in t
    ensures r.Keys == t.Keys
  {
    var t2 := Unhooked(t, id);
    var input := t2[id].input;
    if input.Some? && input.value in t2 then Unlinked(t2, input.value) else t2
  }

  /**
   * `close` of `id`: the node is unhooked and shut, its input disconnects,
   * and a mix then disconnects the child of every slot. On a closed node the
   * lifecycle refuses the base `close`, but the overrides still run what
   * follows it: a mix's loop over its slots, a track node's retiring.
   */
  function Closing(t: map<NodeId, Node>, id: NodeId): (r: map<NodeId, Node>)
    requires id in t
    ensures r.Keys == t.Keys
  {
    if t[id].state == Closed then
      if t[id].kind.MixNode? then SlotsUnlinked(t, id, 0, |t[id].inputs|) else t[id := Retired(t[id])]
    else
      var t3 := SelfClosed(t, id);
      if t[id].kind.MixNode? then SlotsUnlinked(t3, id, 0, |t3[id].inputs|) else t3
  }

  /**
   * The release calls of `close` on the GPU path: the node's own resources
   * (never the shared program), then a mix's slot buffers. On a closed node
   * only a mix's loop runs, releasing the buffers of the slots still taken.
   */
  function CloseOps(t: map<NodeId, Node>, id: NodeId, gl: bool, shared: Option<Handle>): (r: seq<Op>)
    requires id in t
    ensures !gl ==> r == []
    ensures t[id].state == Closed && !t[id].kind.MixNode? ==> r == []
    ensures t[id].state == Closed ==> |r| <= |t[id].inputs|
  {
    if !gl then []
    else if t[id].state == Closed then
      if t[id].kind.MixNode? then SlotBufferDeletes(t, id, 0, |t[id].inputs|) else []
    else
      Deletes(Released(t[id], shared))
      + (if t[id].kind.MixNode? then SlotBufferDeletes(SelfClosed(t, id), id, 0, |SelfClosed(t, id)[id].inputs|) else [])
  }

  /** `close` of `id` up to the mix's loop only removes edges; the node ends shut and its input unconnected. */
  lemma SelfClosedUnplugs(t: map<NodeId, Node>, id: NodeId)
    requires id in t
    ensures var r := SelfClosed(t, id);
      && AllUnplugged(t, r) && r[id].state == Closed && r[id].output.None?
      && (t[id].output != Some(id) && t[id].input.Some? && t[id].input.value in t ==>
            r[t[id].input.value].state != Connected)
  {
    var t2 := Unhooked(t, id);
    UnhookedUnplugs(t, id);
    var input := t2[id].input;
    if input.Some? && input.value in t2 {
      UnlinkedUnplugs(t2, input.value);
      UnpluggedTransitive(t, t2, SelfClosed(t, id));
      assert Unplugged(t2[id], SelfClosed(t, id)[id]);
    }
  }

  /**
   * `close` only removes edges, and the node ends closed (and without an
   * output, if it was open) with its tracks retired. When the lifecycle
   * refuses the close, a node other than a mix whose tracks are already
   * retired is left as it was.
   */
  lemma ClosingUnplugs(t: map<NodeId, Node>, id: NodeId)
    requires id in t
    ensures AllUnplugged(t, Closing(t, id))
    ensures Closing(t, id)[id].state == Closed && Retired(Closing(t, id)[id]) == Closing(t, id)[id]
    ensures t[id].state != Closed ==> Closing(t, id)[id].output.None?
    ensures NodeNext(t[id].state, Close).Some? ==> Closing(t, id)[id].state == NodeNext(t[id].state, Close).value
    ensures NodeNext(t[id].state, Close).None? && !t[id].kind.MixNode? && Retired(t[id]) == t[id] ==> Closing(t, id) == t
  {
    if t[id].state == Closed {
      if t[id].kind.MixNode? {
        SlotsUnlinkedUnplugs(t, id, 0, |t[id].inputs|);
        assert Unplugged(t[id], Closing(t, id)[id]);
      }
    } else {
      UnhookedUnplugs(t, id);
      ClosingAfterUnhook(t, id);
      assert Unplugged(Unhooked(t, id)[id], Closing(t, id)[id]);
      RetiredStays(Unhooked(t, id)[id], Closing(t, id)[id]);
      var t3 := SelfClosed(t, id);
      SelfClosedUnplugs(t, id);
      if t[id].kind.MixNode? {
        var r := SlotsUnlinked(t3, id, 0, |t3[id].inputs|);
        SlotsUnlinkedUnplugs(t3, id, 0, |t3[id].inputs|);
        UnpluggedTransitive(t, t3, r);
        assert Unplugged(t3[id], r[id]);
      }
    }
  }

  /** Closing a node other than a mix a second time changes nothing. */
  lemma ClosingTwice(t: map<NodeId, Node>, id: NodeId)
    requires id in t && !t[id].kind.MixNode?
    ensures Closing(Closing(t, id), id) == Closing(t, id)
  {
    ClosingUnplugs(t, id);
    ClosingUnplugs(Closing(t, id), id);
  }

  /** `close` keeps the table sound. */
  lemma ClosingKeepsSound(t: map<NodeId, Node>, id: NodeId, rank: map<NodeId, nat>, bound: nat)
    requires id in t && Sound(t, rank, bound)
    ensures Sound(Closing(t, id), rank, bound)
  {
    ClosingUnplugs(t, id);
    UnpluggedKeepsSound(t, Closing(t, id), rank, bound);
  }

  /** Whatever `close` does after its first steps only removes edges. */
  lemma ClosingAfterUnhook(t: map<NodeId, Node>, id: NodeId)
    requires id in t && t[id].state != Closed
    ensures AllUnplugged(Unhooked(t, id), Closing(t, id))
  {
    var t2 := Unhooked(t, id);
    var t3 := SelfClosed(t, id);
    if t2[id].input.Some? && t2[id].input.value in t2 {
      UnlinkedUnplugs(t2, t2[id].input.value);
    }
    if t[id].kind.MixNode? {
      SlotsUnlinkedUnplugs(t3, id, 0, |t3[id].inputs|);
      UnpluggedTransitive(t2, t3, Closing(t, id));
    }
  }

  /**
   * After `close` the node's former output no longer holds it: a mix has
   * emptied the first slot that held it, any other node has no input.
   */
  lemma ClosingReleasesOutput(t: map<NodeId, Node>, id: NodeId)
    requires id in t && t[id].state != Closed && t[id].output.Some?
    requires t[id].output.value in t && t[id].output.value != id
    ensures var o := t[id].output.value; var r := Closing(t, id);
      && o in r && |r[o].inputs| == |t[o].inputs|
      && (!t[o].kind.MixNode? ==> r[o].input.None?)
      && (t[o].kind.MixNode? && IndexOf(t[o].inputs, SlotNode, id) >= 0 ==>
            r[o].inputs[IndexOf(t[o].inputs, SlotNode, id)].None?)
  {
    var o := t[id].output.value;
    var t2 := Unhooked(t, id);
    assert t2[o] == Dropped(t[o], id);
    ClosingAfterUnhook(t, id);
    assert Unplugged(t2[o], Closing(t, id)[o]);
  }

  /**
   * After `close` the node's input (if it was open) and, for a mix, the
   * child of every slot it had are unconnected: closing a closed mix again
   * disconnects the children still in its slots.
   */
  lemma ClosingDisconnects(t: map<NodeId, Node>, id: NodeId, rank: map<NodeId, nat>, bound: nat)
    requires id in t && t.Keys == rank.Keys && Linked(t, rank, bound, id)
    ensures var r := Closing(t, id);
      && (t[id].state != Closed && t[id].input.Some? ==> t[id].input.value in r && r[t[id].input.value].state != Connected)
      && (t[id].kind.MixNode? ==> forall k | 0 <= k < |t[id].inputs| && t[id].inputs[k].Some? ::
            t[id].inputs[k].value.node in r && r[t[id].inputs[k].value.node].state != Connected)
  {
    if t[id].state == Closed {
      if t[id].kind.MixNode? {
        assert SlotsKnown(t, id, 0);
        SlotsUnlinkedDisconnects(t, id, 0);
      }
      return;
    }
    var t3 := SelfClosed(t, id);
    SelfClosedUnplugs(t, id);
    UnhookedUnplugs(t, id);
    if t[id].kind.MixNode? {
      assert t3[id].inputs == t[id].inputs by {
        assert Unhooked(t, id)[id].input.None?;
      }
      assert SlotsKnown(t3, id, 0);
      SlotsUnlinkedDisconnects(t3, id, 0);
    }
  }

  /** One listener of the context's `disconnect` event: its node, if it is in the table and not closed, closes. */
  function CloseListed(t: map<NodeId, Node>, l: NodeId): (r: map<NodeId, Node>)
    ensures r.Keys == t.Keys
  {
    if l in t && t[l].state != Closed then Closing(t, l) else t
  }

  /** The table after the first `i` listeners of the context's `disconnect` event have run, in order. */
  function AllClosed(t: map<NodeId, Node>, ls: seq<NodeId>, i: nat): (r: map<NodeId, Node>)
    requires i <= |ls|
    ensures r.Keys == t.Keys
  {
    if i == 0 then t else CloseListed(AllClosed(t, ls, i - 1), ls[i - 1])
  }

  /** The call log `log` extended by the release calls those listeners make, in order. */
  function AllClosedOps(log: seq<Op>, t: map<NodeId, Node>, ls: seq<NodeId>, i: nat, gl: bool, shared: Option<Handle>): (r: seq<Op>)
    requires i <= |ls|
    ensures log <= r
    ensures !gl ==> r == log
  {
    if i == 0 then log
    else
      var u := AllClosed(t, ls, i - 1);
      AllClosedOps(log, t, ls, i - 1, gl, shared) + ListenedOps(u, ls[i - 1], gl, shared)
  }

  /** The release calls of one listener of the `disconnect` event: those of its node's `close`, unless it is closed. */
  function ListenedOps(t: map<NodeId, Node>, l: NodeId, gl: bool, shared: Option<Handle>): (r: seq<Op>)
    ensures !gl || l !in t || t[l].state == Closed ==> r == []
  {
    if l in t && t[l].state != Closed then CloseOps(t, l, gl, shared) else []
  }

  /** One more listener of the `disconnect` event: its node closes in the table the earlier ones left, and its release calls follow theirs. */
  lemma AllClosedStep(log: seq<Op>, t: map<NodeId, Node>, ls: seq<NodeId>, i: nat, gl: bool, shared: Option<Handle>)
    requires i < |ls|
    ensures AllClosed(t, ls, i + 1) == CloseListed(AllClosed(t, ls, i), ls[i])
    ensures AllClosedOps(log, t, ls, i + 1, gl, shared)
      == AllClosedOps(log, t, ls, i, gl, shared) + ListenedOps(AllClosed(t, ls, i), ls[i], gl, shared)
    ensures AllClosedCleared(t, ls, i + 1) == AllClosedCleared(t, ls, i) + ListenCleared(AllClosed(t, ls, i), ls[i])
  {
  }

  /** The `disconnect` event only removes edges. */
  lemma {:induction false} AllClosedUnplugs(t: map<NodeId, Node>, ls: seq<NodeId>, i: nat)
    requires i <= |ls|
    ensures AllUnplugged(t, AllClosed(t, ls, i))
  {
    if i > 0 {
      var u := AllClosed(t, ls, i - 1);
      AllClosedUnplugs(t, ls, i - 1);
      if ls[i - 1] in u {
        ClosingUnplugs(u, ls[i - 1]);
      }
      UnpluggedTransitive(t, u, AllClosed(t, ls, i));
    }
  }

  /** After the first `i` listeners have run, each of their nodes that is in the table is closed. */
  lemma {:induction false} AllClosedCloses(t: map<NodeId, Node>, ls: seq<NodeId>, i: nat)
    requires i <= |ls|
    ensures forall k | 0 <= k < i && ls[k] in t :: AllClosed(t, ls, i)[ls[k]].state == Closed
  {
    if i > 0 {
      var u := AllClosed(t, ls, i - 1);
      var r := AllClosed(t, ls, i);
      AllClosedCloses(t, ls, i - 1);
      if ls[i - 1] in u {
        ClosingUnplugs(u, ls[i - 1]);
      }
      forall k | 0 <= k < i - 1 && ls[k] in t ensures r[ls[k]].state == Closed {
        assert Unplugged(u[ls[k]], r[ls[k]]);
      }
    }
  }

  // ------------------------------------------------------------ cleared intervals

  /** The timer intervals of the destinations of `t`. */
  function Intervals(t: map<NodeId, Node>): set<nat> {
    set j | j in t && t[j].kind.IsDestination() :: t[j].intervalId
  }

  /** The interval `removeInput` on `o` clears: a destination's own, none otherwise. */
  function DropCleared(t: map<NodeId, Node>, o: NodeId): (r: set<nat>)
    ensures o in t && t[o].kind.IsDestination() ==> r == {t[o].intervalId}
  {
    if o in t && t[o].kind.IsDestination() then {t[o].intervalId} else {}
  }

  /** The interval `disconnect` by `id` clears: that of its output, if it is connected. */
  function UnlinkCleared(t: map<NodeId, Node>, id: NodeId): (r: set<nat>)
    requires id in t
    ensures t[id].state != Connected ==> r == {}
  {
    if t[id].state == Connected && t[id].output.Some? then DropCleared(t, t[id].output.value) else {}
  }

  /** The interval one pass of a closing mix's loop clears, over slot `i`. */
  function SlotCleared(t: map<NodeId, Node>, mix: NodeId, i: nat): (r: set<nat>)
    requires mix in t
  {
    if i < |t[mix].inputs| && t[mix].inputs[i].Some? && t[mix].inputs[i].value.node in t
    then UnlinkCleared(t, t[mix].inputs[i].value.node)
    else {}
  }

  /** The intervals the rest of a closing mix's loop clears, slots `i` up to `n`, each read in the table the earlier passes left. */
  function SlotsCleared(t: map<NodeId, Node>, mix: NodeId, i: nat, n: nat): (r: set<nat>)
    requires mix in t
    decreases n - i
  {
    if i >= n then {} else SlotCleared(t, mix, i) + SlotsCleared(UnlinkSlot(t, mix, i), mix, i + 1, n)
  }

  /** The intervals the first steps of `close` clear: the output's as it drops the node, then the node's own if its input disconnects from it. */
  function UnhookCleared(t: map<NodeId, Node>, id: NodeId): (r: set<nat>)
    requires id in t
  {
    var t2 := Unhooked(t, id);
    var input := t2[id].input;
    (if t[id].output.Some? then DropCleared(t, t[id].output.value) else {})
    + (if input.Some? && input.value in t2 then UnlinkCleared(t2, input.value) else {})
  }

  /** The intervals `close` of `id` clears, in the tables its steps pass through (`Closing`). */
  function CloseCleared(t: map<NodeId, Node>, id: NodeId): (r: set<nat>)
    requires id in t
  {
    if t[id].state == Closed then
      if t[id].kind.MixNode? then SlotsCleared(t, id, 0, |t[id].inputs|) else {}
    else
      var t3 := SelfClosed(t, id);
      UnhookCleared(t, id) + if t[id].kind.MixNode? then SlotsCleared(t3, id, 0, |t3[id].inputs|) else {}
  }

  /** The intervals one listener of the `disconnect` event clears: those of its node's `close`, unless it is closed. */
  function ListenCleared(t: map<NodeId, Node>, l: NodeId): (r: set<nat>) {
    if l in t && t[l].state != Closed then CloseCleared(t, l) else {}
  }

  /** The intervals the first `i` listeners of the `disconnect` event clear, in order. */
  function AllClosedCleared(t: map<NodeId, Node>, ls: seq<NodeId>, i: nat): (r: set<nat>)
    requires i <= |ls|
  {
    if i == 0 then {} else AllClosedCleared(t, ls, i - 1) + ListenCleared(AllClosed(t, ls, i - 1), ls[i - 1])
  }

  /** Removing edges keeps every node's kind and interval id, so the destinations' intervals stay. */
  lemma UnpluggedKeepsIntervals(a: map<NodeId, Node>, b: map<NodeId, Node>)
    requires AllUnplugged(a, b)
    ensures Intervals(a) == Intervals(b)
  {
    forall j | j in a ensures b[j].kind == a[j].kind && b[j].intervalId == a[j].intervalId {
      assert Unplugged(a[j], b[j]);
    }
  }

  /** A disconnect clears only the interval of a destination of the table. */
  lemma UnlinkClearedDestinations(t: map<NodeId, Node>, id: NodeId)
    requires id in t
    ensures UnlinkCleared(t, id) <= Intervals(t)
  {
    if t[id].state == Connected && t[id].output.Some? {
      var o := t[id].output.value;
      if o in t && t[o].kind.IsDestination() {
        assert t[o].intervalId in Intervals(t);
      }
    }
  }

  /** Running the mix's loop one slot further clears what the shorter run cleared and what the next pass clears. */
  lemma {:induction false} SlotsClearedSnoc(t: map<NodeId, Node>, mix: NodeId, i: nat, n: nat)
    requires mix in t && i <= n
    ensures SlotsCleared(t, mix, i, n + 1) == SlotsCleared(t, mix, i, n) + SlotCleared(SlotsUnlinked(t, mix, i, n), mix, n)
    decreases n - i
  {
    if i < n {
      SlotsClearedSnoc(UnlinkSlot(t, mix, i), mix, i + 1, n);
    }
  }

  /** A closing mix's loop clears only intervals of destinations of the table it starts from. */
  lemma {:induction false} SlotsClearedDestinations(t: map<NodeId, Node>, mix: NodeId, i: nat, n: nat)
    requires mix in t
    ensures SlotsCleared(t, mix, i, n) <= Intervals(t)
    decreases n - i
  {
    if i < n {
      var u := UnlinkSlot(t, mix, i);
      SlotsClearedDestinations(u, mix, i + 1, n);
      if i < |t[mix].inputs| && t[mix].inputs[i].Some? && t[mix].inputs[i].value.node in t {
        UnlinkedUnplugs(t, t[mix].inputs[i].value.node);
        UnlinkClearedDestinations(t, t[mix].inputs[i].value.node);
      }
      UnpluggedKeepsIntervals(t, u);
    }
  }

  /**
   * `close` clears only intervals of destinations of the table, and when
   * the node was open and its output a destination, that destination's
   * interval is among them.
   */
  lemma CloseClearedDestinations(t: map<NodeId, Node>, id: NodeId)
    requires id in t
    ensures CloseCleared(t, id) <= Intervals(t)
    ensures var o := t[id].output;
      t[id].state != Closed && o.Some? && o.value in t && t[o.value].kind.IsDestination() ==>
        t[o.value].intervalId in CloseCleared(t, id)
  {
    if t[id].state == Closed {
      SlotsClearedDestinations(t, id, 0, |t[id].inputs|);
    } else {
      var t2 := Unhooked(t, id);
      var t3 := SelfClosed(t, id);
      UnhookedUnplugs(t, id);
      UnpluggedKeepsIntervals(t, t2);
      if t[id].output.Some? {
        var o := t[id].output.value;
        if o in t && t[o].kind.IsDestination() {
          assert t[o].intervalId in Intervals(t);
        }
      }
      if t2[id].input.Some? && t2[id].input.value in t2 {
        UnlinkClearedDestinations(t2, t2[id].input.value);
      }
      SelfClosedUnplugs(t, id);
      UnpluggedKeepsIntervals(t, t3);
      SlotsClearedDestinations(t3, id, 0, |t3[id].inputs|);
    }
  }
}
