/**
 * What one `requestFrame` promises, node kind by node kind, and the tree of
 * requests it makes: of a mirror's or destination's input, of each child of
 * a mix's slots, and so on down to the sources.
 */
module Requests {
  import opened Js
  import opened MixGeometry
  import opened SourceFrames
  import opened Media
  import opened Graph

  /** `j` counts more frames in `b` than in `a`. */
  ghost predicate Grew(a: map<NodeId, Node>, b: map<NodeId, Node>, j: NodeId) {
    j in a && j in b && a[j].totalFrames < b[j].totalFrames
  }

  /** The input `id` had in `a` counts exactly one more frame in `b`. */
  ghost predicate InputAdvanced(a: map<NodeId, Node>, b: map<NodeId, Node>, id: NodeId)
    requires id in a
  {
    a[id].input.Some? && a[id].input.value in a && a[id].input.value in b
    && b[a[id].input.value].totalFrames == a[a[id].input.value].totalFrames + 1
  }

  /** Some child in a slot of the mix `mix`, as the slots were in `a`, counts more frames in `b`. */
  ghost predicate SlotAdvanced(a: map<NodeId, Node>, b: map<NodeId, Node>, mix: NodeId)
    requires mix in a
  {
    exists i | 0 <= i < |a[mix].inputs| && a[mix].inputs[i].Some? :: Grew(a, b, a[mix].inputs[i].value.node)
  }

  /**
   * What `requestFrame` of node `id` promises from table `a` to table `b`
   * on a context with (`gl`) or without a GPU and with or without a 2-D
   * context, a source having read `shot` from its producer: the node counts
   * one more frame exactly when it produced one, which needs a backend. A
   * source produces exactly when its decision on `shot` uploads; it then
   * remembers what `Remember` says, and a picture or a counted video skips
   * its next render while the producer stays as it is. A mirror or
   * destination produces exactly when its input gained a frame (without the
   * GPU, also the node's 2-D context and the input's image are needed); a
   * mix that produces had some child gain a frame, and one without slots
   * never produces.
   */
  ghost predicate Answered(a: map<NodeId, Node>, b: map<NodeId, Node>, id: NodeId, gl: bool, ctx2d: bool, produced: bool,
                           shot: Option<Producer>)
    requires id in a && a.Keys == b.Keys
  {
    match a[id].kind
    case ImageSourceNode | TrackSourceNode =>
      && FrameCounted(a, b, id, gl, ctx2d, produced)
      && shot.Some?
      && var n, p := a[id], shot.value;
      && var d := Decide(p, Recall(n));
      && (produced <==> (gl || ctx2d) && d.Upload?)
      && (produced ==> Recall(b[id]) == Remember(p, Recall(n), d))
      && (produced && (p.kind.Picture? || p.kind == Video(true)) ==>
            Decide(p.(sameObject := b[id].lastImage == b[id].image), Recall(b[id])).Skip?)
    case MixNode =>
      && FrameCounted(a, b, id, gl, ctx2d, produced)
      && (produced ==> SlotAdvanced(a, b, id)) && (a[id].inputs == [] ==> !produced)
    case MirrorNode | DestinationNode | TrackDestinationNode =>
      && FrameCounted(a, b, id, gl, ctx2d, produced)
      && var n := a[id];
      && (produced <==> InputAdvanced(a, b, id) && (gl || (n.surface.ctx2d && HasImage(a[n.input.value]))))
  }

  /** The node keeps its producer and counts one more frame exactly when it produced one, which needs a backend. */
  ghost predicate FrameCounted(a: map<NodeId, Node>, b: map<NodeId, Node>, id: NodeId, gl: bool, ctx2d: bool, produced: bool)
    requires id in a && a.Keys == b.Keys
  {
    && b[id].image == a[id].image
    && b[id].totalFrames == a[id].totalFrames + (if produced then 1 else 0)
    && (produced ==> gl || ctx2d)
  }

  /** What a source node reads from its producer right now; nothing for other nodes. */
  function ShotOf(n: Node): (r: Option<Producer>)
    requires n.kind.IsSource() ==> n.image != null
    reads if n.kind.IsSource() then {n.image} else {}
    ensures r.Some? <==> n.kind.IsSource()
    ensures r.Some? ==> FrameDecision(n) == Decide(r.value, Recall(n))
  {
    if n.kind.IsSource() then Some(Snapshot(n)) else None
  }

  /** `Answered`, the source reading its producer as it is now. */
  ghost predicate Requested(a: map<NodeId, Node>, b: map<NodeId, Node>, id: NodeId, gl: bool, ctx2d: bool, produced: bool)
    requires id in a && a.Keys == b.Keys && (a[id].kind.IsSource() ==> a[id].image != null)
    reads if a[id].kind.IsSource() then {a[id].image} else {}
  {
    Answered(a, b, id, gl, ctx2d, produced, ShotOf(a[id]))
  }

  /**
   * One `requestFrame` and the requests it made in turn: node `id` was asked
   * in table `before`, the call returned `got` and left table `after`, and
   * `subs` are the requests its render made of the nodes it reads, in the
   * order it made them.
   */
  datatype Trace = Req(id: NodeId, before: map<NodeId, Node>, after: map<NodeId, Node>, got: bool, subs: seq<Trace>)

  /** The nodes asked by the requests `subs`, in order. */
  function Ids(subs: seq<Trace>): (r: seq<NodeId>)
    ensures |r| == |subs| && forall k | 0 <= k < |subs| :: r[k] == subs[k].id
  {
    seq(|subs|, k requires 0 <= k < |subs| => subs[k].id)
  }

  /** What the requests `subs` returned, in order. */
  function Gots(subs: seq<Trace>): (r: seq<bool>)
    ensures |r| == |subs| && forall k | 0 <= k < |subs| :: r[k] == subs[k].got
  {
    seq(|subs|, k requires 0 <= k < |subs| => subs[k].got)
  }

  /** The requests `subs` were made one after the other, the first in table `start`. */
  ghost predicate Chained(subs: seq<Trace>, start: map<NodeId, Node>) {
    && (subs != [] ==> subs[0].before == start)
    && forall k | 0 < k < |subs| :: subs[k].before == subs[k - 1].after
  }

  /** The table that requests made one after the other from table `start` leave. */
  function Reached(subs: seq<Trace>, start: map<NodeId, Node>): (r: map<NodeId, Node>)
    ensures subs != [] ==> r == subs[|subs| - 1].after
  {
    if subs == [] then start else subs[|subs| - 1].after
  }

  /** Table `t` with node `id` counting one more frame when `got`: the bump that closes `requestFrame`. */
  function Bumped(t: map<NodeId, Node>, id: NodeId, got: bool): (r: map<NodeId, Node>)
    requires id in t
    ensures r.Keys == t.Keys && r[id].totalFrames == t[id].totalFrames + (if got then 1 else 0)
  {
    if got then t[id := t[id].(totalFrames := t[id].totalFrames + 1)] else t
  }

  /**
   * The requests `subs` that the render of the mirror, destination or mix
   * `id` made from table `a`, on the GPU path (`gpu`) or the 2-D one, and
   * what the render returned. A mirror or destination asks its input, if
   * it has one, and nothing else; it produces exactly when that request
   * returned a frame and, on the 2-D path, the node has a 2-D context and
   * the input, as the request left it, an image. A mix asks the child of
   * every occupied slot, in ascending index order, and produces exactly when
   * some request returned a frame and (on the 2-D path) it has a 2-D context.
   * Each request is made in the table the one before left.
   */
  ghost predicate Asked(a: map<NodeId, Node>, id: NodeId, gpu: bool, got: bool, subs: seq<Trace>)
    requires id in a
  {
    var n := a[id];
    var mid := Reached(subs, a);
    && Chained(subs, a)
    && (n.kind.MixNode? ==> Ids(subs) == SlotChildren(n.inputs) && (got <==> true in Gots(subs) && (gpu || n.surface.ctx2d)))
    && (n.kind.PassesThrough() ==>
          && Ids(subs) == (if n.input.Some? then [n.input.value] else [])
          && (got <==> n.input.Some? && subs[0].got && n.input.value in mid
                       && (gpu || (n.surface.ctx2d && HasImage(mid[n.input.value])))))
  }

  /**
   * The request `tr` itself keeps the protocol, the producers showing
   * `views`: it promises what `Answered` says; without a backend, or for a
   * source, it asks nothing else (and without a backend changes nothing);
   * otherwise its render made the requests `Asked` describes, and the table
   * they left, with the node's frame count bumped when it produced, is the
   * table the request leaves.
   */
  ghost predicate Step(tr: Trace, views: map<NodeId, Producer>, gl: bool, ctx2d: bool) {
    && tr.id in tr.before && tr.before.Keys == tr.after.Keys
    && Answered(tr.before, tr.after, tr.id, gl, ctx2d, tr.got, ShotIn(views, tr.id, tr.before[tr.id]))
    && if !(gl || ctx2d) then tr.subs == [] && tr.after == tr.before
       else if tr.before[tr.id].kind.IsSource() then tr.subs == []
       else
         && Asked(tr.before, tr.id, gl, tr.got, tr.subs) && tr.id in Reached(tr.subs, tr.before)
         && tr.after == Bumped(Reached(tr.subs, tr.before), tr.id, tr.got)
  }

  /** Every request in the tree `tr` keeps the protocol: `requestFrame` all the way down. */
  ghost predicate Follows(tr: Trace, views: map<NodeId, Producer>, gl: bool, ctx2d: bool)
    decreases tr
  {
    && Step(tr, views, gl, ctx2d)
    && forall k {:trigger Follows(tr.subs[k], views, gl, ctx2d)} | 0 <= k < |tr.subs| :: Follows(tr.subs[k], views, gl, ctx2d)
  }

  /** Each of the requests `subs` keeps the protocol all the way down. */
  ghost predicate AllFollow(subs: seq<Trace>, views: map<NodeId, Producer>, gl: bool, ctx2d: bool) {
    forall k {:trigger Follows(subs[k], views, gl, ctx2d)} | 0 <= k < |subs| :: Follows(subs[k], views, gl, ctx2d)
  }

  /**
   * The request of `id` from table `a` keeps the protocol all the way down
   * when it promised what `Answered` says, its render (if a backend let it
   * run) made the requests `subs` and left table `b`, each of those kept the
   * protocol, and the request ends with `b` plus the frame-count bump.
   */
  lemma Traced(a: map<NodeId, Node>, b: map<NodeId, Node>, c: map<NodeId, Node>, id: NodeId,
               views: map<NodeId, Producer>, gl: bool, ctx2d: bool, got: bool, subs: seq<Trace>)
    requires id in a && a.Keys == c.Keys && Answered(a, c, id, gl, ctx2d, got, ShotIn(views, id, a[id]))
    requires !(gl || ctx2d) ==> subs == [] && c == a
    requires (gl || ctx2d) && a[id].kind.IsSource() ==> subs == []
    requires (gl || ctx2d) && !a[id].kind.IsSource() ==>
      Asked(a, id, gl, got, subs) && Reached(subs, a) == b && id in b && c == Bumped(b, id, got)
    requires AllFollow(subs, views, gl, ctx2d)
    ensures AllFollow([Req(id, a, c, got, subs)], views, gl, ctx2d)
  {
    assert Step(Req(id, a, c, got, subs), views, gl, ctx2d);
    assert [Req(id, a, c, got, subs)][0] == Req(id, a, c, got, subs);
  }

  /** A request made in the table a run of requests leaves extends the run. */
  lemma Extended(subs: seq<Trace>, s: Trace, start: map<NodeId, Node>, views: map<NodeId, Producer>, gl: bool, ctx2d: bool)
    requires Chained(subs, start) && AllFollow(subs, views, gl, ctx2d)
    requires s.before == Reached(subs, start) && AllFollow([s], views, gl, ctx2d)
    ensures Chained(subs + [s], start)
    ensures AllFollow(subs + [s], views, gl, ctx2d)
    ensures Reached(subs + [s], start) == s.after
    ensures Ids(subs + [s]) == Ids(subs) + [s.id] && Gots(subs + [s]) == Gots(subs) + [s.got]
  {
    var t := subs + [s];
    assert [s][0] == s;
    assert t[0].before == start;
    forall k | 0 < k < |t| ensures t[k].before == t[k - 1].after {
      assert t[k - 1] == subs[k - 1];
      if k < |subs| {
        assert t[k] == subs[k];
      }
    }
    forall k | 0 <= k < |t| ensures Follows(t[k], views, gl, ctx2d) {
      if k < |subs| {
        assert t[k] == subs[k];
      }
    }
    assert Ids(t) == Ids(subs) + [s.id];
    assert Gots(t) == Gots(subs) + [s.got];
  }

  /**
   * Where a frame comes from: a request that returned one is a source's that
   * uploaded, or some request it made returned one and got its frame so.
   */
  ghost predicate FedBySource(tr: Trace, views: map<NodeId, Producer>)
    decreases tr
  {
    && tr.id in tr.before && tr.got
    && if tr.subs == [] then
         tr.before[tr.id].kind.IsSource() && tr.id in views
         && Decide(ShotIn(views, tr.id, tr.before[tr.id]).value, Recall(tr.before[tr.id])).Upload?
       else exists k | 0 <= k < |tr.subs| :: FedBySource(tr.subs[k], views)
  }

  /** Every frame a request returns comes, through the requests below it, from a source that uploaded. */
  lemma {:induction false} FramesComeFromSources(tr: Trace, views: map<NodeId, Producer>, gl: bool, ctx2d: bool)
    requires Follows(tr, views, gl, ctx2d) && tr.got
    ensures FedBySource(tr, views)
    decreases tr
  {
    var n := tr.before[tr.id];
    if n.kind.MixNode? {
      var k :| 0 <= k < |tr.subs| && Gots(tr.subs)[k];
      FramesComeFromSources(tr.subs[k], views, gl, ctx2d);
    } else if n.kind.PassesThrough() {
      FramesComeFromSources(tr.subs[0], views, gl, ctx2d);
    }
  }

  /**
   * On the GPU, a destination reading a mirror of a source whose producer
   * has something new produces a frame: the request goes through the mirror
   * down to the source, which uploads.
   */
  lemma MirroredSourceReaches(tr: Trace, views: map<NodeId, Producer>, m: NodeId, s: NodeId)
    requires Follows(tr, views, true, false)
    requires tr.before[tr.id].kind.IsDestination() && tr.before[tr.id].input == Some(m)
    requires m in tr.before && tr.before[m].kind.MirrorNode? && tr.before[m].input == Some(s)
    requires s in tr.before && tr.before[s].kind.IsSource() && s in views
    requires Decide(ShotIn(views, s, tr.before[s]).value, Recall(tr.before[s])).Upload?
    ensures tr.got
  {
    assert Step(tr, views, true, false);
    assert Asked(tr.before, tr.id, true, tr.got, tr.subs);
    var mirror := tr.subs[0];
    assert Chained(tr.subs, tr.before) && Ids(tr.subs)[0] == m;
    assert mirror.before == tr.before && Follows(mirror, views, true, false);
    assert Step(mirror, views, true, false);
    assert Asked(mirror.before, m, true, mirror.got, mirror.subs);
    var source := mirror.subs[0];
    assert Chained(mirror.subs, mirror.before) && Ids(mirror.subs)[0] == s;
    assert source.before == tr.before && Follows(source, views, true, false);
    assert Step(source, views, true, false);
  }

  /**
   * What each source of `t` reads from its producer. A producer is an object
   * the context never writes, so only whether it is still the image the
   * source saw last (`sameObject`) can differ later on.
   */
  ghost function Views(t: map<NodeId, Node>): (r: map<NodeId, Producer>)
    reads set j | j in t && t[j].kind.IsSource() && t[j].image != null :: t[j].image
    ensures forall j | j in t && t[j].kind.IsSource() && t[j].image != null :: j in r && r[j] == Snapshot(t[j])
    ensures Showing(t, r)
  {
    map j | j in t && t[j].kind.IsSource() && t[j].image != null :: Snapshot(t[j])
  }

  /**
   * The producers of the sources of `t` still show `views`: as far as the
   * producers go, reading them now is reading them when `views` was taken.
   */
  ghost predicate Showing(t: map<NodeId, Node>, views: map<NodeId, Producer>)
    reads set j | j in t && t[j].kind.IsSource() && t[j].image != null :: t[j].image
  {
    forall j | j in t && t[j].kind.IsSource() && t[j].image != null :: ShotIn(views, j, t[j]) == Some(Snapshot(t[j]))
  }

  /** Pulls keep every source's producer, so producers that showed `views` still do. */
  lemma ShowingPulled(a: map<NodeId, Node>, b: map<NodeId, Node>, views: map<NodeId, Producer>)
    requires Showing(a, views) && AllPulled(a, b)
    ensures Showing(b, views)
  {
    forall j | j in b && b[j].kind.IsSource() && b[j].image != null ensures ShotIn(views, j, b[j]) == Some(Snapshot(b[j])) {
      assert Pulled(a[j], b[j]);
      assert ShotIn(views, j, a[j]) == Some(Snapshot(a[j]));
    }
  }

  /** Changing a node that is not a source leaves what the producers show alone. */
  lemma ShowingUpdated(a: map<NodeId, Node>, views: map<NodeId, Producer>, id: NodeId, m: Node)
    requires Showing(a, views) && id in a && !a[id].kind.IsSource() && !m.kind.IsSource()
    ensures Showing(a[id := m], views)
  {
    var b := a[id := m];
    forall j | j in b && b[j].kind.IsSource() && b[j].image != null ensures ShotIn(views, j, b[j]) == Some(Snapshot(b[j])) {
      assert j != id && b[j] == a[j];
    }
  }

  /** What the node `n`, stored under `j`, reads from its producer when the producers show `views`. */
  function ShotIn(views: map<NodeId, Producer>, j: NodeId, n: Node): (r: Option<Producer>)
    ensures r.Some? ==> n.kind.IsSource()
  {
    if n.kind.IsSource() && j in views then Some(views[j].(sameObject := n.lastImage == n.image)) else None
  }
}
