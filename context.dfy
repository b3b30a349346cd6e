/**
 * The video context (`VideoContext`) and everything its nodes do to each
 * other. The context owns the node table: each node object of the source is
 * the record stored under its id, and a node method is a context method
 * given that id. The GPU, the 2-D context and the canvas are reduced to
 * flags and sizes, and every drawing call to the recorded `ops`.
 */
module Runtime {
  import opened Js
  import opened Lifecycle
  import opened MixGeometry
  import opened TexCoords
  import opened NodeOptions
  import opened SourceFrames
  import opened SlotTable
  import opened Scheduling
  import opened Media
  import opened Graph
  import opened Teardown
  import opened Requests

  const NoError: int := 0
  const DefaultCanvasWidth: nat := 300
  const DefaultCanvasHeight: nat := 150

  /** The size `id` ends with after a resize to `w` x `h`: a mix takes the bounding box of its slots instead. */
  ghost predicate Following(t: map<NodeId, Node>, id: NodeId, w: nat, h: nat)
    requires id in t
  {
    if t[id].kind.MixNode? then Size(t[id].width, t[id].height) == Extent(SlotRects(t, t[id].inputs))
    else t[id].width == w && t[id].height == h
  }

  /** A resize of `id` carries on into its output: there is one and it matches its input's size. */
  ghost predicate Feeds(t: map<NodeId, Node>, id: NodeId)
    requires id in t
  {
    t[id].output.Some? && t[id].output.value in t && t[t[id].output.value].matchInputSize
  }

  /** No node ranked below `r` changed. */
  ghost predicate KeptBelow(a: map<NodeId, Node>, b: map<NodeId, Node>, rank: map<NodeId, nat>, r: int)
    requires a.Keys <= b.Keys && a.Keys <= rank.Keys
  {
    forall j | j in a && rank[j] < r :: b[j] == a[j]
  }

  /** A node resized to `w` x `h`: its own canvas, if it has one, follows. */
  function Reshaped(n: Node, w: nat, h: nat): (r: Node)
    ensures Resized(n, r) && r.width == w && r.height == h
    ensures r.ownCanvas ==> r.surface.width == w && r.surface.height == h
    ensures !r.ownCanvas ==> r.surface == n.surface
  {
    n.(width := w, height := h, surface := if n.ownCanvas then n.surface.(width := w, height := h) else n.surface)
  }

  /** The framebuffer texture is reallocated at the new size, on the GPU, for a node that has both. */
  function StorageOps(id: NodeId, n: Node, gl: bool, w: nat, h: nat): (r: seq<Op>)
    ensures |r| <= 1 && (r != [] <==> gl && n.gpu.texture.Some? && n.gpu.fbo.Some?)
  {
    if gl && n.gpu.texture.Some? && n.gpu.fbo.Some? then [TexStorage(id, w, h)] else []
  }

  /**
   * Slot `b` is slot `a` with a vertex buffer: the one it had, or a new one
   * drawn from the handles between `h0` and `h1`.
   */
  predicate BufferedSlot(a: Option<Slot>, b: Option<Slot>, h0: Handle, h1: Handle) {
    && SameSlot(a, b)
    && (b.Some? ==> b.value.positionBuffer.Some?)
    && (b.Some? && a.value.positionBuffer.Some? ==> b.value.positionBuffer == a.value.positionBuffer)
    && (b.Some? && a.value.positionBuffer.None? ==> h0 <= b.value.positionBuffer.value < h1)
  }

  /** Every slot of `s` is the same slot of `t` with a vertex buffer. */
  predicate Buffered(s: seq<Option<Slot>>, t: seq<Option<Slot>>, h0: Handle, h1: Handle) {
    |s| == |t| && h0 <= h1 && forall i | 0 <= i < |s| :: BufferedSlot(s[i], t[i], h0, h1)
  }

  /** `addInput` on `target` resizes it to the size of `who`. */
  predicate AdoptsSize(t: map<NodeId, Node>, target: NodeId, who: NodeId)
    requires target in t && who in t
  {
    !t[target].kind.MixNode? && t[target].matchInputSize && t[who].width != 0 && t[who].height != 0
  }

  /** Node `b` is node `a` resized, and perhaps holding another interval id. */
  predicate Rearmed(a: Node, b: Node) {
    Resized(a, b.(intervalId := a.intervalId))
  }

  /** Every node of the table is resized and perhaps re-armed. */
  predicate AllRearmed(a: map<NodeId, Node>, b: map<NodeId, Node>) {
    a.Keys == b.Keys && forall id {:trigger Rearmed(a[id], b[id])} | id in a :: Rearmed(a[id], b[id])
  }

  /** The error a refused `addInput` reports: a mix without a layout, or a taken slot. */
  function Refusal(layout: Option<MixLayout>): ConnectError {
    if layout.None? then MissingLayout else InputExists
  }

  /** The node table is sound, its ids are below the next id, and every listener is one of its nodes. */
  ghost predicate TableOk(t: map<NodeId, Node>, rank: map<NodeId, nat>, bound: nat, nextId: NodeId, listeners: seq<NodeId>) {
    && Sound(t, rank, bound)
    && (forall j | j in t :: j < nextId)
    && (forall i | 0 <= i < |listeners| :: listeners[i] in t)
  }

  /** At most one backend, and none before creation or after destruction. */
  predicate Backend(state: ContextState, gl: bool, ctx2d: bool, hasCanvas: bool, lossHandler: bool) {
    && !(gl && ctx2d)
    && (lossHandler ==> hasCanvas)
    && (state == Uninitialized ==> !gl && !ctx2d && !hasCanvas)
  }

  /**
   * The backends `create` sets up: the GPU context, the 2-D context, whether
   * the canvas is kept, and whether the shared program was linked (which is
   * when the context-loss listener is attached).
   */
  datatype Setup = Setup(gl: bool, ctx2d: bool, canvas: bool, linked: bool)

  /**
   * `create` with `use2d` asks only for a 2-D context and keeps the canvas
   * whatever it gets; otherwise it takes the GPU when `webgl` is obtainable
   * (the program is linked unless building it faults), else falls back to
   * 2-D, and keeps the canvas only when some backend exists.
   */
  function CreatePlan(use2d: bool, webgl: bool, raster: bool, programFault: bool): (p: Setup)
    ensures !(p.gl && p.ctx2d) && (p.gl ==> p.canvas) && (p.ctx2d ==> p.canvas) && (p.linked ==> p.gl)
    ensures use2d ==> !p.gl && p.canvas && p.ctx2d == raster
    ensures !use2d && webgl ==> p.gl && (p.linked <==> !programFault)
    ensures !use2d && !webgl ==> !p.gl && p.ctx2d == raster && p.canvas == raster
  {
    if use2d then Setup(false, raster, true, false)
    else if webgl then Setup(true, false, true, !programFault)
    else Setup(false, raster, raster, false)
  }

  lemma TableKept(rank: map<NodeId, nat>, bound: nat, next: NodeId, ls: seq<NodeId>, a: map<NodeId, Node>, b: map<NodeId, Node>)
    requires TableOk(a, rank, bound, next, ls) && Sound(b, rank, bound) && b.Keys == a.Keys
    ensures TableOk(b, rank, bound, next, ls)
  {
  }

  lemma UnpluggedKept(rank: map<NodeId, nat>, bound: nat, next: NodeId, ls: seq<NodeId>, a: map<NodeId, Node>, b: map<NodeId, Node>)
    requires TableOk(a, rank, bound, next, ls) && AllUnplugged(a, b)
    ensures TableOk(b, rank, bound, next, ls)
  {
    UnpluggedKeepsSound(a, b, rank, bound);
    TableKept(rank, bound, next, ls, a, b);
  }

  lemma PulledKept(rank: map<NodeId, nat>, bound: nat, next: NodeId, ls: seq<NodeId>, a: map<NodeId, Node>, b: map<NodeId, Node>)
    requires TableOk(a, rank, bound, next, ls) && AllPulled(a, b)
    ensures TableOk(b, rank, bound, next, ls)
  {
    PulledKeepsShape(a, b, rank, bound);
    TableKept(rank, bound, next, ls, a, b);
  }

  lemma RearmedThenResized(a: map<NodeId, Node>, b: map<NodeId, Node>, c: map<NodeId, Node>)
    requires AllRearmed(a, b) && AllResized(b, c)
    ensures AllRearmed(a, c)
  {
    forall id | id in a ensures Rearmed(a[id], c[id]) {
      assert Rearmed(a[id], b[id]) && Resized(b[id], c[id]);
    }
  }

  /** A resize followed by re-arming the timer of node `id` (or not) resizes and re-arms the table. */
  lemma ArmedAfterResize(a: map<NodeId, Node>, b: map<NodeId, Node>, c: map<NodeId, Node>, id: NodeId)
    requires AllResized(a, b) && id in b && id in c && c == b[id := b[id].(intervalId := c[id].intervalId)]
    ensures AllRearmed(a, c)
  {
    forall j | j in a ensures Rearmed(a[j], c[j]) {
      assert Resized(a[j], b[j]);
    }
  }

  /** The edges `connect` adds, over a table the target's `addInput` resized and re-armed without touching `id`. */
  lemma AttachedRearmed(a: map<NodeId, Node>, t: map<NodeId, Node>, id: NodeId, target: NodeId, layout: Option<MixLayout>)
    requires id in a && target in a && id != target && Accepts(a[target], layout)
    requires AllRearmed(a[target := Adopted(a[target], id, layout)], t) && t[id] == a[id]
    ensures AllRearmed(Attached(a, id, target, layout), t[id := t[id].(state := Connected, output := Some(target))])
  {
    var b := Attached(a, id, target, layout);
    var c := t[id := t[id].(state := Connected, output := Some(target))];
    forall j | j in b ensures Rearmed(b[j], c[j]) {
      if j != id {
        assert Rearmed(a[target := Adopted(a[target], id, layout)][j], t[j]);
      }
    }
  }

  lemma KeptBelowTransitive(a: map<NodeId, Node>, b: map<NodeId, Node>, c: map<NodeId, Node>, rank: map<NodeId, nat>, r: int)
    requires a.Keys <= b.Keys <= c.Keys && c.Keys <= rank.Keys
    requires KeptBelow(a, b, rank, r) && KeptBelow(b, c, rank, r)
    ensures KeptBelow(a, c, rank, r)
  {
  }

  /** Changing one node keeps every node ranked below it. */
  lemma KeptBelowOne(t: map<NodeId, Node>, id: NodeId, n: Node, rank: map<NodeId, nat>)
    requires id in t && t.Keys <= rank.Keys
    ensures KeptBelow(t, t[id := n], rank, rank[id])
  {
  }

  /**
   * The slot rectangles of a mix survive a resize that keeps every node
   * ranked below it: its children are such nodes, and a resize keeps the
   * children and layouts of its slots.
   */
  lemma SlotRectsResized(a: map<NodeId, Node>, b: map<NodeId, Node>, rank: map<NodeId, nat>, bound: nat, id: NodeId)
    requires Wired(a, rank, bound) && id in a && AllResized(a, b) && KeptBelow(a, b, rank, rank[id])
    ensures SlotRects(b, b[id].inputs) == SlotRects(a, a[id].inputs)
  {
    assert Linked(a, rank, bound, id);
    assert Resized(a[id], b[id]);
    SlotRectsKept(a, b, a[id].inputs, b[id].inputs);
  }

  lemma Concat3(a: seq<Op>, b: seq<Op>, c: seq<Op>)
    ensures a + (b + c) == (a + b) + c
  {
  }

  /** `s` ends with `tail`. */
  predicate EndsWith(s: seq<Op>, tail: seq<Op>) {
    |tail| <= |s| && s[|s| - |tail|..] == tail
  }

  lemma EndsWithAppend(a: seq<Op>, b: seq<Op>, c: seq<Op>)
    ensures EndsWith(a + b + c, b + c)
  {
    assert (a + b + c)[|a|..] == b + c;
  }

  /** The texture upload of a source render: on the GPU path, into the node's texture if it has one. */
  function UploadOps(id: NodeId, n: Node, upload: bool, full: bool): (r: seq<Op>)
    ensures |r| <= 1 && (r != [] <==> upload && n.gpu.texture.Some?)
  {
    if upload && n.gpu.texture.Some? then [TexUpload(id, full)] else []
  }

  /** A noted source resized to the decision's size is uploaded. */
  lemma NotedIsUploaded(n: Node, b: Node)
    requires n.image != null && FrameDecision(n).Upload?
    requires Resized(Noted(n), b) && b.width == FrameDecision(n).width && b.height == FrameDecision(n).height
    ensures Uploaded(n, b)
  {
  }

  /** The draws of mix `id`'s composite over table `nodes`, through the GPU or the 2-D context. */
  function Painted(id: NodeId, nodes: map<NodeId, Node>, gpu: bool): seq<Op>
    requires id in nodes
  {
    if gpu then GlComposite(id, nodes, nodes[id].inputs) else RasterComposite(id, nodes, nodes[id].inputs)
  }

  /**
   * What a render of node `id` promises from table `a` to table `b` with the
   * calls `o` recorded by then, kind by kind; `gpu` tells `render` from
   * `render2d`. A source produces exactly when its new-frame decision
   * uploads, and is then `Uploaded`. A mirror or destination produces
   * exactly when its input gained a frame (and, on the 2-D path, the node
   * has a 2-D context and the input an image); its draw of the input comes
   * last. A mix that produces had some child gain a frame and ends with a
   * clear followed by its composite; one without slots never produces.
   */
  ghost predicate RenderedBy(a: map<NodeId, Node>, b: map<NodeId, Node>, o: seq<Op>, id: NodeId, gpu: bool, produced: bool)
    requires id in a && a.Keys == b.Keys && (a[id].kind.IsSource() ==> a[id].image != null)
    reads a[id].image
  {
    var n := a[id];
    && (n.kind.IsSource() ==> (produced <==> FrameDecision(n).Upload?) && (produced ==> Uploaded(n, b[id])))
    && (n.kind.PassesThrough() ==>
          (produced <==> InputAdvanced(a, b, id) && (gpu || (n.surface.ctx2d && HasImage(a[n.input.value])))))
    && (n.kind.PassesThrough() && produced ==>
          var from := n.input.value;
          EndsWith(o, [if gpu then DrawTexture(id, from)
                       else DrawOf(id, from, b[from], Rect(0, 0, b[id].width, b[id].height))]))
    && (n.kind.MixNode? && produced ==>
          && SlotAdvanced(a, b, id) && (gpu || n.surface.ctx2d)
          && EndsWith(o, [ClearSurface(id)] + Painted(id, b, gpu)))
    && (n.kind.MixNode? && n.inputs == [] ==> !produced)
  }

  /**
   * The last step of `requestFrame`: from what the render promised, and the
   * node's frame count bumped when it produced, to what `requestFrame`
   * promises. The render pulled only lower-ranked nodes, so the count of the
   * node itself, and which inputs gained a frame, are left alone by the bump.
   */
  lemma Counted(a: map<NodeId, Node>, b: map<NodeId, Node>, c: map<NodeId, Node>, rank: map<NodeId, nat>, bound: nat,
                o: seq<Op>, id: NodeId, gl: bool, ctx2d: bool, produced: bool,
                views: map<NodeId, Producer>, subs: seq<Trace>)
    requires Wired(a, rank, bound) && id in a && AllPulled(a, b) && FramesKeptFrom(a, b, rank, rank[id], -1)
    requires a[id].kind.IsSource() ==> a[id].image != null && ShotOf(a[id]) == ShotIn(views, id, a[id])
    requires !(gl && ctx2d)
    requires gl ==> RenderedBy(a, b, o, id, true, produced)
    requires !gl && ctx2d ==> RenderedBy(a, b, o, id, false, produced)
    requires !gl && !ctx2d ==> b == a && !produced && subs == []
    requires (gl || ctx2d) && a[id].kind.IsSource() ==> subs == []
    requires (gl || ctx2d) && !a[id].kind.IsSource() ==> Asked(a, id, gl, produced, subs) && Reached(subs, a) == b
    requires AllFollow(subs, views, gl, ctx2d)
    requires c == Bumped(b, id, produced)
    ensures Requested(a, c, id, gl, ctx2d, produced)
    ensures AllFollow([Req(id, a, c, produced, subs)], views, gl, ctx2d)
  {
    var n := a[id];
    assert Linked(a, rank, bound, id);
    assert Pulled(n, b[id]);
    if n.kind.IsSource() && produced {
      assert c[id].(totalFrames := n.totalFrames) == b[id];
      if n.image.kind.Picture? || n.image.kind == Video(true) {
        SettledAfterUpload(n, c[id]);
      }
    }
    if n.kind.MixNode? && produced {
      var i :| 0 <= i < |n.inputs| && n.inputs[i].Some? && Grew(a, b, n.inputs[i].value.node);
      assert Grew(a, c, n.inputs[i].value.node);
    }
    Traced(a, b, c, id, views, gl, ctx2d, produced, subs);
  }

  /** A child that grew keeps having grown through further pulls. */
  lemma GrewKept(a: map<NodeId, Node>, b: map<NodeId, Node>, c: map<NodeId, Node>, j: NodeId)
    requires Grew(a, b, j) && AllPulled(b, c)
    ensures Grew(a, c, j)
  {
    assert Pulled(b[j], c[j]);
  }

  /**
   * Every child whose request returned a frame has still gained one after
   * further pulls, and so has the next child asked, if its request did.
   */
  lemma AnswersKept(a: map<NodeId, Node>, b: map<NodeId, Node>, c: map<NodeId, Node>, subs: seq<Trace>, s: Trace)
    requires AllPulled(b, c) && (s.got ==> Grew(a, c, s.id))
    requires forall k | 0 <= k < |subs| && subs[k].got :: Grew(a, b, subs[k].id)
    ensures forall k | 0 <= k < |subs| + 1 && (subs + [s])[k].got :: Grew(a, c, (subs + [s])[k].id)
  {
    forall k | 0 <= k < |subs| + 1 && (subs + [s])[k].got ensures Grew(a, c, (subs + [s])[k].id) {
      if k < |subs| {
        GrewKept(a, b, c, subs[k].id);
      }
    }
  }

  /** When the run asked exactly the slots' children, a request that returned a frame means a child of a slot gained one. */
  lemma AnsweredAdvanced(a: map<NodeId, Node>, b: map<NodeId, Node>, mix: NodeId, subs: seq<Trace>)
    requires mix in a && Ids(subs) == SlotChildren(a[mix].inputs) && true in Gots(subs)
    requires forall k | 0 <= k < |subs| && subs[k].got :: Grew(a, b, subs[k].id)
    ensures SlotAdvanced(a, b, mix)
  {
    var k :| 0 <= k < |subs| && Gots(subs)[k];
    var j := SlotChildrenOccupied(a[mix].inputs, k);
    assert Grew(a, b, a[mix].inputs[j].value.node);
  }

  /** The slots of a linked mix still name nodes of the table after pulls. */
  lemma SlotsInPulled(a: map<NodeId, Node>, b: map<NodeId, Node>, id: NodeId)
    requires id in a && SlotsIn(a, a[id].inputs) && AllPulled(a, b)
    ensures SlotsIn(b, b[id].inputs)
  {
    assert Pulled(a[id], b[id]);
  }

  class VideoContext {
    const name: string
    const timer: IntervalTimer
    var frameRate: int
    var state: ContextState
    var hasCanvas: bool                  // `_canvas` is set
    var canvasWidth: nat
    var canvasHeight: nat
    var gl: bool                         // `_gl` is set
    var ctx2d: bool                      // `ctx2d` is set
    var defaultProgram: Option<Handle>
    var hasAlpha: bool
    var glFailed: bool
    var lossHandler: bool                // the context-loss listener is attached to the canvas
    var staleLossHandlers: nat           // context-loss listeners left on canvases `destroy` dropped
    var listeners: seq<NodeId>           // the nodes' one-shot `disconnect` listeners, in registration order
    var events: seq<Event>
    var ops: seq<Op>
    var nextHandle: Handle
    var nodes: map<NodeId, Node>
    var nextId: NodeId
    ghost var rank: map<NodeId, nat>
    ghost var rankBound: nat

    ghost predicate Valid()
      reads this`state, this`gl, this`ctx2d, this`hasCanvas, this`lossHandler, timer
      reads this`nodes, this`rank, this`rankBound, this`nextId, this`listeners
    {
      timer.Valid() && Backend(state, gl, ctx2d, hasCanvas, lossHandler) && TableValid()
    }

    ghost predicate TableValid()
      reads this`nodes, this`rank, this`rankBound, this`nextId, this`listeners
    {
      TableOk(nodes, rank, rankBound, nextId, listeners)
    }

    constructor (name: string, frameRate: int, timer: IntervalTimer)
      requires timer.Valid()
      ensures Valid() && fresh(this)
      ensures this.name == name && this.frameRate == frameRate && this.timer == timer
      ensures state == Uninitialized && !Available() && nodes == map[] && listeners == [] && events == [] && ops == []
    {
      this.name := name;
      this.frameRate := frameRate;
      this.timer := timer;
      state := Uninitialized;
      hasCanvas := false;
      canvasWidth := 0;
      canvasHeight := 0;
      gl := false;
      ctx2d := false;
      defaultProgram := None;
      hasAlpha := false;
      glFailed := false;
      lossHandler := false;
      staleLossHandlers := 0;
      listeners := [];
      events := [];
      ops := [];
      nextHandle := 0;
      nodes := map[];
      nextId := 0;
      rank := map[];
      rankBound := 0;
    }

    /** `available`: a canvas is held. */
    predicate Available()
      reads this`hasCanvas, this`state, this`gl, this`ctx2d, this`lossHandler
      ensures Available() && Backend(state, gl, ctx2d, hasCanvas, lossHandler) ==> state == Created
    {
      hasCanvas
    }

    /** `width`: the canvas width, 0 without a canvas. */
    function Width(): (w: nat)
      reads this`hasCanvas, this`canvasWidth, this`state, this`gl, this`ctx2d, this`lossHandler
      ensures !Available() ==> w == 0
      ensures Available() ==> w == canvasWidth
    {
      if hasCanvas then canvasWidth else 0
    }

    /** `height`: the canvas height, 0 without a canvas. */
    function Height(): (h: nat)
      reads this`hasCanvas, this`canvasHeight, this`state, this`gl, this`ctx2d, this`lossHandler
      ensures !Available() ==> h == 0
      ensures Available() ==> h == canvasHeight
    {
      if hasCanvas then canvasHeight else 0
    }

    /**
     * `create`: allowed only before the context exists, where it makes a new
     * canvas and sets up the backends `CreatePlan` describes; a linked shared
     * program takes three handles (two shaders and the program). A failure
     * to build the program is returned as the outcome.
     */
    method Create(alpha: bool, use2d: bool, webgl: bool, raster: bool, programFault: bool) returns (outcome: CreateOutcome)
      requires Valid()
      modifies this`glFailed, this`hasAlpha, this`hasCanvas, this`canvasWidth, this`canvasHeight, this`ctx2d,
        this`gl, this`defaultProgram, this`lossHandler, this`state, this`nextHandle
      ensures Valid()
      ensures old(state) != Uninitialized ==>
        && outcome == CreateRefused && state == old(state) && glFailed == old(glFailed) && hasAlpha == old(hasAlpha)
        && hasCanvas == old(hasCanvas) && canvasWidth == old(canvasWidth) && canvasHeight == old(canvasHeight)
        && gl == old(gl) && ctx2d == old(ctx2d) && defaultProgram == old(defaultProgram)
        && lossHandler == old(lossHandler) && nextHandle == old(nextHandle)
      ensures old(state) == Uninitialized ==>
        var plan := CreatePlan(use2d, webgl, raster, programFault);
        && state == Created && !glFailed && hasAlpha == alpha
        && gl == plan.gl && ctx2d == plan.ctx2d && hasCanvas == plan.canvas && lossHandler == plan.linked
        && outcome == (if plan.gl && !plan.linked then ProgramFailed else CreateDone)
        && (plan.linked ==> defaultProgram == Some(old(nextHandle) + 2) && nextHandle == old(nextHandle) + 3)
        && (!plan.linked ==> defaultProgram == old(defaultProgram) && nextHandle == old(nextHandle))
        && canvasWidth == DefaultCanvasWidth && canvasHeight == DefaultCanvasHeight
      ensures var next := ContextNext(old(state), ContextCall.Create); next.Some? ==> state == next.value
    {
      if state != Uninitialized {
        return CreateRefused;
      }
      var plan := CreatePlan(use2d, webgl, raster, programFault);
      outcome := if plan.gl && !plan.linked then ProgramFailed else CreateDone;
      if plan.linked {
        // vertex shader, fragment shader, then the linked program
        defaultProgram := Some(nextHandle + 2);
        nextHandle := nextHandle + 3;
      }
      state, glFailed, hasAlpha := Created, false, alpha;
      canvasWidth, canvasHeight := DefaultCanvasWidth, DefaultCanvasHeight;
      gl, ctx2d, hasCanvas, lossHandler := plan.gl, plan.ctx2d, plan.canvas, plan.linked;
    }

    /** The `width` setter: GPU viewport to the new width and current height, then the canvas. */
    method SetWidth(w: nat)
      modifies this`ops, this`canvasWidth
      ensures ops == old(ops) + (if gl then [Viewport(w, old(Height()))] else [])
      ensures Available() ==> Width() == w
      ensures Height() == old(Height())
    {
      if gl {
        ops := ops + [Viewport(w, Height())];
      }
      if hasCanvas {
        canvasWidth := w;
      }
    }

    /** The `height` setter: GPU viewport to the current width and new height, then the canvas. */
    method SetHeight(h: nat)
      modifies this`ops, this`canvasHeight
      ensures ops == old(ops) + (if gl then [Viewport(old(Width()), h)] else [])
      ensures Available() ==> Height() == h
      ensures Width() == old(Width())
    {
      if gl {
        ops := ops + [Viewport(Width(), h)];
      }
      if hasCanvas {
        canvasHeight := h;
      }
    }

    /** `setSize`: viewport and both canvas dimensions; nodes are not resized. */
    method SetSize(w: nat, h: nat)
      modifies this`ops, this`canvasWidth, this`canvasHeight
      ensures ops == old(ops) + (if gl then [Viewport(w, h)] else [])
      ensures Available() ==> Width() == w && Height() == h
      ensures !Available() ==> canvasWidth == old(canvasWidth) && canvasHeight == old(canvasHeight)
    {
      if gl {
        ops := ops + [Viewport(w, h)];
      }
      if hasCanvas {
        canvasWidth := w;
        canvasHeight := h;
      }
    }

    // ---------------------------------------------------------------- sizing

    /**
     * `resize` of node `id` as its class defines it: the base resize, the
     * mix's bounding box, or the track destination's base resize followed
     * by resizing the context to the same size.
     */
    method Resize(id: NodeId, w: nat, h: nat)
      requires Valid() && id in nodes
      modifies this`nodes, this`ops, this`nextHandle, this`canvasWidth, this`canvasHeight
      decreases rankBound - rank[id], 2
      ensures Valid() && AllResized(old(nodes), nodes) && KeptBelow(old(nodes), nodes, rank, rank[id])
      ensures old(ops) <= ops && old(nextHandle) <= nextHandle
      ensures Following(nodes, id, w, h)
      ensures old(nodes[id].kind) == TrackDestinationNode && Available() ==> Width() == w && Height() == h
      ensures var n := old(nodes[id]);
        !n.kind.MixNode? && n.kind != TrackDestinationNode && n.width == w && n.height == h ==>
        && nodes == old(nodes) && ops == old(ops) && nextHandle == old(nextHandle)
        && canvasWidth == old(canvasWidth) && canvasHeight == old(canvasHeight)
    {
      var kind := nodes[id].kind;
      if kind.MixNode? {
        MixResize(id);
      } else if kind == TrackDestinationNode {
        BaseResize(id, w, h);
        SetSize(w, h);
      } else {
        BaseResize(id, w, h);
      }
      assert Resized(old(nodes[id]), nodes[id]);
    }

    /**
     * The base `resize`: nothing when the size is unchanged. Otherwise the
     * node takes the size (`Reshaped`), a framebuffer texture is reallocated
     * at that size, and the output is resized too when it matches its
     * input's size; nothing else changes.
     */
    method BaseResize(id: NodeId, w: nat, h: nat)
      requires Valid() && id in nodes
      modifies this`nodes, this`ops, this`nextHandle, this`canvasWidth, this`canvasHeight
      decreases rankBound - rank[id], 0
      ensures Valid() && AllResized(old(nodes), nodes) && KeptBelow(old(nodes), nodes, rank, rank[id])
      ensures old(ops) <= ops && old(nextHandle) <= nextHandle
      ensures nodes[id].width == w && nodes[id].height == h
      ensures var n := old(nodes[id]); n.width == w && n.height == h ==>
        && nodes == old(nodes) && ops == old(ops) && nextHandle == old(nextHandle)
        && canvasWidth == old(canvasWidth) && canvasHeight == old(canvasHeight)
      ensures var n := old(nodes[id]); n.width != w || n.height != h ==>
        && nodes[id] == Reshaped(n, w, h)
        && old(ops) + StorageOps(id, n, gl, w, h) <= ops
        && (Feeds(old(nodes), id) ==> Following(nodes, n.output.value, w, h))
        && (!Feeds(old(nodes), id) ==> nodes == old(nodes)[id := nodes[id]])
    {
      var n := nodes[id];
      if n.width == w && n.height == h {
        return;
      }
      assert Linked(nodes, rank, rankBound, id);
      Reshape(id, w, h);
      if n.output.Some? && nodes[n.output.value].matchInputSize {
        ghost var t1 := nodes;
        Resize(n.output.value, w, h);
        ResizedTransitive(old(nodes), t1, nodes);
      }
    }

    /** The first half of a base `resize` that changes the size: the node's own fields and the framebuffer texture. */
    method Reshape(id: NodeId, w: nat, h: nat)
      requires Valid() && id in nodes
      modifies this`nodes, this`ops
      ensures Valid() && AllResized(old(nodes), nodes)
      ensures nodes == old(nodes)[id := Reshaped(old(nodes[id]), w, h)]
      ensures ops == old(ops) + StorageOps(id, old(nodes[id]), gl, w, h)
    {
      var m := Reshaped(nodes[id], w, h);
      ResizeOne(nodes, id, m);
      ResizedIsPulled(nodes, nodes[id := m]);
      PulledKept(rank, rankBound, nextId, listeners, nodes, nodes[id := m]);
      ops := ops + StorageOps(id, nodes[id], gl, w, h);
      nodes := nodes[id := m];
    }

    /**
     * The mix `resize`: the requested size is ignored and the node takes the
     * bounding box of its slots; on the GPU every slot's vertex buffer is
     * then written for its rectangle.
     */
    method MixResize(id: NodeId)
      requires Valid() && id in nodes && nodes[id].kind.MixNode?
      modifies this`nodes, this`ops, this`nextHandle, this`canvasWidth, this`canvasHeight
      decreases rankBound - rank[id], 1
      ensures Valid() && AllResized(old(nodes), nodes) && KeptBelow(old(nodes), nodes, rank, rank[id])
      ensures old(ops) <= ops && old(nextHandle) <= nextHandle
      ensures Size(nodes[id].width, nodes[id].height) == Extent(SlotRects(nodes, nodes[id].inputs))
      ensures gl ==> forall i | 0 <= i < |nodes[id].inputs| && nodes[id].inputs[i].Some? ::
        nodes[id].inputs[i].value.positionBuffer.Some?
    {
      var s := Extent(SlotRects(nodes, nodes[id].inputs));
      ExtentIsBoundingBox(SlotRects(nodes, nodes[id].inputs));
      BaseResize(id, s.width, s.height);
      SlotRectsResized(old(nodes), nodes, rank, rankBound, id);
      if gl {
        ghost var t1 := nodes;
        RefreshSlotBuffers(id);
        KeptBelowOne(t1, id, nodes[id], rank);
        SlotRectsResized(t1, nodes, rank, rankBound, id);
        ResizedTransitive(old(nodes), t1, nodes);
        KeptBelowTransitive(old(nodes), t1, nodes, rank, rank[id]);
      }
    }

    /**
     * The vertex-buffer loop of the mix `resize`, in index order: an occupied
     * slot without a buffer gets a new one, and every occupied slot's buffer
     * is written with the slot's rectangle.
     */
    method RefreshSlotBuffers(id: NodeId)
      requires Valid() && id in nodes && nodes[id].kind.MixNode?
      modifies this`nodes, this`ops, this`nextHandle
      ensures Valid() && AllResized(old(nodes), nodes)
      ensures nodes == old(nodes)[id := old(nodes[id]).(inputs := nodes[id].inputs)]
      ensures Buffered(old(nodes[id].inputs), nodes[id].inputs, old(nextHandle), nextHandle)
      ensures ops == old(ops) + SlotBufferWrites(id, old(nodes), nodes[id].inputs)
    {
      var slots := WriteSlotBuffers(id);
      var m := nodes[id].(inputs := slots);
      ResizeOne(nodes, id, m);
      ResizedIsPulled(nodes, nodes[id := m]);
      PulledKept(rank, rankBound, nextId, listeners, nodes, nodes[id := m]);
      nodes := nodes[id := m];
    }

    /** That loop, over a copy of the slot table that it returns. */
    method WriteSlotBuffers(id: NodeId) returns (slots: seq<Option<Slot>>)
      requires id in nodes
      modifies this`ops, this`nextHandle
      ensures Buffered(nodes[id].inputs, slots, old(nextHandle), nextHandle)
      ensures ops == old(ops) + SlotBufferWrites(id, nodes, slots)
    {
      var table := nodes;
      var given := table[id].inputs;
      slots := given;
      var i := 0;
      while i < |slots|
        invariant i <= |slots| == |given| && old(nextHandle) <= nextHandle
        invariant slots[i..] == given[i..]
        invariant forall j | 0 <= j < i :: BufferedSlot(given[j], slots[j], old(nextHandle), nextHandle)
        invariant ops == old(ops) + SlotBufferWrites(id, table, slots[..i])
      {
        ghost var before := slots;
        assert slots[i] == given[i] by { assert slots[i..][0] == given[i..][0]; }
        slots := WriteSlotBuffer(id, table, slots, i);
        SlotBufferWritesSnoc(id, table, slots, i);
        assert slots[..i] == before[..i];
        assert slots[i + 1..] == given[i + 1..] by { assert before[i + 1..] == before[i..][1..]; }
        i := i + 1;
      }
      assert slots[..i] == slots;
    }

    /** Gives slot `i` a vertex buffer if it has none and writes its rectangle there. */
    method WriteSlotBuffer(mix: NodeId, table: map<NodeId, Node>, slots: seq<Option<Slot>>, i: nat)
      returns (r: seq<Option<Slot>>)
      requires i < |slots|
      modifies this`ops, this`nextHandle
      ensures |r| == |slots| && r[..i] == slots[..i] && r[i + 1..] == slots[i + 1..]
      ensures old(nextHandle) <= nextHandle
      ensures BufferedSlot(slots[i], r[i], old(nextHandle), nextHandle)
      ensures ops == old(ops) + SlotWrite(mix, table, r, i)
    {
      r := slots;
      if r[i].Some? {
        var slot := r[i].value;
        if slot.positionBuffer.None? {
          slot := slot.(positionBuffer := Some(nextHandle));
          nextHandle := nextHandle + 1;
          r := r[i := Some(slot)];
        }
        if slot.node in table {
          ops := ops + [SlotBuffer(mix, i, slot.positionBuffer.value, SlotBounds(slot, table[slot.node]))];
        }
      }
    }

    // ---------------------------------------------------------------- nodes

    /**
     * The node constructors. The base constructor registers the node's
     * one-shot `disconnect` listener, resolves the class's options against
     * the context's size and, on the GPU, allocates the node's resources;
     * a throw there destroys the context with the reason `InitFailed(name)`.
     * Then the class's own constructor: a mirror uploads its coordinate
     * table (a throw destroys the context) or, on a raster surface, flips
     * its drawing horizontally; a track source plays its wrapped track.
     * The node, `Built` from all that, gets the next id and the rank `r`.
     *
     * When the base constructor's allocation throws for a class whose
     * `close` reads a field of its own, the destroy it starts throws in turn
     * (`threw`): every listener has closed its node, the new one last, but
     * the backend is still there and no `unavailable` is emitted.
     */
    method NewNode(kind: NodeKind, options: Option<VideoNodeOptions>, image: ImageSource?, track: Option<TrackId>,
                   ghost r: nat, fault: NodeFault) returns (id: NodeId, threw: bool)
      requires Valid()
      requires kind.IsSource() <==> image != null
      requires (kind == TrackSourceNode || kind == TrackDestinationNode) <==> track.Some?
      requires fault.TexCoordFault? ==> kind.MirrorNode?
      requires kind == TrackDestinationNode ==> Available()
      modifies this`nodes, this`nextId, this`rank, this`rankBound, this`listeners, this`nextHandle, this`events,
        this`ops, this`gl, this`ctx2d, this`hasCanvas, this`canvasWidth, this`canvasHeight, this`lossHandler,
        this`staleLossHandlers, this`state, this`glFailed, timer`armed
      ensures Valid()
      ensures id == old(nextId) && id !in old(nodes) && nodes.Keys == old(nodes).Keys + {id} && rank[id] == r
      ensures var c := Resolve(KindOptions(kind, options), old(Width()), old(Height()));
        nextHandle == BuiltGpu(kind, c, old(defaultProgram), old(nextHandle), old(gl), fault).next
      ensures threw <==> old(gl) && fault.AllocationFault? && kind.CloseReadsOwnField()
      ensures !(old(gl) && !fault.NoFault?) ==>
        var c := Resolve(KindOptions(kind, options), old(Width()), old(Height()));
        var a := BuiltGpu(kind, c, old(defaultProgram), old(nextHandle), old(gl), fault);
        var n := Built(kind, c, image, track, old(gl), old(ctx2d), a.gpu);
        && nodes == old(nodes)[id := n] && listeners == old(listeners) + [id]
        && state == old(state) && events == old(events)
        && ops == old(ops) + (if kind.MirrorNode? && n.surface.ctx2d then [FlipTransform(id, n.width)] else [])
                           + (if kind == TrackSourceNode then [PlayVideo(id)] else [])
      ensures old(gl) && !fault.NoFault? && !threw ==>
        var c := Resolve(KindOptions(kind, options), old(Width()), old(Height()));
        && state == Uninitialized && glFailed && !Available() && listeners == [] && nodes[id].state == Closed
        && events == old(events) + [DisconnectEvent, Unavailable(FaultReason(fault, c.name), Some(fault.error))]
      ensures threw ==>
        && state == old(state) && gl == old(gl) && ctx2d == old(ctx2d) && hasCanvas == old(hasCanvas)
        && lossHandler == old(lossHandler) && glFailed == old(glFailed) && Available() == old(Available())
        && listeners == [] && nodes[id].state == Closed && events == old(events) + [DisconnectEvent]
    {
      var c := Resolve(KindOptions(kind, options), Width(), Height());
      var n;
      id, n := Construct(kind, c, image, track, r, fault);
      assert kind == TrackSourceNode ==> n.tracks.(mediaStream := Some({track.value})) == n.tracks;
      threw := Conclude(id, n, c.name, track, fault);
    }

    /**
     * What follows the allocations of the new node `n`, registered as `id`:
     * a construction fault on the GPU destroys the context, which throws for
     * a class whose `close` reads its own fields; otherwise the subclass
     * constructor finishes.
     */
    method Conclude(id: NodeId, n: Node, name: string, track: Option<TrackId>, fault: NodeFault) returns (threw: bool)
      requires Valid() && id in nodes && nodes[id] == n && |listeners| > 0 && listeners[|listeners| - 1] == id
      requires n.kind == TrackSourceNode ==> track.Some? && n.tracks.(mediaStream := Some({track.value})) == n.tracks
      modifies this`nodes, this`listeners, this`events, this`ops, this`gl, this`ctx2d, this`hasCanvas,
        this`canvasWidth, this`canvasHeight, this`lossHandler, this`staleLossHandlers, this`state, this`glFailed, timer`armed
      ensures Valid() && nodes.Keys == old(nodes).Keys
      ensures threw <==> old(gl) && fault.AllocationFault? && n.kind.CloseReadsOwnField()
      ensures !(old(gl) && !fault.NoFault?) ==>
        && nodes == old(nodes) && listeners == old(listeners) && state == old(state) && events == old(events)
        && ops == old(ops) + (if n.kind.MirrorNode? && n.surface.ctx2d then [FlipTransform(id, n.width)] else [])
                           + (if n.kind == TrackSourceNode then [PlayVideo(id)] else [])
      ensures old(gl) && !fault.NoFault? && !threw ==>
        && state == Uninitialized && glFailed && !Available() && listeners == [] && nodes[id].state == Closed
        && events == old(events) + [DisconnectEvent, Unavailable(FaultReason(fault, name), Some(fault.error))]
      ensures threw ==>
        && state == old(state) && gl == old(gl) && ctx2d == old(ctx2d) && hasCanvas == old(hasCanvas)
        && lossHandler == old(lossHandler) && glFailed == old(glFailed) && Available() == old(Available())
        && listeners == [] && nodes[id].state == Closed && events == old(events) + [DisconnectEvent]
    {
      threw := gl && fault.AllocationFault? && n.kind.CloseReadsOwnField();
      if threw {
        Abandon(id);
      } else if gl && !fault.NoFault? {
        Abort(id, FaultReason(fault, name), fault.error);
      } else {
        Settle(id, track);
      }
    }

    /** The end of a constructor that did not throw: a mirror on a raster surface flips, a track source plays. */
    method Settle(id: NodeId, track: Option<TrackId>)
      requires Valid() && id in nodes
      requires nodes[id].kind == TrackSourceNode ==>
        track.Some? && nodes[id].tracks.(mediaStream := Some({track.value})) == nodes[id].tracks
      modifies this`nodes, this`ops
      ensures Valid() && nodes == old(nodes)
      ensures var n := nodes[id];
        ops == old(ops) + (if n.kind.MirrorNode? && n.surface.ctx2d then [FlipTransform(id, n.width)] else [])
                        + (if n.kind == TrackSourceNode then [PlayVideo(id)] else [])
    {
      var n := nodes[id];
      if n.kind.MirrorNode? && n.surface.ctx2d {
        ops := ops + [FlipTransform(id, n.width)];
      }
      if n.kind == TrackSourceNode {
        Wrap(id, track.value);
      }
    }

    /** The base constructor's allocation and registration of a node of `kind` with the resolved options `c`. */
    method Construct(kind: NodeKind, c: Config, image: ImageSource?, track: Option<TrackId>, ghost r: nat, fault: NodeFault)
      returns (id: NodeId, n: Node)
      requires Valid()
      requires kind.IsSource() <==> image != null
      requires kind == TrackSourceNode || kind == TrackDestinationNode ==> track.Some?
      modifies this`nodes, this`nextId, this`rank, this`rankBound, this`listeners, this`nextHandle
      ensures Valid() && id == old(nextId) && id !in old(nodes) && rank == old(rank)[id := r]
      ensures var a := BuiltGpu(kind, c, defaultProgram, old(nextHandle), gl, fault);
        && n == Built(kind, c, image, track, gl, ctx2d, a.gpu)
        && nextHandle == a.next
      ensures nodes == old(nodes)[id := n] && listeners == old(listeners) + [id]
    {
      var a := BuiltGpu(kind, c, defaultProgram, nextHandle, gl, fault);
      n := Built(kind, c, image, track, gl, ctx2d, a.gpu);
      nextHandle := a.next;
      id := Register(n, r);
    }

    /** A throw in the constructor of node `id`, the newest listener: the context is destroyed, closing `id` too. */
    method Abort(id: NodeId, reason: Reason, error: string)
      requires Valid() && gl && reason.IsTruthy() && |listeners| > 0 && listeners[|listeners| - 1] == id
      modifies this`events, this`listeners, this`nodes, this`ops, this`gl, this`ctx2d, this`hasCanvas,
        this`canvasWidth, this`canvasHeight, this`lossHandler, this`staleLossHandlers, this`state, this`glFailed, timer`armed
      ensures Valid() && nodes.Keys == old(nodes).Keys && id in nodes && nodes[id].state == Closed
      ensures state == Uninitialized && glFailed && !Available() && listeners == []
      ensures events == old(events) + [DisconnectEvent, Unavailable(reason, Some(error))]
    {
      ghost var t := nodes;
      ghost var ls := listeners;
      Destroy(Some(reason), Some(error));
      AllClosedCloses(t, ls, |ls|);
    }

    /**
     * A throw in the base constructor of node `id`, the newest listener,
     * whose class's `close` reads a field that does not exist yet: `destroy`
     * emits `disconnect` and every listener closes its node, this one last,
     * whose `close` throws once the base `close` is done. The throw leaves
     * `destroy` before it drops anything, and leaves the constructor.
     */
    method Abandon(id: NodeId)
      requires Valid() && |listeners| > 0 && listeners[|listeners| - 1] == id
      modifies this`events, this`listeners, this`nodes, this`ops, timer`armed
      ensures Valid() && nodes.Keys == old(nodes).Keys && id in nodes && nodes[id].state == Closed
      ensures listeners == [] && events == old(events) + [DisconnectEvent]
      ensures state == old(state) && glFailed == old(glFailed) && Available() == old(Available())
      ensures nodes == AllClosed(old(nodes), old(listeners), |old(listeners)|) && AllUnplugged(old(nodes), nodes)
      ensures ops == AllClosedOps(old(ops), old(nodes), old(listeners), |old(listeners)|, gl, defaultProgram)
      ensures timer.armed == old(timer.armed) - AllClosedCleared(old(nodes), old(listeners), |old(listeners)|)
    {
      ghost var t := nodes;
      ghost var ls := listeners;
      Disconnect();
      AllClosedCloses(t, ls, |ls|);
      AllClosedUnplugs(t, ls, |ls|);
    }

    /** Adds node `n`, which has no edges yet, under the next id and the rank `r`, with its `disconnect` listener. */
    method Register(n: Node, ghost r: nat) returns (id: NodeId)
      requires Valid() && n.state == Init && n.input.None? && n.output.None? && n.inputs == []
      requires n.kind.IsSource() ==> n.image != null
      modifies this`nodes, this`nextId, this`rank, this`rankBound, this`listeners
      ensures Valid() && id == old(nextId) && id !in old(nodes)
      ensures nodes == old(nodes)[id := n] && rank == old(rank)[id := r] && listeners == old(listeners) + [id]
    {
      id := nextId;
      ghost var bound := if rankBound <= r then r + 1 else rankBound;
      WiredAdd(nodes, rank, rankBound, id, n, r, bound);
      nodes := nodes[id := n];
      rank := rank[id := r];
      rankBound := bound;
      nextId := nextId + 1;
      listeners := listeners + [id];
    }

    /** The track source's constructor: its stream holds exactly `track`, and its video plays. */
    method Wrap(id: NodeId, track: TrackId)
      requires Valid() && id in nodes
      modifies this`nodes, this`ops
      ensures Valid() && nodes == old(nodes)[id := old(nodes[id]).(tracks := old(nodes[id].tracks).(mediaStream := Some({track})))]
      ensures ops == old(ops) + [PlayVideo(id)]
    {
      var m := nodes[id].(tracks := nodes[id].tracks.(mediaStream := Some({track})));
      SameEdgesKeepSound(nodes, rank, rankBound, id, m);
      nodes := nodes[id := m];
      ops := ops + [PlayVideo(id)];
    }

    // ---------------------------------------------------------------- edges

    /**
     * `addInput(who, layout)` of node `target`, as its class defines it. A
     * mix stores a new slot (`Adopted`), and refuses a missing layout or a
     * taken zIndex (`Refusal`) without changing anything. Any other node
     * takes `who` as its input, then takes `who`'s size when it matches its
     * input's size and both of `who`'s dimensions are non-zero (which may
     * carry on into its output); a destination then arms its timer at the
     * context's frame rate. Nodes ranked up to `who` are not touched.
     */
    method AddInput(target: NodeId, who: NodeId, layout: Option<MixLayout>) returns (err: Option<ConnectError>)
      requires Valid() && target in nodes && who in nodes && rank[who] < rank[target]
      modifies this`nodes, this`ops, this`nextHandle, this`canvasWidth, this`canvasHeight, timer
      ensures Valid() && old(ops) <= ops && old(nextHandle) <= nextHandle
      ensures err.None? <==> Accepts(old(nodes[target]), layout)
      ensures err.Some? ==>
        && err.value == Refusal(layout) && nodes == old(nodes) && ops == old(ops) && nextHandle == old(nextHandle)
        && canvasWidth == old(canvasWidth) && canvasHeight == old(canvasHeight) && timer.armed == old(timer.armed)
      ensures err.None? ==>
        var t := old(nodes)[target := Adopted(old(nodes[target]), who, layout)];
        && AllRearmed(t, nodes) && KeptBelow(t, nodes, rank, rank[target])
        && (AdoptsSize(old(nodes), target, who) ==>
              nodes[target].width == old(nodes[who].width) && nodes[target].height == old(nodes[who].height))
        && (!AdoptsSize(old(nodes), target, who) ==>
              nodes == t[target := t[target].(intervalId := nodes[target].intervalId)] && ops == old(ops))
      ensures err.None? && old(nodes[target].kind.IsDestination()) ==>
        var iv := nodes[target].intervalId;
        iv !in old(timer.armed) && timer.armed == old(timer.armed)[iv := Interval(target, frameRate)]
      ensures !old(nodes[target].kind.IsDestination()) ==>
        timer.armed == old(timer.armed) && nodes[target].intervalId == old(nodes[target].intervalId)
    {
      if !Accepts(nodes[target], layout) {
        return Some(Refusal(layout));
      }
      err := None;
      Adopt(target, who, layout);
      ghost var t := nodes;
      var n := nodes[target];
      if n.kind.MixNode? {
        ArmedAfterResize(t, t, t, target);
        return;
      }
      MatchSize(target, who);
      assert Resized(t[target], nodes[target]);
      ghost var t1 := nodes;
      if n.kind.IsDestination() {
        Start(target, frameRate);
      }
      ArmedAfterResize(t, t1, nodes, target);
    }

    /** The resize of the base `addInput`: to `who`'s size when `target` adopts it (`AdoptsSize`), else nothing. */
    method MatchSize(target: NodeId, who: NodeId)
      requires Valid() && target in nodes && who in nodes
      modifies this`nodes, this`ops, this`nextHandle, this`canvasWidth, this`canvasHeight
      ensures Valid() && AllResized(old(nodes), nodes) && KeptBelow(old(nodes), nodes, rank, rank[target])
      ensures old(ops) <= ops && old(nextHandle) <= nextHandle
      ensures AdoptsSize(old(nodes), target, who) ==>
        nodes[target].width == old(nodes[who].width) && nodes[target].height == old(nodes[who].height)
      ensures !AdoptsSize(old(nodes), target, who) ==>
        && nodes == old(nodes) && ops == old(ops) && nextHandle == old(nextHandle)
        && canvasWidth == old(canvasWidth) && canvasHeight == old(canvasHeight)
    {
      var n := nodes[target];
      if !n.kind.MixNode? && n.matchInputSize && nodes[who].width != 0 && nodes[who].height != 0 {
        Resize(target, nodes[who].width, nodes[who].height);
        assert Resized(old(nodes)[target], nodes[target]);
      }
    }

    /** The edge part of `addInput`: the entry of `target` becomes `Adopted(target, who, layout)`. */
    method Adopt(target: NodeId, who: NodeId, layout: Option<MixLayout>)
      requires Valid() && target in nodes && who in nodes && rank[who] < rank[target] && Accepts(nodes[target], layout)
      modifies this`nodes
      ensures Valid() && nodes == old(nodes)[target := Adopted(old(nodes[target]), who, layout)]
    {
      var n := Adopted(nodes[target], who, layout);
      assert Linked(nodes, rank, rankBound, target);
      AdoptedLinked(nodes, rank, rankBound, target, who, layout);
      WiredUpdate(nodes, rank, rankBound, target, n);
      assert Settled(nodes[target]);
      nodes := nodes[target := n];
    }

    /** `start` of the destination `id`: arms the shared timer at `rate` and keeps the new interval id. */
    method Start(id: NodeId, rate: int)
      requires Valid() && id in nodes
      modifies this`nodes, timer
      ensures Valid()
      ensures var iv := nodes[id].intervalId; iv !in old(timer.armed) && timer.armed == old(timer.armed)[iv := Interval(id, rate)]
      ensures nodes == old(nodes)[id := old(nodes[id]).(intervalId := nodes[id].intervalId)]
    {
      var iv := timer.SetInterval(id, rate);
      var m := nodes[id].(intervalId := iv);
      SameEdgesKeepSound(nodes, rank, rankBound, id, m);
      nodes := nodes[id := m];
    }

    /**
     * `connect(target, layout)` of node `id`: allowed only in the init state.
     * The target takes the node as its input (`AddInput`); when it refuses,
     * the error is thrown and nothing changes. Then the node points at the
     * target and is connected, and a mix resizes itself to the bounding box
     * of its slots. The edges end as `Attached` says; only sizes, buffers and
     * the target's interval id may differ from it.
     */
    method Connect(id: NodeId, target: NodeId, layout: Option<MixLayout>) returns (r: Result<NodeId, ConnectError>)
      requires Valid() && id in nodes && target in nodes && rank[id] < rank[target]
      modifies this`nodes, this`ops, this`nextHandle, this`canvasWidth, this`canvasHeight, timer
      ensures Valid() && old(ops) <= ops
      ensures old(nodes[id].state) != Init ==> r == Err(ConnectRefused)
      ensures r.Ok? <==> NodeNext(old(nodes[id].state), NodeCall.Connect).Some? && Accepts(old(nodes[target]), layout)
      ensures r.Err? ==>
        && nodes == old(nodes) && ops == old(ops) && nextHandle == old(nextHandle)
        && canvasWidth == old(canvasWidth) && canvasHeight == old(canvasHeight) && timer.armed == old(timer.armed)
      ensures r.Ok? ==> r.value == target && AllRearmed(Attached(old(nodes), id, target, layout), nodes)
      ensures r.Ok? && old(nodes[id].kind.MixNode?) ==> Following(nodes, id, 0, 0)
    {
      if nodes[id].state != Init {
        return Err(ConnectRefused);
      }
      var err := AddInput(target, id, layout);
      if err.Some? {
        return Err(err.value);
      }
      AttachedRearmed(old(nodes), nodes, id, target, layout);
      Plug(id, target);
      if nodes[id].kind.MixNode? {
        ghost var t1 := nodes;
        Resize(id, 0, 0);
        RearmedThenResized(Attached(old(nodes), id, target, layout), t1, nodes);
      }
      r := Ok(target);
    }

    /** The end of `connect`: node `id` points at `target` and is connected. */
    method Plug(id: NodeId, target: NodeId)
      requires Valid() && id in nodes && target in nodes && rank[id] < rank[target]
      modifies this`nodes
      ensures Valid() && nodes == old(nodes)[id := old(nodes[id]).(state := Connected, output := Some(target))]
    {
      var n := nodes[id].(state := Connected, output := Some(target));
      assert Linked(nodes, rank, rankBound, id);
      WiredUpdate(nodes, rank, rankBound, id, n);
      nodes := nodes[id := n];
    }

    /**
     * The rank is bookkeeping of the model, not state of the library: it
     * orders the nodes so that every edge climbs, which is what makes a pull
     * end. Any other rank the table respects may replace it at any time, so
     * a `connect` that the old order refused but that closes no cycle can be
     * made after a re-rank; `RaisedSound` gives one for a node that nothing
     * consumes and that has no output, such as one just disconnected
     * (`DetachedUnused`).
     */
    ghost method Rerank(r: map<NodeId, nat>, bound: nat)
      requires Valid() && Sound(nodes, r, bound)
      modifies this`rank, this`rankBound
      ensures Valid() && rank == r && rankBound == bound
    {
      rank, rankBound := r, bound;
    }

    // ---------------------------------------------------------------- pulling frames

    /**
     * `requestFrame` of node `id`: render through the GPU when the context
     * has one, else (or when that rendered nothing) through the 2-D path when
     * the context has a 2-D context; the node counts one more frame when
     * either produced one (`Requested` says when that is, kind by kind).
     * Only nodes ranked below `id` are pulled, so no other node from `id`'s
     * rank up gains a frame. `tr` is the request with every request made
     * below it, down to the sources, the producers showing `views`.
     */
    method RequestFrame(id: NodeId, request: int, ghost views: map<NodeId, Producer>) returns (produced: bool, ghost tr: Trace)
      requires Valid() && id in nodes && Showing(nodes, views)
      modifies this`nodes, this`ops, this`nextHandle, this`canvasWidth, this`canvasHeight
      decreases rankBound + rank[id] + 1, 6
      ensures Valid() && AllPulled(old(nodes), nodes) && FramesKeptFrom(old(nodes), nodes, rank, rank[id], id)
      ensures old(ops) <= ops && old(nextHandle) <= nextHandle
      ensures old(nodes[id].kind.IsSource()) ==> old(nodes[id].image) != null
      ensures Requested(old(nodes), nodes, id, gl, ctx2d, produced)
      ensures tr.id == id && tr.before == old(nodes) && tr.after == nodes && tr.got == produced
      ensures AllFollow([tr], views, gl, ctx2d)
    {
      ghost var subs;
      produced, subs := RenderAny(id, request, views);
      ghost var t := nodes;
      if produced {
        CountFrame(id);
        PulledTransitive(old(nodes), t, nodes);
      }
      Counted(old(nodes), t, nodes, rank, rankBound, ops, id, gl, ctx2d, produced, views, subs);
      tr := Req(id, old(nodes), nodes, produced, subs);
    }

    /**
     * The drawing half of `requestFrame`: `render` when there is a GPU
     * context, then `render2d` when that gave no frame and there is a 2D
     * context; `subs` are the requests either made below `id`.
     */
    method RenderAny(id: NodeId, request: int, ghost views: map<NodeId, Producer>) returns (produced: bool, ghost subs: seq<Trace>)
      requires Valid() && id in nodes && Showing(nodes, views)
      modifies this`nodes, this`ops, this`nextHandle, this`canvasWidth, this`canvasHeight
      decreases rankBound + rank[id] + 1, 5
      ensures Valid() && AllPulled(old(nodes), nodes) && FramesKeptFrom(old(nodes), nodes, rank, rank[id], -1)
      ensures old(ops) <= ops && old(nextHandle) <= nextHandle
      ensures old(nodes[id].kind.IsSource()) ==> old(nodes[id].image) != null && ShotOf(old(nodes[id])) == ShotIn(views, id, old(nodes[id]))
      ensures !(gl && ctx2d)
      ensures gl ==> RenderedBy(old(nodes), nodes, ops, id, true, produced)
      ensures !gl && ctx2d ==> RenderedBy(old(nodes), nodes, ops, id, false, produced)
      ensures !gl && !ctx2d ==> nodes == old(nodes) && !produced && subs == []
      ensures (gl || ctx2d) && old(nodes[id].kind.IsSource()) ==> subs == []
      ensures (gl || ctx2d) && !old(nodes[id].kind.IsSource()) ==> Asked(old(nodes), id, gl, produced, subs) && Reached(subs, old(nodes)) == nodes
      ensures AllFollow(subs, views, gl, ctx2d)
    {
      assert Linked(nodes, rank, rankBound, id);
      assert ShotOf(nodes[id]) == ShotIn(views, id, nodes[id]);
      produced := false;
      subs := [];
      if gl {
        produced, subs := Render(id, request, views);
      }
      if !produced && ctx2d {
        produced, subs := Render2d(id, request, views);
      }
    }

    /** `totalFrames++` on node `id`. */
    method CountFrame(id: NodeId)
      requires Valid() && id in nodes
      modifies this`nodes
      ensures Valid() && AllPulled(old(nodes), nodes)
      ensures nodes == old(nodes)[id := old(nodes[id]).(totalFrames := old(nodes[id].totalFrames) + 1)]
    {
      var counted := nodes[id].(totalFrames := nodes[id].totalFrames + 1);
      PullOne(nodes, id, counted);
      PulledKept(rank, rankBound, nextId, listeners, nodes, nodes[id := counted]);
      nodes := nodes[id := counted];
    }

    /** `render` (the GPU path) of node `id`, as its class defines it; `RenderedBy` says what it promises. */
    method Render(id: NodeId, request: int, ghost views: map<NodeId, Producer>) returns (produced: bool, ghost subs: seq<Trace>)
      requires Valid() && id in nodes && gl && Showing(nodes, views)
      modifies this`nodes, this`ops, this`nextHandle, this`canvasWidth, this`canvasHeight
      decreases rankBound + rank[id] + 1, 4
      ensures Valid() && AllPulled(old(nodes), nodes) && FramesKeptFrom(old(nodes), nodes, rank, rank[id], -1)
      ensures old(ops) <= ops && old(nextHandle) <= nextHandle
      ensures old(nodes[id].kind.IsSource()) ==> old(nodes[id].image) != null && subs == []
      ensures RenderedBy(old(nodes), nodes, ops, id, true, produced)
      ensures !old(nodes[id].kind.IsSource()) ==> Asked(old(nodes), id, true, produced, subs) && Reached(subs, old(nodes)) == nodes
      ensures AllFollow(subs, views, gl, ctx2d)
    {
      assert Linked(nodes, rank, rankBound, id);
      if nodes[id].kind.IsSource() {
        produced := RenderSource(id, true);
        subs := [];
      } else if nodes[id].kind.MixNode? {
        produced, subs := Composite(id, request, true, views);
      } else {
        produced, subs := PassOn(id, request, true, views);
      }
    }

    /** `render2d` of node `id`, as its class defines it; `RenderedBy` says what it promises. */
    method Render2d(id: NodeId, request: int, ghost views: map<NodeId, Producer>) returns (produced: bool, ghost subs: seq<Trace>)
      requires Valid() && id in nodes && Showing(nodes, views)
      modifies this`nodes, this`ops, this`nextHandle, this`canvasWidth, this`canvasHeight
      decreases rankBound + rank[id] + 1, 4
      ensures Valid() && AllPulled(old(nodes), nodes) && FramesKeptFrom(old(nodes), nodes, rank, rank[id], -1)
      ensures old(ops) <= ops && old(nextHandle) <= nextHandle
      ensures old(nodes[id].kind.IsSource()) ==> old(nodes[id].image) != null && subs == []
      ensures RenderedBy(old(nodes), nodes, ops, id, false, produced)
      ensures !old(nodes[id].kind.IsSource()) ==> Asked(old(nodes), id, false, produced, subs) && Reached(subs, old(nodes)) == nodes
      ensures AllFollow(subs, views, gl, ctx2d)
    {
      assert Linked(nodes, rank, rankBound, id);
      if nodes[id].kind.IsSource() {
        produced := RenderSource(id, false);
        subs := [];
      } else if nodes[id].kind.MixNode? {
        produced, subs := Composite(id, request, false, views);
      } else {
        produced, subs := PassOn(id, request, false, views);
      }
    }

    /**
     * `render` (`gpu`) or `render2d` of the mix `id`: pull every slot; when
     * some child gained a frame (and, without the GPU, the mix has a 2-D
     * context) clear the surface and draw the slots in index order. The
     * requests made are those of `PullSlots`.
     */
    method Composite(id: NodeId, request: int, gpu: bool, ghost views: map<NodeId, Producer>)
      returns (produced: bool, ghost subs: seq<Trace>)
      requires Valid() && id in nodes && nodes[id].kind.MixNode? && Showing(nodes, views)
      modifies this`nodes, this`ops, this`nextHandle, this`canvasWidth, this`canvasHeight
      decreases rankBound + rank[id] + 1, 3
      ensures Valid() && AllPulled(old(nodes), nodes) && FramesKeptFrom(old(nodes), nodes, rank, rank[id], -1)
      ensures old(ops) <= ops && old(nextHandle) <= nextHandle
      ensures RenderedBy(old(nodes), nodes, ops, id, gpu, produced)
      ensures Asked(old(nodes), id, gpu, produced, subs) && Reached(subs, old(nodes)) == nodes && AllFollow(subs, views, gl, ctx2d)
    {
      assert Linked(nodes, rank, rankBound, id);
      var noFrame;
      noFrame, subs := PullSlots(id, request, views);
      assert Pulled(old(nodes)[id], nodes[id]);
      produced := !noFrame && (gpu || nodes[id].surface.ctx2d);
      if produced {
        ghost var before := ops;
        SlotsInPulled(old(nodes), nodes, id);
        Paint(id, gpu);
        EndsWithAppend(before, [ClearSurface(id)], Painted(id, nodes, gpu));
      }
      assert !old(nodes[id].kind.IsSource()) && !old(nodes[id].kind.PassesThrough());
    }

    /** Clearing the mix `id`'s surface and drawing its slots, through the GPU or the 2-D context. */
    method Paint(id: NodeId, gpu: bool)
      requires id in nodes && SlotsIn(nodes, nodes[id].inputs) && (gpu || nodes[id].surface.ctx2d)
      modifies this`ops
      ensures ops == old(ops) + [ClearSurface(id)] + Painted(id, nodes, gpu)
    {
      ops := ops + [ClearSurface(id)];
      if gpu {
        DrawTextures(id);
      } else {
        DrawSlots(id);
      }
    }

    /**
     * `render` (`gpu`) or `render2d` of a mirror or destination `id`: request
     * a frame of its input and, if one came, draw it over the whole node.
     * `subs` holds that request.
     */
    method PassOn(id: NodeId, request: int, gpu: bool, ghost views: map<NodeId, Producer>) returns (produced: bool, ghost subs: seq<Trace>)
      requires Valid() && id in nodes && nodes[id].kind.PassesThrough() && Showing(nodes, views)
      modifies this`nodes, this`ops, this`nextHandle, this`canvasWidth, this`canvasHeight
      decreases rankBound + rank[id] + 1, 2
      ensures Valid() && AllPulled(old(nodes), nodes) && FramesKeptFrom(old(nodes), nodes, rank, rank[id], -1)
      ensures old(ops) <= ops && old(nextHandle) <= nextHandle
      ensures RenderedBy(old(nodes), nodes, ops, id, gpu, produced)
      ensures Asked(old(nodes), id, gpu, produced, subs) && Reached(subs, old(nodes)) == nodes && AllFollow(subs, views, gl, ctx2d)
    {
      assert Linked(nodes, rank, rankBound, id);
      var n := nodes[id];
      produced := false;
      subs := [];
      if n.input.Some? {
        var got, s := RequestFrame(n.input.value, request, views);
        subs := [s];
        assert Pulled(old(nodes)[id], nodes[id]) && Pulled(old(nodes)[n.input.value], nodes[n.input.value]);
        if got && gpu {
          ops := ops + [DrawTexture(id, n.input.value)];
          produced := true;
        } else if got {
          produced := Draw2d(id, n.input.value, Rect(0, 0, nodes[id].width, nodes[id].height));
        }
      }
    }

    /** `draw2d` on node `target`: draws `from`'s image at `r` when the target has a 2-D context and `from` an image. */
    method Draw2d(target: NodeId, from: NodeId, r: Rect) returns (drew: bool)
      requires target in nodes && from in nodes
      modifies this`ops
      ensures drew <==> nodes[target].surface.ctx2d && HasImage(nodes[from])
      ensures ops == old(ops) + (if drew then [DrawOf(target, from, nodes[from], r)] else [])
    {
      drew := nodes[target].surface.ctx2d && HasImage(nodes[from]);
      if drew {
        ops := ops + [DrawOf(target, from, nodes[from], r)];
      }
    }

    /** The draw loop of the GPU mix composite: each occupied slot's child texture, in index order. */
    method DrawTextures(id: NodeId)
      requires id in nodes && SlotsIn(nodes, nodes[id].inputs)
      modifies this`ops
      ensures ops == old(ops) + GlComposite(id, nodes, nodes[id].inputs)
    {
      var t := nodes[id].inputs;
      var i := 0;
      while i < |t|
        invariant i <= |t|
        invariant ops == old(ops) + GlComposite(id, nodes, t[..i])
      {
        GlCompositeSnoc(id, nodes, t, i);
        if t[i].Some? {
          var child := t[i].value.node;
          if nodes[child].gpu.texture.Some? {
            ops := ops + [DrawTexture(id, child)];
          }
        }
        i := i + 1;
      }
      assert t[..i] == t;
    }

    /** The draw loop of the 2-D mix composite: each occupied slot's child image at the slot's rectangle, in index order. */
    method DrawSlots(id: NodeId)
      requires id in nodes && SlotsIn(nodes, nodes[id].inputs) && nodes[id].surface.ctx2d
      modifies this`ops
      ensures ops == old(ops) + RasterComposite(id, nodes, nodes[id].inputs)
    {
      var t := nodes[id].inputs;
      var i := 0;
      while i < |t|
        invariant i <= |t|
        invariant ops == old(ops) + RasterComposite(id, nodes, t[..i])
      {
        RasterCompositeSnoc(id, nodes, t, i);
        if t[i].Some? {
          var slot := t[i].value;
          var _ := Draw2d(id, slot.node, SlotBounds(slot, nodes[slot.node]));
        }
        i := i + 1;
      }
      assert t[..i] == t;
    }

    /**
     * The `reduce` that opens both mix renders: asks every occupied slot for
     * a frame, in ascending index order and without stopping at the first
     * success. `subs` holds the requests it makes, one per occupied slot,
     * each made in the table the one before left, the producers showing
     * `views`. "No frame" means no request returned a frame; a request that
     * did made its child gain a frame.
     */
    method PullSlots(id: NodeId, request: int, ghost views: map<NodeId, Producer>) returns (noFrame: bool, ghost subs: seq<Trace>)
      requires Valid() && id in nodes && nodes[id].kind.MixNode? && Showing(nodes, views)
      modifies this`nodes, this`ops, this`nextHandle, this`canvasWidth, this`canvasHeight
      decreases rankBound + rank[id] + 1, 2
      ensures Valid() && AllPulled(old(nodes), nodes) && FramesKeptFrom(old(nodes), nodes, rank, rank[id], -1)
      ensures old(ops) <= ops && old(nextHandle) <= nextHandle
      ensures Ids(subs) == SlotChildren(old(nodes[id].inputs))
      ensures Chained(subs, old(nodes)) && Reached(subs, old(nodes)) == nodes && AllFollow(subs, views, gl, ctx2d)
      ensures noFrame <==> true !in Gots(subs)
      ensures forall k | 0 <= k < |subs| && subs[k].got :: Grew(old(nodes), nodes, subs[k].id)
      ensures !noFrame ==> SlotAdvanced(old(nodes), nodes, id)
    {
      var t := nodes[id].inputs;
      assert Linked(nodes, rank, rankBound, id);
      noFrame := true;
      subs := [];
      var i := 0;
      while i < |t|
        invariant i <= |t| && Valid() && AllPulled(old(nodes), nodes)
        invariant FramesKeptFrom(old(nodes), nodes, rank, rank[id], -1)
        invariant old(ops) <= ops && old(nextHandle) <= nextHandle
        invariant Ids(subs) == SlotChildren(t[..i]) && Showing(old(nodes), views)
        invariant Chained(subs, old(nodes)) && Reached(subs, old(nodes)) == nodes && AllFollow(subs, views, gl, ctx2d)
        invariant noFrame <==> true !in Gots(subs)
        invariant forall k | 0 <= k < |subs| && subs[k].got :: Grew(old(nodes), nodes, subs[k].id)
      {
        SlotChildrenSnoc(t, i);
        if t[i].Some? {
          var child := t[i].value.node;
          var got, s := AskSlot(id, child, request, old(nodes), views, subs);
          noFrame := !got && noFrame;
          subs := subs + [s];
        }
        i := i + 1;
      }
      assert t[..i] == t;
      if !noFrame {
        AnsweredAdvanced(old(nodes), nodes, id, subs);
      }
    }

    /**
     * One pass of that `reduce`: the mix `id` asks its child `child` for a
     * frame. The request `s` extends the run of requests `subs` made since
     * the pull began at `start`, when the producers showed `views`; the
     * children whose requests returned a frame keep the frames they gained,
     * and so does `child` if its request returns one.
     */
    method AskSlot(id: NodeId, child: NodeId, request: int, ghost start: map<NodeId, Node>, ghost views: map<NodeId, Producer>,
                   ghost subs: seq<Trace>)
      returns (got: bool, ghost s: Trace)
      requires Valid() && id in nodes && child in nodes && rank[child] < rank[id]
      requires start.Keys <= rank.Keys && AllPulled(start, nodes) && FramesKeptFrom(start, nodes, rank, rank[id], -1)
      requires forall k | 0 <= k < |subs| && subs[k].got :: Grew(start, nodes, subs[k].id)
      requires Showing(start, views) && Chained(subs, start) && Reached(subs, start) == nodes && AllFollow(subs, views, gl, ctx2d)
      modifies this`nodes, this`ops, this`nextHandle, this`canvasWidth, this`canvasHeight
      decreases rankBound + rank[id] + 1, 0
      ensures Valid() && AllPulled(start, nodes) && FramesKeptFrom(start, nodes, rank, rank[id], -1)
      ensures old(ops) <= ops && old(nextHandle) <= nextHandle
      ensures s.id == child && s.before == old(nodes) && s.after == nodes && s.got == got && AllFollow([s], views, gl, ctx2d)
      ensures forall k | 0 <= k < |subs| + 1 && (subs + [s])[k].got :: Grew(start, nodes, (subs + [s])[k].id)
      ensures Showing(start, views) && Chained(subs + [s], start) && Reached(subs + [s], start) == nodes
      ensures AllFollow(subs + [s], views, gl, ctx2d) && Ids(subs + [s]) == Ids(subs) + [child] && Gots(subs + [s]) == Gots(subs) + [got]
    {
      assert Linked(nodes, rank, rankBound, child);
      ShowingPulled(start, nodes, views);
      got, s := RequestFrame(child, request, views);
      FramesKeptStep(start, old(nodes), nodes, rank, rank[id], rank[child], child);
      if got {
        assert Pulled(start[child], old(nodes)[child]);
      }
      PulledTransitive(start, old(nodes), nodes);
      AnswersKept(start, old(nodes), nodes, subs, s);
      Extended(subs, s, start, views, gl, ctx2d);
    }

    /**
     * `_render` of the source `id`: run the new-frame detection; on a skip
     * nothing changes. Otherwise note the producer, upload (through the GPU
     * only when `upload`, and only into an existing texture), and on a full
     * upload resize the node to the producer's size.
     */
    method RenderSource(id: NodeId, upload: bool) returns (produced: bool)
      requires Valid() && id in nodes && nodes[id].kind.IsSource()
      modifies this`nodes, this`ops, this`nextHandle, this`canvasWidth, this`canvasHeight
      decreases rankBound + rank[id] + 1, 0
      ensures Valid() && AllPulled(old(nodes), nodes) && FramesKeptFrom(old(nodes), nodes, rank, 0, -1)
      ensures old(ops) <= ops && old(nextHandle) <= nextHandle
      ensures old(nodes[id].image) != null
      ensures var n := old(nodes[id]); produced <==> FrameDecision(n).Upload?
      ensures !produced ==> nodes == old(nodes) && ops == old(ops)
      ensures var n := old(nodes[id]); var d := FrameDecision(n);
        produced ==>
        && Uploaded(n, nodes[id])
        && old(ops) + UploadOps(id, n, upload, d.full) <= ops
        && (!d.full ==> nodes == old(nodes)[id := Noted(n)] && ops == old(ops) + UploadOps(id, n, upload, false))
    {
      var n := nodes[id];
      assert Linked(nodes, rank, rankBound, id);
      var d := FrameDecision(n);
      if d.Skip? {
        return false;
      }
      Note(id);
      ghost var t := nodes;
      Upload(id, upload, d.full, d.width, d.height);
      ResizedKeepsFrames(t, nodes, rank);
      PulledThenResized(old(nodes), t, nodes);
      NotedIsUploaded(n, nodes[id]);
      produced := true;
    }

    /**
     * The upload of `_render`: into the texture of the source `id`, if the
     * GPU path has one, and on a full upload the resize to `w` x `h`.
     */
    method Upload(id: NodeId, upload: bool, full: bool, w: nat, h: nat)
      requires Valid() && id in nodes && nodes[id].kind.IsSource()
      modifies this`nodes, this`ops, this`nextHandle, this`canvasWidth, this`canvasHeight
      decreases rankBound + rank[id] + 1, 0
      ensures Valid() && AllResized(old(nodes), nodes) && old(nextHandle) <= nextHandle
      ensures Resized(old(nodes[id]), nodes[id]) && (full ==> nodes[id].width == w && nodes[id].height == h)
      ensures old(ops) + UploadOps(id, old(nodes[id]), upload, full) <= ops
      ensures !full ==> nodes == old(nodes) && ops == old(ops) + UploadOps(id, old(nodes[id]), upload, false)
    {
      ops := ops + UploadOps(id, nodes[id], upload, full);
      if full {
        Resize(id, w, h);
        assert Resized(old(nodes[id]), nodes[id]);
      }
    }

    /** The bookkeeping of `_render` for the source `id`: the node records what `Noted` says. */
    method Note(id: NodeId)
      requires Valid() && id in nodes && nodes[id].image != null
      modifies this`nodes
      ensures Valid() && AllPulled(old(nodes), nodes) && FramesKeptFrom(old(nodes), nodes, rank, 0, -1)
      ensures nodes == old(nodes)[id := Noted(old(nodes[id]))]
    {
      var m := Noted(nodes[id]);
      PullOne(nodes, id, m);
      PulledKept(rank, rankBound, nextId, listeners, nodes, nodes[id := m]);
      nodes := nodes[id := m];
    }

    // ---------------------------------------------------------------- disconnecting and closing

    /**
     * `removeInput(who)` on node `id`: the table entry becomes
     * `Dropped(id, who)`; a destination also clears its timer.
     */
    method RemoveInput(id: NodeId, who: NodeId)
      requires Valid() && id in nodes
      modifies this`nodes, timer`armed
      ensures Valid()
      ensures nodes == old(nodes)[id := Dropped(old(nodes[id]), who)]
      ensures timer.armed == old(timer.armed) - DropCleared(old(nodes), id)
    {
      var a := nodes[id];
      UnplugOne(nodes, id, Dropped(a, who));
      UnpluggedKept(rank, rankBound, nextId, listeners, nodes, nodes[id := Dropped(a, who)]);
      nodes := nodes[id := Dropped(a, who)];
      if a.kind.IsDestination() {
        timer.ClearInterval(a.intervalId);
      }
    }

    /**
     * `disconnect` of node `id`: allowed only when connected, otherwise
     * silently ignored. The output drops the node, whose output is cleared,
     * and the node is back in the init state.
     */
    method DisconnectNode(id: NodeId)
      requires Valid() && id in nodes
      modifies this`nodes, timer`armed
      ensures Valid()
      ensures nodes == Unlinked(old(nodes), id)
      ensures timer.armed == old(timer.armed) - UnlinkCleared(old(nodes), id)
    {
      var a := nodes[id];
      if a.state != Connected {
        return;
      }
      assert Linked(nodes, rank, rankBound, id);
      ghost var goal := Unlinked(nodes, id);
      if a.output.Some? {
        RemoveInput(a.output.value, id);
      }
      UnlinkedUnplugs(old(nodes), id);
      UnpluggedKept(rank, rankBound, nextId, listeners, old(nodes), goal);
      nodes := nodes[id := nodes[id].(state := Init, output := None)];
      assert nodes == goal;
    }

    /**
     * `close` of node `id`. The output drops the node, the node shuts, its
     * input is told to disconnect, its own GPU resources are released (the
     * shared program never), and a mix then disconnects the child of every
     * slot and releases the slot buffers. On a closed node the lifecycle
     * refuses the base `close`, and only the overrides' tails run again: a
     * mix's loop over its slots, a track node's retiring.
     */
    method Close(id: NodeId)
      requires Valid() && id in nodes
      modifies this`nodes, this`ops, timer`armed
      ensures Valid()
      ensures nodes == Closing(old(nodes), id)
      ensures ops == old(ops) + CloseOps(old(nodes), id, gl, defaultProgram)
      ensures timer.armed == old(timer.armed) - CloseCleared(old(nodes), id)
    {
      var a := nodes[id];
      if a.state == Closed {
        if a.kind.MixNode? {
          DisconnectSlots(id);
        } else {
          var m := Retired(a);
          SameEdgesKeepSound(nodes, rank, rankBound, id, m);
          nodes := nodes[id := m];
        }
        return;
      }
      Unhook(id);
      ghost var t3 := nodes;
      var released := if gl then Deletes(Released(a, defaultProgram)) else [];
      ops := ops + released;
      if a.kind.MixNode? {
        DisconnectSlots(id);
        Concat3(old(ops), released, if gl then SlotBufferDeletes(t3, id, 0, |t3[id].inputs|) else []);
        ClearedInTurn(old(timer.armed), UnhookCleared(old(nodes), id), SlotsCleared(t3, id, 0, |t3[id].inputs|));
      }
    }

    /** The steps of `close` before the release calls: the output drops the node, the node shuts, and its input disconnects. */
    method Unhook(id: NodeId)
      requires Valid() && id in nodes
      modifies this`nodes, timer`armed
      ensures Valid()
      ensures nodes == SelfClosed(old(nodes), id)
      ensures timer.armed == old(timer.armed) - UnhookCleared(old(nodes), id)
    {
      var a := nodes[id];
      assert Linked(nodes, rank, rankBound, id);
      ghost var out: set<nat> := if a.output.Some? then DropCleared(nodes, a.output.value) else {};
      if a.output.Some? {
        RemoveInput(a.output.value, id);
      }
      ghost var t0 := old(nodes);
      UnhookedUnplugs(t0, id);
      UnpluggedKept(rank, rankBound, nextId, listeners, t0, Unhooked(t0, id));
      nodes := nodes[id := Shut(nodes[id])];
      assert nodes == Unhooked(t0, id);
      var input := nodes[id].input;
      if input.Some? {
        ghost var inp := UnlinkCleared(nodes, input.value);
        DisconnectNode(input.value);
        ClearedInTurn(old(timer.armed), out, inp);
      }
    }

    /**
     * The loop closing a mix: for each of the slots it had when the loop
     * began, the child in the slot as it is when the loop reaches it
     * disconnects, and the slot's buffer is released.
     */
    method DisconnectSlots(id: NodeId)
      requires Valid() && id in nodes
      modifies this`nodes, this`ops, timer`armed
      ensures Valid()
      ensures nodes == SlotsUnlinked(old(nodes), id, 0, |old(nodes[id].inputs)|)
      ensures ops == old(ops) + (if gl then SlotBufferDeletes(old(nodes), id, 0, |old(nodes[id].inputs)|) else [])
      ensures timer.armed == old(timer.armed) - SlotsCleared(old(nodes), id, 0, |old(nodes[id].inputs)|)
    {
      var n := |nodes[id].inputs|;
      var i := 0;
      ghost var cleared: set<nat> := {};
      while i < n
        invariant Valid() && i <= n
        invariant nodes == SlotsUnlinked(old(nodes), id, 0, i)
        invariant ops == old(ops) + (if gl then SlotBufferDeletes(old(nodes), id, 0, i) else [])
        invariant cleared == SlotsCleared(old(nodes), id, 0, i) && timer.armed == old(timer.armed) - cleared
      {
        SlotsUnlinkedSnoc(old(nodes), id, 0, i);
        SlotsClearedSnoc(old(nodes), id, 0, i);
        ghost var pass := SlotCleared(nodes, id, i);
        DisconnectSlot(id, i);
        ClearedInTurn(old(timer.armed), cleared, pass);
        cleared := cleared + pass;
        i := i + 1;
      }
    }

    /** One pass of that loop, over slot `i`. */
    method DisconnectSlot(id: NodeId, i: nat)
      requires Valid() && id in nodes
      modifies this`nodes, this`ops, timer`armed
      ensures Valid()
      ensures nodes == UnlinkSlot(old(nodes), id, i)
      ensures ops == old(ops) + (if gl then SlotBufferDelete(old(nodes), id, i) else [])
      ensures timer.armed == old(timer.armed) - SlotCleared(old(nodes), id, i)
    {
      if i < |nodes[id].inputs| && nodes[id].inputs[i].Some? {
        var slot := nodes[id].inputs[i].value;
        assert Linked(nodes, rank, rankBound, id);
        DisconnectNode(slot.node);
        if slot.positionBuffer.Some? && gl {
          ops := ops + [DeleteHandle(slot.positionBuffer.value)];
        }
      }
    }

    /**
     * `disconnect` of the context: emits the `disconnect` event. Every node
     * registered a one-shot listener that closes it unless it is already
     * closed, so the listening nodes close in registration order and the
     * listener list empties.
     */
    method Disconnect()
      requires Valid()
      modifies this`events, this`listeners, this`nodes, this`ops, timer`armed
      ensures Valid()
      ensures events == old(events) + [DisconnectEvent] && listeners == []
      ensures nodes == AllClosed(old(nodes), old(listeners), |old(listeners)|)
      ensures ops == AllClosedOps(old(ops), old(nodes), old(listeners), |old(listeners)|, gl, defaultProgram)
      ensures timer.armed == old(timer.armed) - AllClosedCleared(old(nodes), old(listeners), |old(listeners)|)
    {
      var fired := listeners;
      RunListeners(fired);
      listeners := [];
      events := events + [DisconnectEvent];
    }

    /** The listeners `fired` run one after the other. */
    method RunListeners(fired: seq<NodeId>)
      requires Valid() && forall k | 0 <= k < |fired| :: fired[k] in nodes
      modifies this`nodes, this`ops, timer`armed
      ensures Valid()
      ensures nodes == AllClosed(old(nodes), fired, |fired|)
      ensures ops == AllClosedOps(old(ops), old(nodes), fired, |fired|, gl, defaultProgram)
      ensures timer.armed == old(timer.armed) - AllClosedCleared(old(nodes), fired, |fired|)
    {
      RunFrom(nodes, ops, timer.armed, fired, 0);
    }

    /**
     * The listeners `fired[i..]` run one after the other, after the `i`
     * before them, which took the table from `t`, the call log from `log`
     * and the armed intervals from `armed` to what they are now.
     */
    method RunFrom(ghost t: map<NodeId, Node>, ghost log: seq<Op>, ghost armed: map<nat, Interval>, fired: seq<NodeId>, i: nat)
      requires Valid() && i <= |fired| && forall k | 0 <= k < |fired| :: fired[k] in t
      requires nodes == AllClosed(t, fired, i) && ops == AllClosedOps(log, t, fired, i, gl, defaultProgram)
      requires timer.armed == armed - AllClosedCleared(t, fired, i)
      modifies this`nodes, this`ops, timer`armed
      ensures Valid()
      ensures nodes == AllClosed(t, fired, |fired|) && ops == AllClosedOps(log, t, fired, |fired|, gl, defaultProgram)
      ensures timer.armed == armed - AllClosedCleared(t, fired, |fired|)
      decreases |fired| - i
    {
      if i < |fired| {
        Listen(fired[i]);
        AllClosedStep(log, t, fired, i, gl, defaultProgram);
        RunFrom(t, log, armed, fired, i + 1);
      }
    }

    /** One node's `disconnect` listener: the node closes unless it is closed already. */
    method Listen(l: NodeId)
      requires Valid() && l in nodes
      modifies this`nodes, this`ops, timer`armed
      ensures Valid()
      ensures nodes == CloseListed(old(nodes), l)
      ensures ops == old(ops) + ListenedOps(old(nodes), l, gl, defaultProgram)
      ensures timer.armed == old(timer.armed) - ListenCleared(old(nodes), l)
    {
      if nodes[l].state != Closed {
        Close(l);
      }
    }

    /**
     * `destroy`: allowed only on a created context, otherwise silently
     * ignored. It first emits `disconnect` (closing every listening node
     * while the backend still exists), then releases the shared program and
     * drops the GPU context, the 2-D context and the canvas. A truthy reason
     * marks the failure flag and emits `unavailable`.
     */
    method Destroy(reason: Option<Reason>, error: Option<string>)
      requires Valid()
      modifies this`events, this`listeners, this`nodes, this`ops, this`gl, this`ctx2d, this`hasCanvas,
        this`canvasWidth, this`canvasHeight, this`lossHandler, this`staleLossHandlers, this`state, this`glFailed, timer`armed
      ensures Valid()
      ensures old(state) != Created ==>
        && events == old(events) && listeners == old(listeners) && nodes == old(nodes) && ops == old(ops)
        && gl == old(gl) && ctx2d == old(ctx2d) && hasCanvas == old(hasCanvas) && lossHandler == old(lossHandler)
        && state == old(state) && glFailed == old(glFailed) && timer.armed == old(timer.armed)
      ensures old(state) == Created ==>
        state == Uninitialized && !gl && !ctx2d && !Available() && listeners == [] && !lossHandler
      ensures old(state) == Created ==> nodes == AllClosed(old(nodes), old(listeners), |old(listeners)|)
      ensures old(state) == Created ==>
        ops == AllClosedOps(old(ops), old(nodes), old(listeners), |old(listeners)|, old(gl), defaultProgram)
          + (if old(gl) && defaultProgram.Some? then [DeleteHandle(defaultProgram.value)] else [])
      ensures old(state) == Created ==>
        var truthy := reason.Some? && reason.value.IsTruthy();
        && events == old(events) + [DisconnectEvent] + (if truthy then [Unavailable(reason.value, error)] else [])
        && glFailed == (old(glFailed) || truthy)
      ensures old(state) == Created ==>
        timer.armed == old(timer.armed) - AllClosedCleared(old(nodes), old(listeners), |old(listeners)|)
      ensures var next := ContextNext(old(state), ContextCall.Destroy); next.Some? ==> state == next.value
      ensures staleLossHandlers == old(staleLossHandlers) + (if old(state) == Created && old(lossHandler) then 1 else 0)
    {
      if state != Created {
        return;
      }
      Disconnect();
      Release(reason, error);
    }

    /**
     * What `destroy` does once every listener has run: the shared program is
     * deleted, the backend dropped, and a truthy reason reported.
     */
    method Release(reason: Option<Reason>, error: Option<string>)
      requires Valid()
      modifies this`events, this`ops, this`gl, this`ctx2d, this`hasCanvas,
        this`canvasWidth, this`canvasHeight, this`lossHandler, this`staleLossHandlers, this`state, this`glFailed
      ensures Valid()
      ensures state == Uninitialized && !gl && !ctx2d && !Available() && !lossHandler
      ensures ops == old(ops) + (if old(gl) && defaultProgram.Some? then [DeleteHandle(defaultProgram.value)] else [])
      ensures var truthy := reason.Some? && reason.value.IsTruthy();
        && events == old(events) + (if truthy then [Unavailable(reason.value, error)] else [])
        && glFailed == (old(glFailed) || truthy)
      ensures staleLossHandlers == old(staleLossHandlers) + (if old(lossHandler) then 1 else 0)
    {
      if gl && defaultProgram.Some? {
        ops := ops + [DeleteHandle(defaultProgram.value)];
      }
      DropBackend();
      if reason.Some? && reason.value.IsTruthy() {
        glFailed := true;
        events := events + [Unavailable(reason.value, error)];
      }
    }

    /**
     * The end of `destroy`: no GPU context, no 2-D context, and the canvas
     * removed and zeroed. The canvas keeps its loss listener, which the
     * context no longer tracks as its own but which still calls it.
     */
    method DropBackend()
      requires Valid()
      modifies this`gl, this`ctx2d, this`hasCanvas, this`canvasWidth, this`canvasHeight, this`lossHandler, this`staleLossHandlers, this`state
      ensures Valid()
      ensures state == Uninitialized && !gl && !ctx2d && !Available() && !lossHandler
      ensures old(hasCanvas) ==> canvasWidth == 0 && canvasHeight == 0
      ensures !old(hasCanvas) ==> canvasWidth == old(canvasWidth) && canvasHeight == old(canvasHeight)
      ensures staleLossHandlers == old(staleLossHandlers) + (if old(lossHandler) then 1 else 0)
    {
      gl := false;
      ctx2d := false;
      if hasCanvas {
        canvasWidth := 0;
        canvasHeight := 0;
        hasCanvas := false;
        if lossHandler {
          staleLossHandlers := staleLossHandlers + 1;
        }
        lossHandler := false;
      }
      state := Uninitialized;
    }

    /**
     * The `webglcontextlost` listener: it destroys the context with that
     * reason. It fires for the canvas the context holds (`stale` false) or
     * for a canvas an earlier `destroy` dropped (`stale` true), whose
     * listener still destroys the context as it is now.
     */
    method OnContextLost(stale: bool)
      requires Valid()
      requires stale ==> staleLossHandlers > 0
      modifies this`events, this`listeners, this`nodes, this`ops, this`gl, this`ctx2d, this`hasCanvas,
        this`canvasWidth, this`canvasHeight, this`lossHandler, this`staleLossHandlers, this`state, this`glFailed, timer`armed
      ensures Valid()
      ensures var fires := (stale || old(lossHandler)) && old(state) == Created;
        && (fires ==>
              && state == Uninitialized && glFailed && !Available() && !lossHandler && listeners == []
              && events == old(events) + [DisconnectEvent, Unavailable(ContextLost, None)])
        && (!fires ==>
              && events == old(events) && listeners == old(listeners) && nodes == old(nodes) && ops == old(ops)
              && gl == old(gl) && ctx2d == old(ctx2d) && hasCanvas == old(hasCanvas) && lossHandler == old(lossHandler)
              && state == old(state) && glFailed == old(glFailed) && timer.armed == old(timer.armed))
      ensures staleLossHandlers == old(staleLossHandlers) + (if old(lossHandler) then 1 else 0)
    {
      if stale || lossHandler {
        Destroy(Some(ContextLost), None);
      }
    }

    // ---------------------------------------------------------------- destinations and tracks

    /**
     * One firing of the interval `iv`, which destination `id` armed at the
     * frame rate it records. When the context's frame rate has changed
     * since, the destination clears its current interval and arms a new one
     * at the context's rate. Then it requests a frame under its sequence
     * number, which it increments, and on the GPU path an error (`glError`)
     * destroys the context with a reason carrying the new sequence number,
     * the frame count and the error as read a second time (`glErrorAgain`).
     * `tr` is that request, made in the table the re-arming and the new
     * number left, with every request made below it, the producers showing
     * what they showed when the interval fired.
     */
    method Tick(id: NodeId, iv: nat, glError: int, glErrorAgain: int) returns (produced: bool, ghost tr: Trace)
      requires Valid() && id in nodes && nodes[id].kind.IsDestination() && iv in timer.armed && timer.armed[iv].owner == id
      modifies this`events, this`listeners, this`nodes, this`ops, this`gl, this`ctx2d, this`hasCanvas,
        this`canvasWidth, this`canvasHeight, this`lossHandler, this`staleLossHandlers, this`state, this`glFailed, this`nextHandle, timer
      ensures Valid() && nodes.Keys == old(nodes).Keys && id in nodes
      ensures nodes[id].sequence == old(nodes[id].sequence) + 1
      ensures nodes[id].totalFrames == old(nodes[id].totalFrames) + (if produced then 1 else 0)
      ensures produced <==> (InputAdvanced(old(nodes), nodes, id)
        && (old(gl) || (old(nodes[id].surface.ctx2d) && HasImage(old(nodes)[old(nodes[id].input.value)]))))
      ensures tr.id == id && tr.got == produced && AllFollow([tr], old(Views(nodes)), old(gl), old(ctx2d))
      ensures id in tr.before && tr.before == old(nodes)[id := old(nodes[id]).(intervalId := tr.before[id].intervalId, sequence := old(nodes[id].sequence) + 1)]
      ensures !(old(gl) && glError != NoError) ==>
        && tr.after == nodes && AllPulled(tr.before, nodes)
        && state == old(state) && events == old(events)
        && (old(timer.armed[iv].frameRate) == old(frameRate) ==>
              timer.armed == old(timer.armed) && nodes[id].intervalId == old(nodes[id].intervalId))
        && (old(timer.armed[iv].frameRate) != old(frameRate) ==>
              var was := old(nodes[id].intervalId);
              && nodes[id].intervalId !in old(timer.armed) - {was}
              && timer.armed == (old(timer.armed) - {was})[nodes[id].intervalId := Interval(id, old(frameRate))])
      ensures old(gl) && glError != NoError ==>
        && state == Uninitialized && !Available() && glFailed
        && events == old(events) + [DisconnectEvent,
             Unavailable(RenderFailed(old(nodes[id].name), nodes[id].sequence, nodes[id].totalFrames, glErrorAgain), None)]
    {
      produced, tr := Fire(id, iv);
      if gl && glError != NoError {
        ghost var u := nodes;
        Fail(id, glErrorAgain);
        assert Unplugged(u[id], nodes[id]);
        var input := old(nodes[id].input);
        if input.Some? && input.value in u {
          assert Unplugged(u[input.value], nodes[input.value]);
        }
      }
    }

    /**
     * What a firing does before the error check: re-arm when the rate has
     * changed, take the sequence number `current` and advance it, and make
     * the request `tr` under `current` in the table that leaves.
     */
    method Fire(id: NodeId, iv: nat) returns (produced: bool, ghost tr: Trace)
      requires Valid() && id in nodes && nodes[id].kind.IsDestination() && iv in timer.armed && timer.armed[iv].owner == id
      modifies this`nodes, this`ops, this`nextHandle, this`canvasWidth, this`canvasHeight, timer
      ensures Valid() && nodes.Keys == old(nodes).Keys && id in nodes
      ensures nodes[id].name == old(nodes[id].name)
      ensures nodes[id].sequence == old(nodes[id].sequence) + 1
      ensures nodes[id].totalFrames == old(nodes[id].totalFrames) + (if produced then 1 else 0)
      ensures produced <==> (InputAdvanced(old(nodes), nodes, id)
        && (gl || (old(nodes[id].surface.ctx2d) && HasImage(old(nodes)[old(nodes[id].input.value)]))))
      ensures tr.id == id && tr.got == produced && AllFollow([tr], old(Views(nodes)), gl, ctx2d)
      ensures id in tr.before && tr.before == old(nodes)[id := old(nodes[id]).(intervalId := tr.before[id].intervalId, sequence := old(nodes[id].sequence) + 1)]
      ensures tr.after == nodes && AllPulled(tr.before, nodes)
      ensures old(timer.armed[iv].frameRate) == frameRate ==>
        timer.armed == old(timer.armed) && nodes[id].intervalId == old(nodes[id].intervalId)
      ensures old(timer.armed[iv].frameRate) != frameRate ==>
        var was := old(nodes[id].intervalId);
        && nodes[id].intervalId !in old(timer.armed) - {was}
        && timer.armed == (old(timer.armed) - {was})[nodes[id].intervalId := Interval(id, frameRate)]
    {
      assert Linked(nodes, rank, rankBound, id);
      ghost var views := Views(nodes);
      Rearm(id, iv);
      ghost var rearmed := nodes;
      var current := Advance(id);
      assert nodes == old(nodes)[id := old(nodes[id]).(intervalId := rearmed[id].intervalId, sequence := current + 1)] by {
        assert rearmed == old(nodes)[id := rearmed[id]];
      }
      ShowingUpdated(old(nodes), views, id, nodes[id]);
      produced, tr := Request(id, current, views);
    }

    /**
     * The request of destination `id` under the number `current`: only what
     * a pull changes may change, as `Requested` says, and `tr` is the
     * request with every request made below it, the producers showing
     * `views` throughout.
     */
    method Request(id: NodeId, current: nat, ghost views: map<NodeId, Producer>) returns (produced: bool, ghost tr: Trace)
      requires Valid() && id in nodes && nodes[id].kind.IsDestination() && Showing(nodes, views)
      modifies this`nodes, this`ops, this`nextHandle, this`canvasWidth, this`canvasHeight
      ensures Valid() && AllPulled(old(nodes), nodes)
      ensures nodes[id].name == old(nodes[id].name) && nodes[id].sequence == old(nodes[id].sequence)
      ensures nodes[id].intervalId == old(nodes[id].intervalId)
      ensures nodes[id].totalFrames == old(nodes[id].totalFrames) + (if produced then 1 else 0)
      ensures produced <==> (InputAdvanced(old(nodes), nodes, id)
        && (gl || (old(nodes[id].surface.ctx2d) && HasImage(old(nodes)[old(nodes[id].input.value)]))))
      ensures tr.id == id && tr.before == old(nodes) && tr.after == nodes && tr.got == produced
      ensures AllFollow([tr], views, gl, ctx2d)
    {
      produced, tr := RequestFrame(id, current, views);
      assert Pulled(old(nodes)[id], nodes[id]);
    }

    /** The start of an interval's callback: a rate that differs from the context's re-arms the destination. */
    method Rearm(id: NodeId, iv: nat)
      requires Valid() && id in nodes && iv in timer.armed
      modifies this`nodes, timer
      ensures Valid()
      ensures nodes == old(nodes)[id := old(nodes[id]).(intervalId := nodes[id].intervalId)]
      ensures old(timer.armed[iv].frameRate) == frameRate ==> timer.armed == old(timer.armed) && nodes == old(nodes)
      ensures old(timer.armed[iv].frameRate) != frameRate ==>
        var was := old(nodes[id].intervalId);
        && nodes[id].intervalId !in old(timer.armed) - {was}
        && timer.armed == (old(timer.armed) - {was})[nodes[id].intervalId := Interval(id, frameRate)]
    {
      if timer.armed[iv].frameRate != frameRate {
        timer.ClearInterval(nodes[id].intervalId);
        Start(id, frameRate);
      }
    }

    /** `_sequence++`: the request number `current` is the old counter. */
    method Advance(id: NodeId) returns (current: nat)
      requires Valid() && id in nodes
      modifies this`nodes
      ensures Valid() && current == old(nodes[id].sequence)
      ensures nodes == old(nodes)[id := old(nodes[id]).(sequence := current + 1)]
    {
      current := nodes[id].sequence;
      var m := nodes[id].(sequence := current + 1);
      SameEdgesKeepSound(nodes, rank, rankBound, id, m);
      nodes := nodes[id := m];
    }

    /** A GPU error after a request of destination `id` destroys the context, naming the node's counters. */
    method Fail(id: NodeId, code: int)
      requires Valid() && id in nodes && gl
      modifies this`events, this`listeners, this`nodes, this`ops, this`gl, this`ctx2d, this`hasCanvas,
        this`canvasWidth, this`canvasHeight, this`lossHandler, this`staleLossHandlers, this`state, this`glFailed, timer`armed
      ensures Valid() && AllUnplugged(old(nodes), nodes)
      ensures state == Uninitialized && !Available() && glFailed
      ensures events == old(events) + [DisconnectEvent,
        Unavailable(RenderFailed(old(nodes[id].name), old(nodes[id].sequence), old(nodes[id].totalFrames), code), None)]
    {
      ghost var t := nodes;
      ghost var ls := listeners;
      Destroy(Some(RenderFailed(nodes[id].name, nodes[id].sequence, nodes[id].totalFrames, code)), None);
      AllClosedUnplugs(t, ls, |ls|);
    }

    /**
     * The mute handler of track destination `id`, while it is attached: it
     * detaches itself and destroys the context. A detached handler never runs.
     */
    method OnTrackMute(id: NodeId)
      requires Valid() && id in nodes && nodes[id].kind == TrackDestinationNode
      modifies this`events, this`listeners, this`nodes, this`ops, this`gl, this`ctx2d, this`hasCanvas,
        this`canvasWidth, this`canvasHeight, this`lossHandler, this`staleLossHandlers, this`state, this`glFailed, timer`armed
      ensures Valid() && nodes.Keys == old(nodes).Keys && !nodes[id].tracks.muteHandler
      ensures !old(nodes[id].tracks.muteHandler) ==>
        && events == old(events) && listeners == old(listeners) && nodes == old(nodes) && ops == old(ops)
        && gl == old(gl) && ctx2d == old(ctx2d) && hasCanvas == old(hasCanvas) && lossHandler == old(lossHandler)
        && state == old(state) && glFailed == old(glFailed) && timer.armed == old(timer.armed)
      ensures old(nodes[id].tracks.muteHandler) && old(state) == Created ==>
        && state == Uninitialized && !Available() && glFailed
        && events == old(events) + [DisconnectEvent, Unavailable(TrackMuted, None)]
      ensures old(nodes[id].tracks.muteHandler) && old(state) != Created ==>
        && events == old(events) && state == old(state)
        && nodes == old(nodes)[id := old(nodes[id]).(tracks := old(nodes[id].tracks).(muteHandler := false))]
    {
      if !nodes[id].tracks.muteHandler {
        return;
      }
      var m := nodes[id].(tracks := nodes[id].tracks.(muteHandler := false));
      SameEdgesKeepSound(nodes, rank, rankBound, id, m);
      nodes := nodes[id := m];
      ghost var t := nodes;
      ghost var ls := listeners;
      Destroy(Some(TrackMuted), None);
      if old(state) == Created {
        AllClosedUnplugs(t, ls, |ls|);
        assert Unplugged(t[id], nodes[id]);
      }
    }

    /**
     * `replaceTrack(track)` of track source `id`: a different track takes
     * the wrapped one's place in its stream (`Swapped`) and the video plays
     * again; the same track changes nothing.
     */
    method ReplaceTrack(id: NodeId, track: TrackId)
      requires Valid() && id in nodes && nodes[id].kind == TrackSourceNode
      modifies this`nodes, this`ops
      ensures Valid()
      ensures nodes == old(nodes)[id := old(nodes[id]).(tracks := Swapped(old(nodes[id].tracks), track))]
      ensures ops == old(ops) + (if old(nodes[id].tracks.videoTrack) == Some(track) then [] else [PlayVideo(id)])
    {
      if nodes[id].tracks.videoTrack == Some(track) {
        return;
      }
      var m := nodes[id].(tracks := Swapped(nodes[id].tracks, track));
      SameEdgesKeepSound(nodes, rank, rankBound, id, m);
      nodes := nodes[id := m];
      ops := ops + [PlayVideo(id)];
    }
  }
}
