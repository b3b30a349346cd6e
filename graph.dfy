/**
 * The nodes of the video graph as values. Every node lives in its context's
 * node table under a `NodeId`; the edges `input`, `output` and the mix slots
 * name other nodes by id. GPU resources are opaque handles, and every GPU or
 * 2-D drawing call the runtime makes is recorded as an `Op`.
 *
 * The table is well wired (`Wired`) when every edge names a node of the table
 * and runs from a lower-ranked producer to a higher-ranked consumer; the
 * ranks are ghost and only serve to show that pulls and size propagation end.
 */
module Graph {
  import opened Js
  import opened Lifecycle
  import opened MixGeometry
  import opened TexCoords
  import opened NodeOptions
  import opened SourceFrames
  import opened SlotTable
  import opened Media

  type NodeId = nat

  /** An opaque backend resource: texture, buffer, framebuffer, shader or program. */
  type Handle = nat

  datatype NodeKind =
    | ImageSourceNode       // VideoImageSourceNode
    | TrackSourceNode       // VideoTrackSourceNode
    | MirrorNode            // VideoMirrorNode
    | MixNode               // VideoMixNode
    | DestinationNode       // VideoDestinationNode
    | TrackDestinationNode  // VideoTrackDestination
  {
    predicate IsSource() { ImageSourceNode? || TrackSourceNode? }
    predicate IsDestination() { DestinationNode? || TrackDestinationNode? }
    /** Nodes whose render pulls their single input and draws it. */
    predicate PassesThrough() { MirrorNode? || IsDestination() }
    /**
     * Classes whose `close` override, after the base `close`, reads a field
     * of their own class (the slot table, the video element, the captured
     * track). Such fields only exist once the base constructor has returned.
     */
    predicate CloseReadsOwnField() { MixNode? || TrackSourceNode? || TrackDestinationNode? }
  }

  /** The option bag each node class hands to the base constructor. */
  function KindOptions(kind: NodeKind, user: Option<VideoNodeOptions>): VideoNodeOptions {
    match kind
    case ImageSourceNode => ImageSourceOptions
    case TrackSourceNode => ImageSourceOptions
    case MirrorNode => MirrorOptions
    case MixNode => MixOptions
    case DestinationNode => DestinationOptions(user)
    case TrackDestinationNode => DestinationOptions(user)
  }

  /** The texture-coordinate table each kind leaves in its buffer on the GPU path. */
  function KindTable(kind: NodeKind): seq<int> {
    if kind.MirrorNode? then MirrorTable
    else if kind.IsDestination() then DestinationTable
    else BaseTable
  }

  /** A mix slot (`NodeMixInfo`): the child, its layout, and the vertex buffer made for it. */
  datatype Slot = Slot(node: NodeId, layout: MixLayout, positionBuffer: Option<Handle>)

  function SlotNode(s: Slot): NodeId { s.node }

  /** The GPU resources a node allocates when it is built, and the coordinates it uploads. */
  datatype Gpu = Gpu(
    texture: Option<Handle>,
    fbo: Option<Handle>,
    program: Option<Handle>,
    vertexShader: Option<Handle>,
    fragmentShader: Option<Handle>,
    texCoordBuffer: Option<Handle>,
    positionBuffer: Option<Handle>,
    texCoordData: seq<int>)

  /** A node's own raster surface (`_canvas`): whether it has a 2-D context, and its size. */
  datatype Surface = Surface(ctx2d: bool, width: nat, height: nat)

  /**
   * The media tracks of the track nodes: a track source's input track and
   * the stream wrapping it; a track destination's captured track, whether
   * its `onmute` handler is attached, and whether the track was stopped.
   */
  datatype Tracks = Tracks(
    videoTrack: Option<TrackId>,
    mediaStream: Option<set<TrackId>>,
    outTrack: Option<TrackId>,
    muteHandler: bool,
    trackStopped: bool)

  /**
   * One node. `ownCanvas` says whether the node has its own raster surface,
   * which is then also its `image`; `image` is the producer a source wraps.
   * `lastImage` and `decodedFrames` are a source's `_image` and
   * `_totalFrames`; `intervalId` and `sequence` are a destination's timer
   * and request counter.
   */
  datatype Node = Node(
    kind: NodeKind,
    name: string,
    matchInputSize: bool,
    gpu: Gpu,
    ownCanvas: bool,
    image: ImageSource?,
    state: NodeState,
    input: Option<NodeId>,
    output: Option<NodeId>,
    inputs: seq<Option<Slot>>,
    strayInputs: map<int, Slot>,
    width: nat,
    height: nat,
    totalFrames: nat,
    dropFrames: int,
    surface: Surface,
    lastImage: ImageSource?,
    decodedFrames: nat,
    tracks: Tracks,
    intervalId: nat,
    sequence: nat)

  /** The image `draw2d` receives from a node: a wrapped producer or the node's own canvas. */
  predicate HasImage(n: Node) {
    n.image != null || n.ownCanvas
  }

  /** A recorded backend call. */
  datatype Op =
    | DeleteHandle(handle: Handle)
    | TexUpload(node: NodeId, full: bool)
    | TexStorage(node: NodeId, width: int, height: int)
    | SlotBuffer(mix: NodeId, zIndex: nat, handle: Handle, area: Rect)
    | ClearSurface(node: NodeId)
    | DrawTexture(target: NodeId, from: NodeId)
    | DrawImage(target: NodeId, from: NodeId, x: int, y: int, width: int, height: int)
    | PutImageData(target: NodeId, from: NodeId, x: int, y: int)
    | Viewport(width: int, height: int)
    | FlipTransform(node: NodeId, width: int)
    | PlayVideo(node: NodeId)

  /** The reasons the runtime passes to `destroy`; a caller may pass any text. */
  datatype Reason =
    | Text(text: string)
    | InitFailed(node: string)
    | MirrorTexCoordsFailed
    | ContextLost
    | RenderFailed(node: string, request: nat, frames: nat, errorCode: int)
    | TrackMuted
  {
    /** Only a caller's empty text is falsy. */
    predicate IsTruthy() { !Text? || text != "" }
  }

  datatype Event = DisconnectEvent | Unavailable(reason: Reason, error: Option<string>)

  datatype CreateOutcome =
    | CreateDone
    | ProgramFailed   // the default program could not be built; the error is returned, not thrown
    | CreateRefused   // `create` outside the init state

  datatype ConnectError =
    | ConnectRefused  // `connect` outside the init state
    | MissingLayout   // a mix input without a layout
    | InputExists     // the mix slot at that zIndex is taken

  /**
   * Where node construction throws, if anywhere, and the error thrown: the
   * first GPU allocation, or the mirror's upload of its coordinate table.
   */
  datatype NodeFault = NoFault | AllocationFault(error: string) | TexCoordFault(error: string)

  // ------------------------------------------------------------------ drawing

  /** The 2-D call that draws `from`'s image at `r` into `target`: image data is put, anything else drawn scaled. */
  function DrawOf(target: NodeId, fromId: NodeId, from: Node, r: Rect): (op: Op)
    ensures op.PutImageData? <==> from.image != null && from.image.kind == Picture(true)
    ensures op.PutImageData? ==> op == PutImageData(target, fromId, r.x, r.y)
    ensures !op.PutImageData? ==> op == DrawImage(target, fromId, r.x, r.y, r.width, r.height)
  {
    if from.image != null && from.image.kind == Picture(true) then PutImageData(target, fromId, r.x, r.y)
    else DrawImage(target, fromId, r.x, r.y, r.width, r.height)
  }

  /** The children of the occupied slots of `t`, in ascending index order. */
  function SlotChildren(t: seq<Option<Slot>>): (r: seq<NodeId>)
    ensures |r| <= |t|
    ensures r == [] <==> forall i | 0 <= i < |t| :: t[i].None?
  {
    if t == [] then []
    else
      var last := t[|t| - 1];
      SlotChildren(t[..|t| - 1]) + (if last.Some? then [last.value.node] else [])
  }

  /** One more slot adds its child, if it is taken, at the end. */
  lemma SlotChildrenSnoc(t: seq<Option<Slot>>, i: nat)
    requires i < |t|
    ensures SlotChildren(t[..i + 1]) == SlotChildren(t[..i]) + (if t[i].Some? then [t[i].value.node] else [])
  {
    assert t[..i + 1][..i] == t[..i];
  }

  /** Each child listed by `SlotChildren` sits in an occupied slot. */
  lemma {:induction false} SlotChildrenOccupied(t: seq<Option<Slot>>, k: nat) returns (i: nat)
    requires k < |SlotChildren(t)|
    ensures i < |t| && t[i].Some? && t[i].value.node == SlotChildren(t)[k]
    decreases |t|
  {
    var front := t[..|t| - 1];
    if k < |SlotChildren(front)| {
      i := SlotChildrenOccupied(front, k);
    } else {
      i := |t| - 1;
    }
  }

  /** Every occupied slot of `t` names a node of the table. */
  ghost predicate SlotsIn(nodes: map<NodeId, Node>, t: seq<Option<Slot>>) {
    forall i | 0 <= i < |t| && t[i].Some? :: t[i].value.node in nodes
  }

  /** A slot's rectangle: each layout field when truthy, else the child's own (its x and y are always 0). */
  function SlotBounds(s: Slot, child: Node): (r: Rect)
    ensures r.x == (if TruthyNumber(s.layout.x) then s.layout.x.value else 0)
    ensures r.y == (if TruthyNumber(s.layout.y) then s.layout.y.value else 0)
    ensures r.width == (if TruthyNumber(s.layout.width) then s.layout.width.value else child.width)
    ensures r.height == (if TruthyNumber(s.layout.height) then s.layout.height.value else child.height)
  {
    SlotRect(s.layout, Rect(0, 0, child.width, child.height))
  }

  /** The slot at `i` is occupied by a node of the table. */
  predicate Filled(nodes: map<NodeId, Node>, t: seq<Option<Slot>>, i: int)
    requires 0 <= i < |t|
  {
    t[i].Some? && t[i].value.node in nodes
  }

  /** The rectangle of every slot, `None` for a hole. */
  function SlotRects(nodes: map<NodeId, Node>, t: seq<Option<Slot>>): (r: seq<Option<Rect>>)
    ensures |r| == |t|
    ensures forall i | 0 <= i < |t| ::
      r[i] == (if Filled(nodes, t, i) then Some(SlotBounds(t[i].value, nodes[t[i].value.node])) else None)
  {
    seq(|t|, i requires 0 <= i < |t| =>
      if Filled(nodes, t, i) then Some(SlotBounds(t[i].value, nodes[t[i].value.node])) else None)
  }

  /** The GPU draw for slot `i`: the child's texture, when the slot is occupied and the child has one. */
  function GlDraw(mix: NodeId, nodes: map<NodeId, Node>, t: seq<Option<Slot>>, i: nat): (r: seq<Op>)
    requires i < |t|
    ensures r != [] <==> Filled(nodes, t, i) && nodes[t[i].value.node].gpu.texture.Some?
    ensures r != [] ==> r == [DrawTexture(mix, t[i].value.node)]
  {
    if Filled(nodes, t, i) && nodes[t[i].value.node].gpu.texture.Some? then [DrawTexture(mix, t[i].value.node)] else []
  }

  /** The GPU draws of a mix composite: every occupied slot whose node has a texture, in index order. */
  function GlComposite(mix: NodeId, nodes: map<NodeId, Node>, t: seq<Option<Slot>>): (r: seq<Op>)
    ensures |r| <= |t|
  {
    if t == [] then [] else GlComposite(mix, nodes, t[..|t| - 1]) + GlDraw(mix, nodes, t, |t| - 1)
  }

  /** The draws for the first `i + 1` slots are those for the first `i` and then slot `i`'s. */
  lemma GlCompositeSnoc(mix: NodeId, nodes: map<NodeId, Node>, t: seq<Option<Slot>>, i: nat)
    requires i < |t|
    ensures GlComposite(mix, nodes, t[..i + 1]) == GlComposite(mix, nodes, t[..i]) + GlDraw(mix, nodes, t, i)
  {
    assert t[..i + 1][..i] == t[..i];
  }

  /** The 2-D draw for slot `i`: the child's image at the slot's rectangle, when the slot is occupied and the child has an image. */
  function RasterDraw(mix: NodeId, nodes: map<NodeId, Node>, t: seq<Option<Slot>>, i: nat): (r: seq<Op>)
    requires i < |t|
    ensures r != [] <==> Filled(nodes, t, i) && HasImage(nodes[t[i].value.node])
    ensures r != [] ==> var c := t[i].value.node; r == [DrawOf(mix, c, nodes[c], SlotBounds(t[i].value, nodes[c]))]
  {
    if Filled(nodes, t, i) && HasImage(nodes[t[i].value.node])
    then var c := t[i].value.node; [DrawOf(mix, c, nodes[c], SlotBounds(t[i].value, nodes[c]))]
    else []
  }

  /** The 2-D draws of a mix composite: every occupied slot whose node has an image, at the slot's rectangle. */
  function RasterComposite(mix: NodeId, nodes: map<NodeId, Node>, t: seq<Option<Slot>>): (r: seq<Op>)
    ensures |r| <= |t|
  {
    if t == [] then [] else RasterComposite(mix, nodes, t[..|t| - 1]) + RasterDraw(mix, nodes, t, |t| - 1)
  }

  /** The draws for the first `i + 1` slots are those for the first `i` and then slot `i`'s. */
  lemma RasterCompositeSnoc(mix: NodeId, nodes: map<NodeId, Node>, t: seq<Option<Slot>>, i: nat)
    requires i < |t|
    ensures RasterComposite(mix, nodes, t[..i + 1]) == RasterComposite(mix, nodes, t[..i]) + RasterDraw(mix, nodes, t, i)
  {
    assert t[..i + 1][..i] == t[..i];
  }

  /** The vertex-buffer write for slot `i`: its rectangle, when it is occupied and has a buffer. */
  function SlotWrite(mix: NodeId, nodes: map<NodeId, Node>, t: seq<Option<Slot>>, i: nat): (r: seq<Op>)
    requires i < |t|
    ensures |r| <= 1
    ensures r != [] <==> Filled(nodes, t, i) && t[i].value.positionBuffer.Some?
  {
    if Filled(nodes, t, i) && t[i].value.positionBuffer.Some?
    then [SlotBuffer(mix, i, t[i].value.positionBuffer.value, SlotBounds(t[i].value, nodes[t[i].value.node]))]
    else []
  }

  /**
   * The vertex-buffer writes of a mix resize: one per occupied slot, in index
   * order, each at the slot's rectangle; a slot without a buffer is skipped.
   */
  function SlotBufferWrites(mix: NodeId, nodes: map<NodeId, Node>, t: seq<Option<Slot>>): (r: seq<Op>)
    ensures forall op | op in r :: op.SlotBuffer? && op.mix == mix && op.zIndex < |t|
    ensures |r| <= |t|
  {
    if t == [] then []
    else SlotBufferWrites(mix, nodes, t[..|t| - 1]) + SlotWrite(mix, nodes, t, |t| - 1)
  }

  /** The writes for the first `i + 1` slots are those for the first `i` and then slot `i`'s. */
  lemma SlotBufferWritesSnoc(mix: NodeId, nodes: map<NodeId, Node>, t: seq<Option<Slot>>, i: nat)
    requires i < |t|
    ensures SlotBufferWrites(mix, nodes, t[..i + 1]) == SlotBufferWrites(mix, nodes, t[..i]) + SlotWrite(mix, nodes, t, i)
  {
    assert t[..i + 1][..i] == t[..i];
  }

  /** The handles `close` releases: everything the node allocated, and its program unless it is the shared one. */
  function Released(n: Node, shared: Option<Handle>): (r: seq<Option<Handle>>)
    ensures var g := n.gpu; g.program.Some? && g.program != shared ==>
      r == [g.texCoordBuffer, g.positionBuffer, g.fbo, g.texture, g.vertexShader, g.fragmentShader, g.program]
    ensures var g := n.gpu; g.program.None? || g.program == shared ==>
      r == [g.texCoordBuffer, g.positionBuffer, g.fbo, g.texture, g.vertexShader, g.fragmentShader]
  {
    var g := n.gpu;
    [g.texCoordBuffer, g.positionBuffer, g.fbo, g.texture, g.vertexShader, g.fragmentShader]
    + (if g.program.Some? && g.program != shared then [g.program] else [])
  }

  /** The release calls for a list of optional handles, absent ones skipped, in list order. */
  function Deletes(hs: seq<Option<Handle>>): (r: seq<Op>)
    ensures forall op | op in r :: op.DeleteHandle? && Some(op.handle) in hs
    ensures forall k | 0 <= k < |hs| && hs[k].Some? :: DeleteHandle(hs[k].value) in r
  {
    if hs == [] then []
    else
      var rest := Deletes(hs[1..]);
      assert forall k | 1 <= k < |hs| :: hs[k] == hs[1..][k - 1];
      (if hs[0].Some? then [DeleteHandle(hs[0].value)] else []) + rest
  }

  // ------------------------------------------------------------------ construction

  /** A node without GPU resources. */
  const NoGpu: Gpu := Gpu(None, None, None, None, None, None, None, [])

  /** The GPU resources the base constructor makes, and the first handle it leaves unused. */
  datatype Allocation = Allocation(gpu: Gpu, next: Handle)

  /** The handles present in `hs` strictly increase and lie between `lo` (included) and `hi` (excluded). */
  predicate Ascending(hs: seq<Option<Handle>>, lo: Handle, hi: Handle) {
    && (forall i, j | 0 <= i < j < |hs| && hs[i].Some? && hs[j].Some? :: hs[i].value < hs[j].value)
    && (forall i | 0 <= i < |hs| && hs[i].Some? :: lo <= hs[i].value < hi)
  }

  /**
   * The GPU resources of the base constructor, handed out from `h` on in
   * creation order: a texture unless declined, the coordinate and position
   * buffers (the coordinate buffer holding the base table), a framebuffer
   * when asked for, then two shaders and a program when the node brings its
   * own; otherwise the program is the shared one when asked for, or none.
   */
  function Allocate(c: Config, shared: Option<Handle>, h: Handle): (a: Allocation)
    ensures h <= a.next
    ensures var g := a.gpu;
      && g.texture.Some? == c.texture && g.fbo.Some? == c.fbo && g.texCoordBuffer.Some? && g.positionBuffer.Some?
      && g.vertexShader.Some? == c.ownProgram && g.fragmentShader.Some? == c.ownProgram
      && (c.ownProgram ==> g.program.Some?)
      && (!c.ownProgram ==> g.program == (if c.defaultProgram then shared else None))
      && g.texCoordData == BaseTable
      && Ascending([g.texture, g.texCoordBuffer, g.positionBuffer, g.fbo, g.vertexShader, g.fragmentShader]
                   + (if c.ownProgram then [g.program] else []), h, a.next)
  {
    var texture := if c.texture then Some(h) else None;
    var h1 := if c.texture then h + 1 else h;
    var fbo := if c.fbo then Some(h1 + 2) else None;
    var h2 := if c.fbo then h1 + 3 else h1 + 2;
    if c.ownProgram then
      Allocation(Gpu(texture, fbo, Some(h2 + 2), Some(h2), Some(h2 + 1), Some(h1), Some(h1 + 1), BaseTable), h2 + 3)
    else
      Allocation(Gpu(texture, fbo, if c.defaultProgram then shared else None, None, None, Some(h1), Some(h1 + 1), BaseTable), h2)
  }

  /**
   * `close` on the GPU releases exactly the handles the constructor
   * allocated, all of them, and never the shared program made before them.
   */
  lemma ReleasesAllocation(n: Node, c: Config, shared: Option<Handle>, h: Handle)
    requires shared.None? || shared.value < h
    requires n.gpu.(texCoordData := BaseTable) == Allocate(c, shared, h).gpu
    ensures forall x: Handle :: DeleteHandle(x) in Deletes(Released(n, shared)) <==> h <= x < Allocate(c, shared, h).next
  {
    var hs := Released(n, shared);
    var a := Allocate(c, shared, h);
    forall x: Handle | h <= x < a.next ensures DeleteHandle(x) in Deletes(hs) {
      var k := ReleasedIndex(n, c, shared, h, x);
    }
  }

  /**
   * The GPU resources a node of `kind` ends its construction with, from
   * handle `h` on: none without a GPU or when the first allocation throws;
   * otherwise `Allocate`'s, the coordinate buffer then holding the kind's
   * table (a mirror whose upload throws keeps the base table).
   */
  function BuiltGpu(kind: NodeKind, c: Config, shared: Option<Handle>, h: Handle, gl: bool, fault: NodeFault): (a: Allocation)
    ensures !gl || fault.AllocationFault? ==> a == Allocation(NoGpu, h)
    ensures gl && !fault.AllocationFault? ==>
      && a.gpu.(texCoordData := BaseTable) == Allocate(c, shared, h).gpu && a.next == Allocate(c, shared, h).next
      && a.gpu.texCoordData == (if fault.TexCoordFault? then BaseTable else KindTable(kind))
  {
    if !gl || fault.AllocationFault? then Allocation(NoGpu, h)
    else
      var a := Allocate(c, shared, h);
      a.(gpu := a.gpu.(texCoordData := if fault.TexCoordFault? then BaseTable else KindTable(kind)))
  }

  /**
   * The node the constructors build from the resolved configuration `c`,
   * while the context has a GPU (`gl`) or a 2-D context (`ctx2d`): no edges,
   * no frames, the configured name and size (a track source renames itself),
   * its own raster surface exactly when there is no GPU, the context has a
   * 2-D context and the configuration asks for one, and a 2-D context for a
   * destination in that case too (the context's own). A track source wraps
   * its track in a stream; a track destination holds the captured track
   * with its mute handler attached.
   */
  function Built(kind: NodeKind, c: Config, image: ImageSource?, track: Option<TrackId>, gl: bool, ctx2d: bool, gpu: Gpu): (n: Node)
    requires kind == TrackSourceNode || kind == TrackDestinationNode ==> track.Some?
    ensures n.kind == kind && n.image == image && n.gpu == gpu && n.state == Init && n.totalFrames == 0
    ensures n.input.None? && n.output.None? && n.inputs == [] && n.strayInputs == map[]
    ensures n.name == (if kind == TrackSourceNode then "videoTrackSource" else c.name)
    ensures n.width == c.width && n.height == c.height && n.matchInputSize == c.matchInputSize
    ensures n.ownCanvas <==> !gl && ctx2d && c.create2d
    ensures n.surface.ctx2d <==> n.ownCanvas || (!gl && ctx2d && kind.IsDestination())
    ensures n.ownCanvas ==> n.surface.width == c.width && n.surface.height == c.height
    ensures kind == TrackSourceNode ==> n.tracks.videoTrack == track && n.tracks.mediaStream == Some({track.value})
    ensures kind == TrackDestinationNode ==> n.tracks.outTrack == track && n.tracks.muteHandler
  {
    var own := !gl && ctx2d && c.create2d;
    Node(kind, if kind == TrackSourceNode then "videoTrackSource" else c.name, c.matchInputSize, gpu, own, image, Init,
         None, None, [], map[], c.width, c.height, 0, 0,
         Surface(own || (!gl && ctx2d && kind.IsDestination()), if own then c.width else 0, if own then c.height else 0),
         null, 0,
         Tracks(if kind == TrackSourceNode then track else None,
                if kind == TrackSourceNode then Some({track.value}) else None,
                if kind == TrackDestinationNode then track else None,
                kind == TrackDestinationNode, false),
         0, 0)
  }

  /** The reason the constructors destroy the context with when they throw. */
  function FaultReason(fault: NodeFault, name: string): (r: Reason)
    requires !fault.NoFault?
    ensures r.IsTruthy()
  {
    if fault.AllocationFault? then InitFailed(name) else MirrorTexCoordsFailed
  }

  /** Where a handle the constructor allocated sits in the list `close` releases. */
  lemma ReleasedIndex(n: Node, c: Config, shared: Option<Handle>, h: Handle, x: Handle) returns (k: nat)
    requires shared.None? || shared.value < h
    requires n.gpu.(texCoordData := BaseTable) == Allocate(c, shared, h).gpu
    requires h <= x < Allocate(c, shared, h).next
    ensures k < |Released(n, shared)| && Released(n, shared)[k] == Some(x)
  {
    var g := n.gpu;
    var hs := Released(n, shared);
    k := if g.texture == Some(x) then 3
      else if g.texCoordBuffer == Some(x) then 0
      else if g.positionBuffer == Some(x) then 1
      else if g.fbo == Some(x) then 2
      else if g.vertexShader == Some(x) then 4
      else if g.fragmentShader == Some(x) then 5
      else 6;
  }

  // ------------------------------------------------------------------ sources

  /** What a source node remembers between renders. */
  function Recall(n: Node): Memory {
    Memory(n.width, n.height, n.totalFrames, n.decodedFrames)
  }

  /** What a source node reads from its producer right now. */
  function Snapshot(n: Node): Producer
    requires n.image != null
    reads n.image
  {
    Producer(n.image.kind, n.image.width, n.image.height, n.image.decodedFrames, n.lastImage == n.image)
  }

  /** The source's new-frame decision right now. */
  function FrameDecision(n: Node): Decision
    requires n.image != null
    reads n.image
  {
    Decide(Snapshot(n), Recall(n))
  }

  /**
   * What `_render` notes about the producer before uploading: a video with a
   * frame counter records the count and the frames dropped so far, a
   * picture or a canvas becomes the last image seen; nothing else changes.
   */
  function Noted(n: Node): (r: Node)
    requires n.image != null
    reads n.image
    ensures Pulled(n, r) && r.totalFrames == n.totalFrames && r.width == n.width && r.height == n.height
    ensures r.decodedFrames == (if n.image.kind == Video(true) then n.image.decodedFrames else n.decodedFrames)
    ensures n.image.kind == Video(true) ==> r.dropFrames == n.image.decodedFrames - n.totalFrames
    ensures n.image.kind != Video(true) ==> r.dropFrames == n.dropFrames
    ensures n.image.kind.Picture? || n.image.kind.Canvas? ==> r.lastImage == n.image
    ensures n.image.kind.Video? || n.image.kind.OtherImage? ==> r.lastImage == n.lastImage
  {
    match n.image.kind
    case Video(quality) =>
      if quality then n.(decodedFrames := n.image.decodedFrames, dropFrames := n.image.decodedFrames - n.totalFrames)
      else n
    case Picture(_) => n.(lastImage := n.image)
    case Canvas => n.(lastImage := n.image)
    case OtherImage => n
  }

  /**
   * Node `b` is source `a` after an upload: it remembers what `Remember`
   * says (apart from its own frame count, which `requestFrame` bumps) and
   * the image and dropped frames `Noted` records.
   */
  ghost predicate Uploaded(a: Node, b: Node)
    requires a.image != null && FrameDecision(a).Upload?
    reads a.image
  {
    && Recall(b) == Remember(Snapshot(a), Recall(a), FrameDecision(a)).(totalFrames := a.totalFrames)
    && b.image == a.image && b.lastImage == Noted(a).lastImage && b.dropFrames == Noted(a).dropFrames
  }

  /**
   * A source that has just produced a frame from a picture, or from a video
   * with a frame counter, skips its next render while the producer stays as
   * it is.
   */
  lemma SettledAfterUpload(a: Node, b: Node)
    requires a.image != null && (a.image.kind.Picture? || a.image.kind == Video(true)) && FrameDecision(a).Upload?
    requires Uploaded(a, b.(totalFrames := a.totalFrames))
    requires b.totalFrames == a.totalFrames + 1
    ensures FrameDecision(b).Skip?
  {
    var p, m := Snapshot(a), Recall(a);
    assert Recall(b) == Remember(p, m, Decide(p, m));
    if a.image.kind.Picture? {
      PictureSettles(p, m);
      assert Snapshot(b) == p.(sameObject := true);
    } else {
      VideoSettles(p, m);
      assert Snapshot(b).decodedFrames == p.decodedFrames;
    }
  }

  // ------------------------------------------------------------------ wiring

  /** The edges of `id` stay inside the table and respect the rank order. */
  ghost predicate Linked(nodes: map<NodeId, Node>, rank: map<NodeId, nat>, bound: nat, id: NodeId)
    requires id in nodes && nodes.Keys == rank.Keys
  {
    var n := nodes[id];
    && rank[id] < bound
    && (n.kind.IsSource() ==> n.image != null)
    && (n.input.Some? ==> n.input.value in nodes && rank[n.input.value] < rank[id])
    && (n.output.Some? ==> n.output.value in nodes && rank[id] < rank[n.output.value])
    && (n.kind.MixNode? ==> n.input.None?)
    && (!n.kind.MixNode? ==> n.inputs == [])
    && (forall i | 0 <= i < |n.inputs| && n.inputs[i].Some? ::
          n.inputs[i].value.node in nodes && rank[n.inputs[i].value.node] < rank[id])
  }

  /** Every node of the table is linked. */
  ghost predicate Wired(nodes: map<NodeId, Node>, rank: map<NodeId, nat>, bound: nat) {
    && nodes.Keys == rank.Keys
    && forall id {:trigger Linked(nodes, rank, bound, id)} | id in nodes :: Linked(nodes, rank, bound, id)
  }

  /** Replacing one node by a linked one keeps the table wired. */
  lemma WiredUpdate(nodes: map<NodeId, Node>, rank: map<NodeId, nat>, bound: nat, id: NodeId, n: Node)
    requires Wired(nodes, rank, bound) && id in nodes
    requires Linked(nodes[id := n], rank, bound, id)
    ensures Wired(nodes[id := n], rank, bound)
  {
    var b := nodes[id := n];
    forall j | j in b ensures Linked(b, rank, bound, j) {
      if j != id {
        assert Linked(nodes, rank, bound, j);
      }
    }
  }

  /** Adding a linked node under a new id and rank keeps the table wired. */
  lemma WiredAdd(nodes: map<NodeId, Node>, rank: map<NodeId, nat>, bound: nat, id: NodeId, n: Node, r: nat, bound': nat)
    requires Wired(nodes, rank, bound) && id !in nodes && bound <= bound'
    requires Linked(nodes[id := n], rank[id := r], bound', id)
    ensures Wired(nodes[id := n], rank[id := r], bound')
  {
    var b := nodes[id := n];
    var rk := rank[id := r];
    forall j | j in b ensures Linked(b, rk, bound', j) {
      if j != id {
        assert Linked(nodes, rank, bound, j);
      }
    }
  }

  /** `b` has only lost edges relative to `a`: an input, output or slot is kept or cleared. */
  predicate Cut(a: Node, b: Node) {
    && b.kind == a.kind && b.image == a.image
    && (b.input == a.input || b.input.None?)
    && (b.output == a.output || b.output.None?)
    && |b.inputs| == |a.inputs|
    && forall i | 0 <= i < |a.inputs| ::
         b.inputs[i].None? || (a.inputs[i].Some? && b.inputs[i].value.node == a.inputs[i].value.node)
  }

  /** Every node of the table has only lost edges. */
  predicate AllCut(a: map<NodeId, Node>, b: map<NodeId, Node>) {
    a.Keys == b.Keys && forall id {:trigger Cut(a[id], b[id])} | id in a :: Cut(a[id], b[id])
  }

  /** Cutting edges keeps the table wired. */
  lemma CutKeepsWiring(a: map<NodeId, Node>, b: map<NodeId, Node>, rank: map<NodeId, nat>, bound: nat)
    requires Wired(a, rank, bound) && AllCut(a, b)
    ensures Wired(b, rank, bound)
  {
    forall id | id in b ensures Linked(b, rank, bound, id) {
      assert Linked(a, rank, bound, id);
      assert Cut(a[id], b[id]);
    }
  }

  lemma CutTransitive(a: map<NodeId, Node>, b: map<NodeId, Node>, c: map<NodeId, Node>)
    requires AllCut(a, b) && AllCut(b, c)
    ensures AllCut(a, c)
  {
    forall id | id in a ensures Cut(a[id], c[id]) {
      assert Cut(a[id], b[id]) && Cut(b[id], c[id]);
    }
  }

  /** Two slot entries agree on occupancy, child and layout; only the vertex buffer may differ. */
  predicate SameSlot(x: Option<Slot>, y: Option<Slot>) {
    x.None? == y.None? && (x.Some? ==> y.value.node == x.value.node && y.value.layout == x.value.layout)
  }

  /**
   * What a pull or a resize may change in a node: its frame counter (which
   * never goes down), its sizes and its canvas size, a source's upload
   * memory and the mix slots' vertex buffers. Everything else is as it was.
   */
  predicate Pulled(a: Node, b: Node) {
    && a.totalFrames <= b.totalFrames
    && b.surface.ctx2d == a.surface.ctx2d
    && |b.inputs| == |a.inputs|
    && (forall i | 0 <= i < |a.inputs| :: SameSlot(a.inputs[i], b.inputs[i]))
    && b == a.(totalFrames := b.totalFrames, dropFrames := b.dropFrames, width := b.width, height := b.height,
               surface := b.surface, lastImage := b.lastImage,
               decodedFrames := b.decodedFrames, inputs := b.inputs)
  }

  predicate AllPulled(a: map<NodeId, Node>, b: map<NodeId, Node>) {
    a.Keys == b.Keys && forall id {:trigger Pulled(a[id], b[id])} | id in a :: Pulled(a[id], b[id])
  }

  lemma PulledIsCut(a: map<NodeId, Node>, b: map<NodeId, Node>)
    requires AllPulled(a, b)
    ensures AllCut(a, b)
  {
    forall id | id in a ensures Cut(a[id], b[id]) {
      assert Pulled(a[id], b[id]);
    }
  }

  /** Pulls and resizes keep the table wired and every node's output matching its state. */
  lemma PulledKeepsShape(a: map<NodeId, Node>, b: map<NodeId, Node>, rank: map<NodeId, nat>, bound: nat)
    requires AllPulled(a, b) && Sound(a, rank, bound)
    ensures Sound(b, rank, bound)
  {
    PulledIsCut(a, b);
    CutKeepsWiring(a, b, rank, bound);
    forall id | id in b ensures Settled(b[id]) {
      assert Pulled(a[id], b[id]) && Settled(a[id]);
    }
  }

  lemma PulledTransitive(a: map<NodeId, Node>, b: map<NodeId, Node>, c: map<NodeId, Node>)
    requires AllPulled(a, b) && AllPulled(b, c)
    ensures AllPulled(a, c)
  {
    forall id | id in a ensures Pulled(a[id], c[id]) {
      assert Pulled(a[id], b[id]) && Pulled(b[id], c[id]);
    }
  }

  /** What a resize may change in a node: its sizes and canvas size and the mix slots' vertex buffers. */
  predicate Resized(a: Node, b: Node) {
    && b.surface.ctx2d == a.surface.ctx2d
    && |b.inputs| == |a.inputs|
    && (forall i | 0 <= i < |a.inputs| :: SameSlot(a.inputs[i], b.inputs[i]))
    && b == a.(width := b.width, height := b.height, surface := b.surface,
               inputs := b.inputs)
  }

  predicate AllResized(a: map<NodeId, Node>, b: map<NodeId, Node>) {
    a.Keys == b.Keys && forall id {:trigger Resized(a[id], b[id])} | id in a :: Resized(a[id], b[id])
  }

  lemma ResizedIsPulled(a: map<NodeId, Node>, b: map<NodeId, Node>)
    requires AllResized(a, b)
    ensures AllPulled(a, b)
  {
    forall id | id in a ensures Pulled(a[id], b[id]) {
      assert Resized(a[id], b[id]);
    }
  }

  lemma ResizedTransitive(a: map<NodeId, Node>, b: map<NodeId, Node>, c: map<NodeId, Node>)
    requires AllResized(a, b) && AllResized(b, c)
    ensures AllResized(a, c)
  {
    forall id | id in a ensures Resized(a[id], c[id]) {
      assert Resized(a[id], b[id]) && Resized(b[id], c[id]);
    }
  }

  /** Replacing one node by a resized version of it resizes the table. */
  lemma ResizeOne(t: map<NodeId, Node>, id: NodeId, n: Node)
    requires id in t && Resized(t[id], n)
    ensures AllResized(t, t[id := n])
  {
  }

  /** Replacing one node by a pulled version of it pulls the table. */
  lemma PullOne(t: map<NodeId, Node>, id: NodeId, n: Node)
    requires id in t && Pulled(t[id], n)
    ensures AllPulled(t, t[id := n])
  {
  }

  /** A pull followed by a resize is a pull. */
  lemma PulledThenResized(a: map<NodeId, Node>, b: map<NodeId, Node>, c: map<NodeId, Node>)
    requires AllPulled(a, b) && AllResized(b, c)
    ensures AllPulled(a, c)
  {
    ResizedIsPulled(b, c);
    PulledTransitive(a, b, c);
  }

  /** Replacing a node by one with the same kind, producer, state and edges keeps the table sound. */
  lemma SameEdgesKeepSound(t: map<NodeId, Node>, rank: map<NodeId, nat>, bound: nat, id: NodeId, n: Node)
    requires Sound(t, rank, bound) && id in t
    requires n.kind == t[id].kind && n.image == t[id].image && n.state == t[id].state
    requires n.input == t[id].input && n.output == t[id].output && n.inputs == t[id].inputs
    ensures Sound(t[id := n], rank, bound)
  {
    var b := t[id := n];
    assert AllCut(t, b) by {
      forall j | j in t ensures Cut(t[j], b[j]) {
      }
    }
    CutKeepsWiring(t, b, rank, bound);
    forall j | j in b ensures Settled(b[j]) {
      assert Settled(t[j]);
    }
  }

  /**
   * What disconnecting and closing may change in a node: edges are only
   * cleared, a node that is not connected does not become connected, a
   * closed node stays closed, a settled node stays settled, a mute handler is
   * only detached, a track only stopped, a stream only dropped, and an own
   * canvas emptied. Frame counters, sizes, handles and sequence numbers are
   * as they were.
   */
  predicate Unplugged(a: Node, b: Node) {
    && Cut(a, b)
    && (a.state != Connected ==> b.state != Connected)
    && (a.state == Closed ==> b.state == Closed)
    && (Settled(a) ==> Settled(b))
    && (b.surface == a.surface || b.surface == Surface(false, 0, 0))
    && (b.tracks.muteHandler ==> a.tracks.muteHandler)
    && (a.tracks.trackStopped ==> b.tracks.trackStopped)
    && (b.tracks.mediaStream == a.tracks.mediaStream || b.tracks.mediaStream.None?)
    && b.tracks == a.tracks.(mediaStream := b.tracks.mediaStream, muteHandler := b.tracks.muteHandler,
                             trackStopped := b.tracks.trackStopped)
    && b.strayInputs.Keys <= a.strayInputs.Keys
    && (forall z | z in b.strayInputs :: b.strayInputs[z] == a.strayInputs[z])
    && b == a.(state := b.state, input := b.input, output := b.output, inputs := b.inputs,
               strayInputs := b.strayInputs, surface := b.surface, tracks := b.tracks)
  }

  predicate AllUnplugged(a: map<NodeId, Node>, b: map<NodeId, Node>) {
    a.Keys == b.Keys && forall id {:trigger Unplugged(a[id], b[id])} | id in a :: Unplugged(a[id], b[id])
  }

  lemma UnpluggedIsCut(a: map<NodeId, Node>, b: map<NodeId, Node>)
    requires AllUnplugged(a, b)
    ensures AllCut(a, b)
  {
    forall id | id in a ensures Cut(a[id], b[id]) {
      assert Unplugged(a[id], b[id]);
    }
  }

  lemma UnpluggedTransitive(a: map<NodeId, Node>, b: map<NodeId, Node>, c: map<NodeId, Node>)
    requires AllUnplugged(a, b) && AllUnplugged(b, c)
    ensures AllUnplugged(a, c)
  {
    forall id | id in a ensures Unplugged(a[id], c[id]) {
      assert Unplugged(a[id], b[id]) && Unplugged(b[id], c[id]);
    }
  }

  /** Replacing one node by an unplugged version of it unplugs the table. */
  lemma UnplugOne(t: map<NodeId, Node>, id: NodeId, n: Node)
    requires id in t && Unplugged(t[id], n)
    ensures AllUnplugged(t, t[id := n])
  {
  }

  /** A track source's stream holds exactly the track it wraps, when it has a stream at all. */
  predicate StreamWraps(tr: Tracks) {
    tr.mediaStream.Some? ==> tr.videoTrack.Some? && tr.mediaStream.value == {tr.videoTrack.value}
  }

  /**
   * `replaceTrack(track)` on a track source's tracks: a different track
   * leaves the stream, if there is one, and `track` joins it; the same
   * track changes nothing.
   */
  function Swapped(tr: Tracks, track: TrackId): (r: Tracks)
    ensures r.videoTrack == Some(track)
    ensures r == tr.(videoTrack := r.videoTrack, mediaStream := r.mediaStream)
    ensures r.mediaStream.Some? <==> tr.mediaStream.Some?
    ensures tr.videoTrack == Some(track) ==> r == tr
    ensures tr.videoTrack != Some(track) && r.mediaStream.Some? ==>
      track in r.mediaStream.value && (tr.videoTrack.Some? ==> tr.videoTrack.value !in r.mediaStream.value)
    ensures StreamWraps(tr) ==> StreamWraps(r)
  {
    if tr.videoTrack == Some(track) then tr
    else
      var leaving := if tr.videoTrack.Some? then {tr.videoTrack.value} else {};
      tr.(videoTrack := Some(track),
          mediaStream := if tr.mediaStream.Some? then Some(tr.mediaStream.value - leaving + {track}) else None)
  }

  /**
   * What the `close` overrides of the track nodes do after the base
   * `close`: a track destination detaches its mute handler and stops its
   * track; a track source drops its stream. Every other node is left alone.
   */
  function Retired(n: Node): (r: Node)
    ensures n.kind == TrackDestinationNode ==> !r.tracks.muteHandler && r.tracks.trackStopped
    ensures n.kind == TrackSourceNode ==> r.tracks.mediaStream.None?
    ensures !n.kind.TrackDestinationNode? && !n.kind.TrackSourceNode? ==> r == n
    ensures r == n.(tracks := r.tracks) && Unplugged(n, r)
  {
    var dest := n.kind == TrackDestinationNode;
    n.(tracks := n.tracks.(muteHandler := if dest then false else n.tracks.muteHandler,
                           trackStopped := dest || n.tracks.trackStopped,
                           mediaStream := if n.kind == TrackSourceNode then None else n.tracks.mediaStream))
  }

  /** A node whose tracks are retired stays so through any change that only removes edges. */
  lemma RetiredStays(a: Node, b: Node)
    requires Retired(a) == a && Unplugged(a, b)
    ensures Retired(b) == b
  {
    assert b.kind == a.kind;
  }

  /**
   * What `close` does to the node's own fields: it is closed and has no
   * output; an own canvas is emptied and loses its 2-D context; then the
   * track nodes' overrides retire their tracks.
   */
  function Shut(n: Node): (r: Node)
    ensures r.state == Closed && r.output.None? && r.input == n.input && r.inputs == n.inputs
    ensures n.ownCanvas ==> r.surface == Surface(false, 0, 0)
    ensures n.kind == TrackDestinationNode ==> !r.tracks.muteHandler && r.tracks.trackStopped
    ensures n.kind == TrackSourceNode ==> r.tracks.mediaStream.None?
    ensures Retired(r) == r
    ensures Unplugged(n, r)
  {
    Retired(n.(state := Closed, output := None, surface := if n.ownCanvas then Surface(false, 0, 0) else n.surface))
  }

  /** No node of rank `floor` or more, other than `except`, changed its frame counter. */
  ghost predicate FramesKeptFrom(a: map<NodeId, Node>, b: map<NodeId, Node>, rank: map<NodeId, nat>, floor: int, except: int)
    requires a.Keys <= b.Keys && a.Keys <= rank.Keys
  {
    forall id | id in a && floor <= rank[id] && id != except :: b[id].totalFrames == a[id].totalFrames
  }

  /** Frame counters kept from `floor` up, then from a lower floor up except at a node below `floor`, are kept from `floor` up. */
  lemma FramesKeptStep(a: map<NodeId, Node>, b: map<NodeId, Node>, c: map<NodeId, Node>, rank: map<NodeId, nat>,
                       floor: int, lower: int, except: NodeId)
    requires a.Keys == b.Keys == c.Keys && a.Keys <= rank.Keys && lower <= floor
    requires except in a ==> rank[except] < floor
    requires FramesKeptFrom(a, b, rank, floor, -1) && FramesKeptFrom(b, c, rank, lower, except)
    ensures FramesKeptFrom(a, c, rank, floor, -1)
  {
  }

  /** A resize keeps every frame counter. */
  lemma ResizedKeepsFrames(a: map<NodeId, Node>, b: map<NodeId, Node>, rank: map<NodeId, nat>)
    requires AllResized(a, b) && a.Keys <= rank.Keys
    ensures FramesKeptFrom(a, b, rank, 0, -1)
  {
    forall id | id in a ensures b[id].totalFrames == a[id].totalFrames {
      assert Resized(a[id], b[id]);
    }
  }

  /** A mix's slot rectangles only depend on its slots' layouts and its children's sizes. */
  lemma SlotRectsKept(a: map<NodeId, Node>, b: map<NodeId, Node>, s: seq<Option<Slot>>, t: seq<Option<Slot>>)
    requires SlotsIn(a, s) && |s| == |t|
    requires forall i | 0 <= i < |s| :: SameSlot(s[i], t[i])
    requires forall i | 0 <= i < |s| && s[i].Some? ::
      s[i].value.node in b && b[s[i].value.node].width == a[s[i].value.node].width
      && b[s[i].value.node].height == a[s[i].value.node].height
    ensures SlotsIn(b, t) && SlotRects(b, t) == SlotRects(a, s)
  {
  }
  // ------------------------------------------------------------------ edges

  /** Whether `addInput` with this layout succeeds on `n`: always, except on a mix without a layout or with a taken zIndex. */
  predicate Accepts(n: Node, layout: Option<MixLayout>) {
    !n.kind.MixNode? ||
    (layout.Some? &&
     if layout.value.zIndex >= 0 then !Occupied(n.inputs, layout.value.zIndex)
     else layout.value.zIndex !in n.strayInputs)
  }

  /**
   * The edge part of `addInput(who, layout)` on `n`: a mix stores one new
   * slot, without a vertex buffer, at the layout's zIndex (a negative zIndex
   * becomes a property that no array method visits); any other node takes
   * `who` as its input.
   */
  function Adopted(n: Node, who: NodeId, layout: Option<MixLayout>): (r: Node)
    requires Accepts(n, layout)
    ensures n.kind.MixNode? && layout.value.zIndex >= 0 ==>
      r == n.(inputs := Place(n.inputs, layout.value.zIndex, Slot(who, layout.value, None)))
    ensures n.kind.MixNode? && layout.value.zIndex < 0 ==>
      r == n.(strayInputs := n.strayInputs[layout.value.zIndex := Slot(who, layout.value, None)])
    ensures !n.kind.MixNode? ==> r == n.(input := Some(who))
  {
    if !n.kind.MixNode? then n.(input := Some(who))
    else
      var z := layout.value.zIndex;
      if z >= 0 then n.(inputs := Place(n.inputs, z, Slot(who, layout.value, None)))
      else n.(strayInputs := n.strayInputs[z := Slot(who, layout.value, None)])
  }

  /**
   * A mix holds one input per zIndex: once a node is stored under a zIndex,
   * that zIndex is refused, and every other zIndex is accepted as before.
   */
  lemma AdoptedTakesIndex(n: Node, who: NodeId, layout: MixLayout, other: MixLayout)
    requires n.kind.MixNode? && Accepts(n, Some(layout))
    ensures other.zIndex == layout.zIndex ==> !Accepts(Adopted(n, who, Some(layout)), Some(other))
    ensures other.zIndex != layout.zIndex ==>
      (Accepts(Adopted(n, who, Some(layout)), Some(other)) <==> Accepts(n, Some(other)))
  {
  }

  /**
   * `removeInput(who)` on `n`: a mix empties the first slot holding `who`,
   * leaving the table's length and every other slot alone; when no slot
   * holds it the write lands on index -1, which clears a slot stored under
   * zIndex -1. Any other node clears its input, whatever `who` is.
   */
  function Dropped(n: Node, who: NodeId): (r: Node)
    ensures Unplugged(n, r)
    ensures r.kind.MixNode? ==> r == n.(inputs := Remove(n.inputs, SlotNode, who),
      strayInputs := if IndexOf(n.inputs, SlotNode, who) < 0 then n.strayInputs - {-1} else n.strayInputs)
    ensures !r.kind.MixNode? ==> r == n.(input := None)
  {
    if n.kind.MixNode? then
      var i := IndexOf(n.inputs, SlotNode, who);
      n.(inputs := Remove(n.inputs, SlotNode, who), strayInputs := if i < 0 then n.strayInputs - {-1} else n.strayInputs)
    else n.(input := None)
  }

  /**
   * Removing a node that sits in no slot of a mix leaves the slot table as
   * it is and frees zIndex -1 (and only it) for the next `addInput`.
   */
  lemma DroppedAbsent(n: Node, who: NodeId, layout: MixLayout)
    requires n.kind.MixNode? && forall j | 0 <= j < |n.inputs| :: !Holds(n.inputs, j, SlotNode, who)
    ensures Dropped(n, who).inputs == n.inputs
    ensures Accepts(Dropped(n, who), Some(layout)) <==> (layout.zIndex == -1 || Accepts(n, Some(layout)))
  {
    RemoveAbsent(n.inputs, SlotNode, who);
  }

  /**
   * A node stored under zIndex -1 and removed again leaves zIndex -1 free:
   * the removal finds no slot, and its write at index -1 clears the stray one.
   */
  lemma StraySlotFreed(n: Node, a: NodeId, layout: MixLayout)
    requires n.kind.MixNode? && layout.zIndex == -1 && Accepts(n, Some(layout))
    requires forall j | 0 <= j < |n.inputs| :: !Holds(n.inputs, j, SlotNode, a)
    ensures Accepts(Dropped(Adopted(n, a, Some(layout)), a), Some(layout))
    ensures Dropped(Adopted(n, a, Some(layout)), a) == n.(strayInputs := n.strayInputs - {-1})
  {
    var m := Adopted(n, a, Some(layout));
    DroppedAbsent(m, a, layout);
  }

  /** Adopting a node ranked below keeps the adopting node linked. */
  lemma AdoptedLinked(nodes: map<NodeId, Node>, rank: map<NodeId, nat>, bound: nat, target: NodeId, who: NodeId,
                      layout: Option<MixLayout>)
    requires nodes.Keys == rank.Keys && target in nodes && who in nodes && rank[who] < rank[target]
    requires Linked(nodes, rank, bound, target) && Accepts(nodes[target], layout)
    ensures Linked(nodes[target := Adopted(nodes[target], who, layout)], rank, bound, target)
  {
  }

  /** The edges of a `connect(target, layout)` by `id`: the target adopts `id`, which points at it and is connected. */
  function Attached(t: map<NodeId, Node>, id: NodeId, target: NodeId, layout: Option<MixLayout>): map<NodeId, Node>
    requires id in t && target in t && Accepts(t[target], layout)
  {
    var t' := t[target := Adopted(t[target], id, layout)];
    t'[id := t'[id].(state := Connected, output := Some(target))]
  }

  /** The table after `disconnect` by a connected `id`: its output drops it, and it loses its output and is back in init. */
  function Detached(t: map<NodeId, Node>, id: NodeId): (r: map<NodeId, Node>)
    requires id in t
    ensures r.Keys == t.Keys
  {
    var n := t[id];
    var t' := if n.output.Some? && n.output.value in t then t[n.output.value := Dropped(t[n.output.value], id)] else t;
    t'[id := t'[id].(state := Init, output := None)]
  }

  /** A disconnect of a connected node only removes edges. */
  lemma DetachedIsUnplugged(t: map<NodeId, Node>, id: NodeId)
    requires id in t && t[id].state == Connected
    ensures AllUnplugged(t, Detached(t, id))
  {
    var r := Detached(t, id);
    forall j | j in t ensures Unplugged(t[j], r[j]) {
      if j == id {
        assert r[j] == t[j].(state := Init, output := None) || r[j] == Dropped(t[j], id).(state := Init, output := None);
      }
    }
  }

  /** A node is connected exactly when it has an output. */
  predicate Settled(n: Node) {
    n.output.Some? <==> n.state == Connected
  }

  /** Every node of the table is settled. */
  ghost predicate OutputsMatchStates(t: map<NodeId, Node>) {
    forall id {:trigger Settled(t[id])} | id in t :: Settled(t[id])
  }

  /** The table is wired and every node's output matches its state. */
  ghost predicate Sound(t: map<NodeId, Node>, rank: map<NodeId, nat>, bound: nat) {
    Wired(t, rank, bound) && OutputsMatchStates(t)
  }

  /** `n` takes `id` as its input or holds it in one of its slots. */
  predicate Consumes(n: Node, id: NodeId) {
    n.input == Some(id) || exists i | 0 <= i < |n.inputs| :: n.inputs[i].Some? && n.inputs[i].value.node == id
  }

  /** No node of `t` consumes `id`. */
  ghost predicate Unused(t: map<NodeId, Node>, id: NodeId) {
    forall j | j in t :: !Consumes(t[j], id)
  }

  /**
   * A node with no output that no node consumes can move above every other
   * node: the rank order of the table still holds, with one more rank, and
   * every other node now ranks below it.
   */
  lemma {:induction false} RaisedSound(t: map<NodeId, Node>, rank: map<NodeId, nat>, bound: nat, id: NodeId)
    requires Sound(t, rank, bound) && id in t && t[id].output.None? && Unused(t, id)
    ensures Sound(t, rank[id := bound], bound + 1)
    ensures forall j | j in t && j != id :: rank[id := bound][j] < rank[id := bound][id]
  {
    var r := rank[id := bound];
    forall j | j in t ensures Linked(t, r, bound + 1, j) {
      assert Linked(t, rank, bound, j);
      var n := t[j];
      if j != id {
        assert !Consumes(n, id);
        forall i | 0 <= i < |n.inputs| && n.inputs[i].Some?
          ensures n.inputs[i].value.node in t && r[n.inputs[i].value.node] < r[j]
        {
          assert n.inputs[i].value.node != id;
        }
      }
    }
    forall j | j in t && j != id ensures r[j] < r[id] {
      assert Linked(t, rank, bound, j);
    }
  }

  /**
   * `a.connect(b); a.disconnect(); b.connect(a)` with `b` not a mix and
   * without an input, and nothing consuming `a`: the round trip gives the
   * table back, and raising `a` above every node makes the reversed edge
   * climb, so the second `connect` is allowed after `Rerank`.
   */
  lemma ReconnectReversed(t: map<NodeId, Node>, rank: map<NodeId, nat>, bound: nat, a: NodeId, b: NodeId)
    requires Sound(t, rank, bound) && a in t && b in t && a != b
    requires t[a].state == Init && !t[b].kind.MixNode? && t[b].input.None? && Unused(t, a)
    ensures Detached(Attached(t, a, b, None), a) == t
    ensures Sound(t, rank[a := bound], bound + 1) && rank[a := bound][b] < rank[a := bound][a]
  {
    assert Settled(t[a]);
    ConnectDisconnectRoundTrip(t, a, b, None);
    RaisedSound(t, rank, bound, a);
  }

  /**
   * `disconnect` by a node `id` whose output is not a mix and is its only
   * consumer: afterwards nothing consumes `id` and it has no output, so it
   * may rank above every other node (`RaisedSound`).
   */
  lemma DetachedUnused(t: map<NodeId, Node>, id: NodeId)
    requires id in t && t[id].state == Connected && t[id].output.Some? && t[id].output.value in t
    requires !t[t[id].output.value].kind.MixNode? && t[t[id].output.value].inputs == []
    requires forall j | j in t && j != t[id].output.value :: !Consumes(t[j], id)
    ensures Unused(Detached(t, id), id) && Detached(t, id)[id].output.None?
  {
    var o := t[id].output.value;
    var r := Detached(t, id);
    forall j | j in r ensures !Consumes(r[j], id) {
      if j == o && j != id {
        assert r[j] == t[j].(input := None);
      } else if j != id {
        assert r[j] == t[j];
      }
    }
  }

  /** Edge removals that leave every output matching its state keep the table sound. */
  lemma UnpluggedKeepsSound(a: map<NodeId, Node>, b: map<NodeId, Node>, rank: map<NodeId, nat>, bound: nat)
    requires Sound(a, rank, bound) && AllUnplugged(a, b)
    ensures Sound(b, rank, bound)
  {
    UnpluggedIsCut(a, b);
    CutKeepsWiring(a, b, rank, bound);
    forall id | id in b ensures Settled(b[id]) {
      assert Unplugged(a[id], b[id]) && Settled(a[id]);
    }
  }

  /**
   * `connect` followed by `disconnect` puts the table back as it was when the
   * target takes the connection without growing anything: a node other than
   * a mix whose input was empty, or a mix whose slot at that zIndex was a
   * hole inside its array (a negative zIndex leaves a stray slot behind).
   */
  lemma ConnectDisconnectRoundTrip(t: map<NodeId, Node>, id: NodeId, target: NodeId, layout: Option<MixLayout>)
    requires id in t && target in t && id != target && Accepts(t[target], layout)
    requires t[id].state == Init && t[id].output.None?
    requires !t[target].kind.MixNode? ==> t[target].input.None?
    requires t[target].kind.MixNode? ==>
      && 0 <= layout.value.zIndex < |t[target].inputs|
      && forall j | 0 <= j < |t[target].inputs| :: !Holds(t[target].inputs, j, SlotNode, id)
    ensures Detached(Attached(t, id, target, layout), id) == t
  {
    AdoptThenDrop(t[target], id, layout);
    var c := t[id].(state := Connected, output := Some(target));
    assert c.(state := Init, output := None) == t[id];
    var a := Attached(t, id, target, layout);
    assert a == t[target := Adopted(t[target], id, layout)][id := c];
  }

  /** Dropping a node just adopted restores the node, under the same conditions. */
  lemma AdoptThenDrop(n: Node, id: NodeId, layout: Option<MixLayout>)
    requires Accepts(n, layout)
    requires !n.kind.MixNode? ==> n.input.None?
    requires n.kind.MixNode? ==>
      && 0 <= layout.value.zIndex < |n.inputs|
      && forall j | 0 <= j < |n.inputs| :: !Holds(n.inputs, j, SlotNode, id)
    ensures Dropped(Adopted(n, id, layout), id) == n
  {
    if n.kind.MixNode? {
      var z := layout.value.zIndex;
      var v := Slot(id, layout.value, None);
      PlaceThenRemove(n.inputs, z, v, SlotNode);
      assert Remove(Place(n.inputs, z, v), SlotNode, id) == n.inputs;
    }
  }
}
