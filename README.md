# VideoContext graph runtime in Dafny

This project models the graph runtime of VideoContext, a small WebGL / Canvas 2-D video
pipeline written in TypeScript. A `VideoContext` owns a canvas and one rendering backend:
a GPU context, a 2-D context, or none. Video nodes are created against the context:

- an image or media-track **source**;
- a **mirror**;
- a **mix** compositor with a sparse, zIndex-keyed slot table;
- a **destination** driven by a periodic timer, or a track destination that captures the canvas.

Nodes are connected into a pull graph. On every timer tick a destination requests a frame from its input:

- the request travels upstream with `requestFrame`;
- each node renders if its producers delivered something;
- every node that produced counts the frame in `totalFrames`.

Sizes flow downstream with `resize`. Failures funnel into `destroy`, which tears the whole graph down.

## How the model is built

- `Lifecycle`: the `@ChangeState` decorators as explicit transition tables. This covers node
  init/connected/closed and context uninitialized/created. A call from a state outside its
  from-list is refused and changes nothing.
- `Js`: the JavaScript truthiness defaults that the option handling and the mix geometry rely on.
- `NodeOptions`: how every node constructor resolves its option bag.
- `MixGeometry`: the slot rectangle getters and the bounding-box `reduce`.
- `SlotTable`: the sparse slot array, with its place, find and remove operations.
- `TexCoords`: the three texture-coordinate tables.
- `SourceFrames`: the new-frame decision of the image source.
- `Media`: the image producers.
- `Scheduling`: the shared interval timer, as a class holding the armed intervals.
- `Graph`: the nodes as datatype values in a node table keyed by `NodeId`. It also holds:
  - the recorded backend calls (`Op`);
  - what construction allocates and `close` releases;
  - the edge operations `addInput` / `removeInput`;
  - the predicates saying how a pull, a resize or a teardown may change the table.
- `Teardown`: `disconnect`, `close`, the mix's disconnect loop, and the context's `disconnect`
  event closing every listening node. Each is written as a function on the node table.
- `Runtime`: the `VideoContext` class. Its fields are:
  - the backend flags and the canvas size;
  - the node table, the ordered listener list and the emitted events;
  - the recorded calls and the next free handle;
  - the timer.

  Every node method of the source is a method of this class that takes the node's id. This
  includes `connect`, `addInput`, `resize`, `requestFrame`, `render`, `render2d`, `close`, the
  destination tick and the track handlers. Each method is proved against the table functions
  above.

Two invariants hold for every context: `Valid` and `TableOk`.

- At most one backend exists, and none exists before `create` or after `destroy`.
- Every edge names a node of the table. A ghost rank orders the nodes, producers below consumers,
  which makes pulls and size propagation terminate. The rank is the model's bookkeeping, not the
  library's state: `Rerank` replaces it by any other order the table respects, so a `connect`
  the old order refused but that closes no cycle is made after a re-rank.
- A node has an output exactly when it is connected.
- Every listener is a node of the table.

Where the library's own description of its behaviour and its code differ, the model follows the code:

- `destroy` emits `unavailable` and sets the failure flag when its **reason** is truthy, not when
  an error is passed (src/video-context.ts:122-126).
- `create` with `use2d` keeps the canvas even when no 2-D context is obtained. Only the other
  path drops the canvas when there is no backend (src/video-context.ts:50-53, 72-74), so
  `available` can be true with no backend.
- On the GPU path a mix draws every occupied slot whose child has a texture, not only the
  slots that produced a frame this time (src/video-node/mix.ts:83-94).
- A mix's size is recomputed only by `resize` and by its own `connect`, not by `addInput`
  (src/video-node/mix.ts:44-68). The bounding-box property therefore holds right after those
  calls, not after every slot insertion.
- A track destination destroys the context on any `mute` of its captured track
  (src/video-node/destination.ts:71-75).

## Model

| member | source | states |
|---|---|---|
| Js.OrNumber | src/video-node/mix.ts:15-26 | `a \|\| b` on numbers: the field when it is present and non-zero, otherwise the fallback |
| Lifecycle.NodeNext | src/video-node/base.ts:126-159 | connect is allowed exactly from init and leads to connected; disconnect exactly from connected, back to init; close from any state but closed, into closed; nothing leaves closed |
| Lifecycle.ConnectDisconnectRoundTrip | src/video-node/base.ts:126-154 | an allowed connect followed by disconnect returns the node to the state it started in |
| Lifecycle.ContextNext | src/video-context.ts:45-130 | create is allowed exactly before creation and leads to created; destroy exactly from created, back to uninitialized |
| Lifecycle.DestroyOnce | src/video-context.ts:121-130 | a destroy right after a successful destroy is refused, so the teardown cannot run twice |
| MixGeometry.SlotRect | src/video-node/mix.ts:15-32 | each of x, y, width, height is the layout's value when truthy, else the child's (an explicit 0 falls back); right = x + width, bottom = y + height |
| MixGeometry.ReduceIsMax | src/video-node/mix.ts:52 | the reduce never shrinks its accumulator, covers every occupied slot's right and bottom, and each grown side is reached by some slot |
| MixGeometry.Reduce | src/video-node/mix.ts:52 | the reduce never shrinks the size it starts from |
| MixGeometry.ExtentIsBoundingBox | src/video-node/mix.ts:51-53 | starting from 0 x 0, the mix size is the least box covering every occupied slot: each nonzero side is some slot's right or bottom |
| MixGeometry.EmptyTableExtent | src/video-node/mix.ts:52 | a table with no occupied slot gives size 0 x 0 |
| MixGeometry.TwoSlotExample | src/video-node/mix.ts:51-53 | slots at (0,0,100,100) and (50,50,100,100) give a 150 x 150 mix |
| TexCoords.FlipU | src/video-node/mirror.ts:4-9 | same length; every u becomes 1 - u, every v is kept |
| TexCoords.FlipV | src/video-node/destination.ts:14-19 | same length; every v becomes 1 - v, every u is kept |
| TexCoords.MirrorIsHorizontalFlip | src/video-node/mirror.ts:4-9 | the mirror table is the base table with u flipped |
| TexCoords.DestinationIsVerticalFlip | src/video-node/destination.ts:14-19 | the destination table is the base table with v flipped |
| TexCoords.FlipUInvolutive | src/video-node/mirror.ts:4-9 | flipping u twice gives back the table |
| NodeOptions.DestinationOptions | src/video-node/destination.ts:38 | defaults useDefaultProgram true, createTexture false, name "destination"; a caller's option overrides each default, and every other option is the caller's |
| NodeOptions.Resolve | src/video-node/base.ts:79-120 | matchInputSize unless explicitly false; width and height fall back to the context's when absent or 0; a texture unless createTexture is false; a framebuffer, the shared program and a 2-D surface only when asked; an own program only when both shader sources are non-empty |
| NodeOptions.DestinationDefaults | src/video-node/destination.ts:37-41 | a destination built without options uses the shared program, no texture and no framebuffer, matches its input's size and starts at the context's size |
| NodeOptions.OffscreenNodeConfigs | src/video-node/mirror.ts:11-17 | the mirror and the mix both get the shared program, a framebuffer, a texture and a 2-D surface, and no program of their own |
| SourceFrames.Decide | src/video-node/source.ts:10-43 | skip exactly when a counted video's frame counter has not moved, or the same picture object has the node's size; an upload takes the producer's size and is full unless the size is unchanged and a frame was already produced |
| SourceFrames.FirstFrameIsFull | src/video-node/source.ts:32-41 | before the first produced frame every upload is full |
| SourceFrames.AlwaysUploaded | src/video-node/source.ts:28-31 | a canvas, an uncounted video or another image source always uploads |
| SourceFrames.PictureSettles | src/video-node/source.ts:21-27 | after an upload from a picture, the same object at the same size is skipped |
| SourceFrames.VideoSettles | src/video-node/source.ts:13-18 | after an upload from a counted video, the same counter is skipped |
| SourceFrames.SteadyStateIsIncremental | src/video-node/source.ts:32-35 | once a canvas or video has been uploaded, a next upload at the same size is incremental |
| SourceFrames.StillPictureScenario | src/video-node/source.ts:21-42 | a fresh 320 x 240 picture on a 640 x 480 node is uploaded in full at 320 x 240 |
| SlotTable.Place | src/video-node/mix.ts:44-50 | into a free index: the slot is stored there, the array grows to cover it with holes, and every other index is as it was |
| SlotTable.IndexOf | src/video-node/mix.ts:70 | the first index holding the node, or -1 when none holds it |
| SlotTable.Remove | src/video-node/mix.ts:69-71 | clears exactly the first slot holding the node; the length and every other slot are kept |
| SlotTable.PlaceKeepsOthers | src/video-node/mix.ts:44-50 | placing a slot leaves every other existing index alone |
| SlotTable.PlaceThenRemove | src/video-node/mix.ts:44-71 | removing a node just placed leaves a hole at its index and the rest of the table as before the placement |
| SlotTable.RemoveAbsent | src/video-node/mix.ts:69-71 | removing a node no slot holds leaves the dense slot table as it is (the write at index -1 is `Graph.Dropped`'s part) |
| Scheduling.IntervalTimer.constructor | src/video-node/destination.ts:20 | a new timer has nothing armed |
| Scheduling.IntervalTimer.SetInterval | src/video-node/destination.ts:25 | arms exactly one interval under a fresh nonzero id, with its owner and rate |
| Scheduling.IntervalTimer.ClearInterval | src/video-node/destination.ts:27 | disarms exactly that id (an unknown id changes nothing) |
| Media.ImageSource.constructor | src/video-node/source.ts:7 | a producer of the given kind and size, with no decoded frames yet |
| Graph.DrawOf | src/video-node/base.ts:256-266 | image data is put at the rectangle's corner; any other image is drawn scaled into the rectangle |
| Graph.SlotRects | src/video-node/mix.ts:116-121 | one entry per slot: the slot's rectangle when it is occupied by a node of the table, a hole otherwise |
| Graph.SlotBounds | src/video-node/mix.ts:117-120 | each of x, y, width, height is the layout's value when it is a truthy number; otherwise x and y are 0 and width and height are the child's |
| Graph.SlotChildren | src/video-node/mix.ts:74 | the children of the occupied slots in index order: none exactly when every slot is empty |
| Graph.SlotChildrenOccupied | src/video-node/mix.ts:74 | each listed child sits in an occupied slot |
| Graph.GlDraw | src/video-node/mix.ts:84-93 | slot i draws its child's texture exactly when it is occupied and the child has a texture |
| Graph.GlComposite | src/video-node/mix.ts:83-94 | at most one draw per slot |
| Graph.GlCompositeSnoc | src/video-node/mix.ts:83-94 | the GPU composite is the draws of the slots in ascending index |
| Graph.RasterDraw | src/video-node/mix.ts:117-120 | slot i is drawn at its rectangle exactly when it is occupied and its child has an image |
| Graph.RasterComposite | src/video-node/mix.ts:116-121 | at most one draw per slot |
| Graph.RasterCompositeSnoc | src/video-node/mix.ts:116-121 | the 2-D composite is the draws of the slots in ascending index |
| Graph.SlotWrite | src/video-node/mix.ts:56-60 | slot i's vertex buffer is written exactly when the slot is occupied and has a buffer |
| Graph.SlotBufferWrites | src/video-node/mix.ts:54-62 | only vertex-buffer writes of this mix, at most one per slot |
| Graph.SlotBufferWritesSnoc | src/video-node/mix.ts:55-61 | the writes follow the slots in ascending index |
| Graph.Released | src/video-node/base.ts:164-172 | close releases both buffers, the framebuffer, the texture, both shaders, and the program unless it is absent or the shared one |
| Graph.Deletes | src/video-node/base.ts:165-171 | exactly the handles that are present are deleted |
| Graph.FaultReason | src/video-node/base.ts:122-124 | the reason a constructor destroys the context with is always truthy, so `unavailable` follows |
| Graph.Allocate | src/video-node/base.ts:96-121 | texture and framebuffer exactly as configured; both buffers always; shaders and an own program exactly when both sources are given, else the shared program when asked; all new handles fresh and ascending |
| Graph.ReleasesAllocation | src/video-node/base.ts:96-172 | a handle is deleted by close exactly when the constructor allocated it; the shared program is never deleted |
| Graph.BuiltGpu | src/video-node/base.ts:83-124 | without the GPU, or when allocation throws, nothing is allocated; otherwise the allocation above, with the kind's coordinate table unless the mirror's upload throws |
| Graph.Built | src/video-node/base.ts:74-95 | a new node is in init with no edges, the resolved size and options, and its own 2-D surface exactly when there is no GPU, a 2-D context and a request for one; a track source wraps its track in a stream; a track destination listens for mute |
| Graph.ReleasedIndex | src/video-node/base.ts:164-171 | every allocated handle appears in the list close releases |
| Graph.Noted | src/video-node/source.ts:13-31 | the source's memory after a decision: a counted video records its counter and drop count (decoded minus produced), a picture or canvas remembers the object; edges and counters are kept |
| Graph.SettledAfterUpload | src/video-node/source.ts:16-27 | once a picture or counted video has been uploaded and counted, the same producer is skipped next time |
| Graph.WiredUpdate | src/video-node/base.ts:44-45 | replacing a node whose edges stay ranked keeps the table wired |
| Graph.WiredAdd | src/video-node/base.ts:44-45 | adding a node whose edges are ranked keeps the table wired |
| Graph.CutKeepsWiring | src/video-node/base.ts:150-157 | removing edges keeps the table wired |
| Graph.CutTransitive | src/video-node/base.ts:150-157 | edge removals compose |
| Graph.PulledIsCut | src/video-node/base.ts:136-142 | a pull adds no edge |
| Graph.PulledKeepsShape | src/video-node/base.ts:136-142 | a pull keeps the table sound |
| Graph.PulledTransitive | src/video-node/base.ts:136-142 | pulls compose, and frame counters never go down |
| Graph.ResizedIsPulled | src/video-node/base.ts:242-254 | a resize changes only what a pull may change |
| Graph.ResizedTransitive | src/video-node/base.ts:242-254 | resizes compose |
| Graph.ResizeOne | src/video-node/base.ts:242-249 | resizing one node is a resize of the table |
| Graph.PullOne | src/video-node/base.ts:139 | changing one node as a pull may is a pull of the table |
| Graph.PulledThenResized | src/video-node/source.ts:40 | a resize inside a pull is still a pull |
| Graph.SameEdgesKeepSound | src/video-node/base.ts:44-45 | a node changed without touching its state or edges keeps the table sound |
| Graph.UnpluggedIsCut | src/video-node/base.ts:158-179 | teardown adds no edge |
| Graph.UnpluggedTransitive | src/video-node/base.ts:158-179 | teardown steps compose |
| Graph.UnplugOne | src/video-node/base.ts:158-161 | tearing down one node is a teardown step of the table |
| Graph.Swapped | src/video-node/source.ts:67-74 | the current track becomes the new one; the same track changes nothing; otherwise the stream loses the old track and gains the new one; a stream wrapping the track keeps doing so |
| Graph.Shut | src/video-node/base.ts:159-177 | the node is closed without an output; an own canvas is emptied to 0 x 0; then the tracks are retired as `Retired` says |
| Graph.Retired | src/video-node/destination.ts:80-84 | a track destination detaches its mute handler and stops its track, a track source drops its stream (source.ts:75-79); any other node is left alone; only those fields change |
| Graph.RetiredStays | src/video-node/source.ts:75-79 | retired tracks stay retired through any change that only removes edges |
| Graph.FramesKeptStep | src/video-node/base.ts:136-142 | nodes a pull did not reach keep their counts across consecutive pulls |
| Graph.ResizedKeepsFrames | src/video-node/base.ts:242-254 | a resize changes no frame count |
| Graph.SlotRectsKept | src/video-node/mix.ts:15-32 | slot rectangles depend only on the slots' layouts and the children's sizes |
| Graph.Adopted | src/video-node/mix.ts:44-50 | a mix stores one new slot at the layout's zIndex; any other node takes the node as its input |
| Graph.AdoptedTakesIndex | src/video-node/mix.ts:45-49 | a mix holds one input per zIndex: once taken, a zIndex is refused, and every other zIndex is accepted exactly as before |
| Graph.Dropped | src/video-node/mix.ts:69-71 | a mix clears the first slot holding the node, and when none holds it the write at index -1 clears a slot stored under zIndex -1; any other node clears its input whatever the node is; only edges are removed |
| Graph.DroppedAbsent | src/video-node/mix.ts:44-46 | removing a node no slot holds keeps the slot table, and afterwards zIndex -1 is accepted and every other zIndex exactly as before |
| Graph.StraySlotFreed | src/video-node/mix.ts:44-71 | a node added under zIndex -1 and removed again leaves zIndex -1 free for the next node |
| Graph.AdoptedLinked | src/video-node/base.ts:126-131 | adopting a lower-ranked node keeps the target's edges ranked |
| Graph.Detached | src/video-node/base.ts:150-154 | disconnect keeps the table's nodes |
| Graph.DetachedIsUnplugged | src/video-node/base.ts:150-154 | disconnecting a connected node only removes edges |
| Graph.UnpluggedKeepsSound | src/video-node/base.ts:150-161 | edge removals that keep outputs matching states keep the table sound |
| Graph.RaisedSound | src/video-node/base.ts:126-135 | a node without an output that no node consumes can rank above every other node, and the table stays ordered |
| Graph.DetachedUnused | src/video-node/base.ts:150-157 | after a disconnect from a non-mix output that was its only consumer, nothing consumes the node and it has no output |
| Graph.ReconnectReversed | src/video-node/base.ts:126-157 | `a.connect(b); a.disconnect()` gives the table back, and a re-rank then orders `b` below `a`, so `b.connect(a)` is allowed |
| Graph.ConnectDisconnectRoundTrip | src/video-node/base.ts:126-157 | connect then disconnect restores the whole table when the target's input or slot was free inside its array |
| Graph.AdoptThenDrop | src/video-node/mix.ts:44-71 | removeInput undoes addInput under the same conditions |
| Teardown.Unlinked | src/video-node/base.ts:150-154 | disconnect keeps the table's nodes |
| Teardown.UnlinkedUnplugs | src/video-node/base.ts:150-154 | disconnect only removes edges and follows the lifecycle table: a connected node goes back to init, anything else is left as it was |
| Teardown.Unhooked | src/video-node/base.ts:159-161 | the first steps of close keep the table's nodes |
| Teardown.UnhookedUnplugs | src/video-node/base.ts:159-161 | the output drops the node, which ends closed without an output and shut |
| Teardown.UnlinkSlot | src/video-node/mix.ts:140-147 | one slot's child disconnecting keeps the table's nodes |
| Teardown.SlotsUnlinked | src/video-node/mix.ts:139-149 | the loop over the slots keeps the table's nodes |
| Teardown.SlotBufferDelete | src/video-node/mix.ts:142-146 | at most one buffer deletion per slot |
| Teardown.SlotBufferDeletes | src/video-node/mix.ts:142-146 | the rest of the loop releases at most one buffer per remaining slot |
| Teardown.SlotBufferDeletesOnlyDelete | src/video-node/mix.ts:142-146 | every call the loop makes is a delete |
| Teardown.DropCleared | src/video-node/destination.ts:61-64 | `removeInput` on a destination clears exactly its own interval |
| Teardown.UnlinkCleared | src/video-node/base.ts:150-154 | a disconnect by a node that is not connected clears nothing |
| Teardown.UnpluggedKeepsIntervals | src/video-node/base.ts:150-179 | removing edges keeps the destinations' intervals |
| Teardown.UnlinkClearedDestinations | src/video-node/base.ts:150-154 | a disconnect clears only a destination's interval |
| Teardown.SlotsClearedSnoc | src/video-node/mix.ts:139-149 | one more pass of a closing mix's loop clears what that pass's disconnect clears |
| Teardown.SlotsClearedDestinations | src/video-node/mix.ts:139-149 | a closing mix's loop clears only destinations' intervals |
| Teardown.CloseClearedDestinations | src/video-node/base.ts:158-179 | `close` clears only destinations' intervals, and closing an open node whose output is a destination clears that destination's interval (destination.ts:61-64) |
| Teardown.SlotsUnlinkedSnoc | src/video-node/mix.ts:139-149 | the loop visits the slots in ascending index, one disconnect and buffer deletion per slot |
| Teardown.UnlinkSlotKeepsLater | src/video-node/mix.ts:139-149 | a child disconnecting leaves the later slots of the mix in place |
| Teardown.SlotsUnlinkedUnplugs | src/video-node/mix.ts:137-150 | the loop only removes edges |
| Teardown.SlotsUnlinkedDisconnects | src/video-node/mix.ts:139-149 | after the loop no child of a slot is connected |
| Teardown.SelfClosed | src/video-node/base.ts:159-162 | close up to the mix's loop keeps the table's nodes |
| Teardown.Closing | src/video-node/base.ts:158-179 | close keeps the table's nodes; its effects are stated by `ClosingUnplugs`, `ClosingDisconnects` and `ClosingTwice` |
| Teardown.CloseOps | src/video-node/base.ts:163-172 | nothing is released without the GPU; on a closed node only a mix releases, at most one buffer per slot (mix.ts:137-150) |
| Teardown.SelfClosedUnplugs | src/video-node/base.ts:159-162 | the node ends closed without an output, and its input is disconnected rather than closed |
| Teardown.ClosingUnplugs | src/video-node/base.ts:158-179 | close only removes edges, follows the lifecycle table, and ends closed with retired tracks and, from an open state, without an output; a refused close of a node other than a mix with retired tracks changes nothing |
| Teardown.ClosingTwice | src/video-node/destination.ts:80-84 | closing a node other than a mix a second time changes nothing |
| Teardown.ClosingKeepsSound | src/video-node/base.ts:158-179 | close keeps the table sound |
| Teardown.ClosingAfterUnhook | src/video-node/base.ts:159-162 | everything close does after unhooking only removes edges |
| Teardown.ClosingReleasesOutput | src/video-node/base.ts:160-161 | the former output no longer holds the node: a plain node clears its input, a mix its slot, and the slot array keeps its length |
| Teardown.ClosingDisconnects | src/video-node/mix.ts:137-150 | after close the input of an open node and every child of a mix's slots are disconnected, none closed, also when a closed mix is closed again |
| Teardown.CloseListed | src/video-node/base.ts:76-78 | a listener closing keeps the table's nodes, and skips a closed node |
| Teardown.AllClosed | src/video-context.ts:118-120 | the disconnect event keeps the table's nodes |
| Teardown.AllClosedOps | src/video-context.ts:118-120 | the event only appends release calls, and none without the GPU |
| Teardown.ListenedOps | src/video-node/base.ts:76-78 | a listener releases nothing without the GPU, for a node not in the table, or for a closed node |
| Teardown.AllClosedUnplugs | src/video-context.ts:118-120 | the disconnect event only removes edges |
| Teardown.AllClosedCloses | src/video-node/base.ts:76-78 | after the disconnect event every listening node is closed |
| Runtime.Reshaped | src/video-node/base.ts:244-249 | a node at the new size whose own canvas, if any, follows, and nothing else changed |
| Runtime.StorageOps | src/video-node/base.ts:250-252 | the texture storage is reallocated exactly on the GPU for a node with a texture and a framebuffer |
| Runtime.CreatePlan | src/video-context.ts:50-74 | never two backends; use2d asks only for a 2-D context and keeps the canvas; otherwise the GPU when obtainable, with the listener exactly when the program links; else 2-D, and the canvas is kept exactly when some backend exists |
| Runtime.TableKept | src/video-node/base.ts:44-45 | a sound table with the same nodes keeps the context's table invariant |
| Runtime.UnpluggedKept | src/video-node/base.ts:158-179 | teardown keeps the table invariant |
| Runtime.PulledKept | src/video-node/base.ts:136-142 | pulls keep the table invariant |
| Runtime.RearmedThenResized | src/video-node/destination.ts:57-60 | a resize after arming a timer changes only what arming and resizing may |
| Runtime.ArmedAfterResize | src/video-node/destination.ts:57-60 | arming a destination's timer after a resize changes only its interval id |
| Runtime.AttachedRearmed | src/video-node/base.ts:126-131 | connect's edges added to what addInput did give what connect did |
| Runtime.KeptBelowTransitive | src/video-node/base.ts:253 | nodes upstream of a resize stay unchanged through consecutive resizes |
| Runtime.KeptBelowOne | src/video-node/base.ts:242-254 | changing one node leaves every lower-ranked node unchanged |
| Runtime.SlotRectsResized | src/video-node/mix.ts:51-53 | a resize that leaves upstream nodes alone leaves a mix's slot rectangles alone |
| Runtime.UploadOps | src/video-node/source.ts:32-39 | a texture upload is made exactly on the GPU path for a node with a texture |
| Runtime.NotedIsUploaded | src/video-node/source.ts:10-43 | remembering the decision and resizing to the producer's size is what an upload promises |
| Requests.ShotOf | src/video-node/source.ts:10-49 | a node reads a producer exactly when it is a source, and its frame decision is the decision on what it reads |
| Requests.Views | src/video-node/source.ts:10-49 | what every source with an image would read from its producer; the producers show it |
| Requests.ShotIn | src/video-node/source.ts:10-49 | only a source reads a producer; it reads the one it was shown, compared with the image it saw last |
| Requests.Ids | src/video-node/mix.ts:74 | the nodes a run of requests asked, request by request |
| Requests.Gots | src/video-node/mix.ts:74 | the answers a run of requests returned, request by request |
| Requests.Reached | src/video-node/mix.ts:74 | the table a non-empty run of requests ends with is the one its last request left |
| Requests.Bumped | src/video-node/base.ts:138-139 | counting a frame keeps the table's nodes and adds exactly one to the node's frame count when it produced, nothing otherwise |
| Requests.Traced | src/video-node/base.ts:136-149 | a request whose own outcome is what `requestFrame` promises (`Answered`), and whose requests below are the ones its kind makes (none for a source or without a backend; the slots' children in order for a mix; the input, when there is one, for a mirror or destination) and each follow the protocol, follows the protocol (`Follows`) |
| Requests.Extended | src/video-node/mix.ts:74 | a request made from the table a run of requests ends with, and following the protocol, extends the run: it is still chained, still follows, ends where the new request ends, and asked and answered one more |
| Requests.FramesComeFromSources | src/video-node/base.ts:136-149 | every request that follows the protocol and returns a frame is fed, through requests that each returned one, by a source whose producer showed an uploadable frame |
| Requests.MirroredSourceReaches | src/video-node/mirror.ts:32-48 | on the GPU path, a destination reading a mirror reading a source whose producer shows an uploadable frame gets a frame: a request down the chain cannot be skipped |
| Requests.ShowingPulled | src/video-node/source.ts:10-49 | pulls keep every source's producer, so producers that showed a snapshot still show it |
| Requests.ShowingUpdated | src/video-node/destination.ts:24-30 | re-arming and advancing a destination leave what the producers show alone |
| Runtime.Counted | src/video-node/base.ts:136-142 | counting the frame after a render turns what render promised into what requestFrame promises, and the request with its requests below follows the protocol |
| Runtime.GrewKept | src/video-node/mix.ts:74 | a child that gained a frame keeps it through later pulls |
| Runtime.AnswersKept | src/video-node/mix.ts:74 | every request of the run that returned a frame keeps its child's gain through later requests, and so does the next one |
| Runtime.AnsweredAdvanced | src/video-node/mix.ts:74 | when the run asked exactly the slots' children and some request returned a frame, a child of a slot gained one |
| Runtime.SlotsInPulled | src/video-node/mix.ts:72-110 | a mix's slots still name nodes of the table after a pull |
| Runtime.VideoContext.constructor | src/video-context.ts:36-44 | a context with the given name and rate, uninitialized and unavailable, with no nodes, listeners, events or calls |
| Runtime.VideoContext.Width | src/video-context.ts:101-103 | the canvas width, 0 without a canvas |
| Runtime.VideoContext.Height | src/video-context.ts:108-110 | the canvas height, 0 without a canvas |
| Runtime.VideoContext.Available | src/video-context.ts:76-78 | a canvas is held only by a created context |
| Runtime.VideoContext.Create | src/video-context.ts:45-75 | refused outside init with nothing changed; otherwise created with the backends of `CreatePlan`, the failure flag cleared, a default-size canvas, three handles for a linked program, and a program failure returned as the outcome |
| Runtime.VideoContext.SetWidth | src/video-context.ts:97-100 | the GPU viewport is set to the new width and the current height; the canvas takes the width; the height is kept |
| Runtime.VideoContext.SetHeight | src/video-context.ts:104-107 | the GPU viewport is set to the current width and the new height; the canvas takes the height; the width is kept |
| Runtime.VideoContext.SetSize | src/video-context.ts:111-117 | the GPU viewport is set to the new size and the canvas takes both sides; without a canvas nothing is resized |
| Runtime.VideoContext.Resize | src/video-node/base.ts:242-254 | the node reaches the asked size (a mix its bounding box); only sizes change, nothing upstream changes; a track destination sizes the canvas too; a plain node already at that size changes nothing |
| Runtime.VideoContext.BaseResize | src/video-node/base.ts:242-254 | an unchanged size changes nothing; otherwise the node and its own canvas take the size, the texture storage is reallocated, and the output follows exactly when it matches its input's size |
| Runtime.VideoContext.Reshape | src/video-node/base.ts:243-252 | the node is resized and the storage call recorded |
| Runtime.VideoContext.MixResize | src/video-node/mix.ts:51-63 | the mix ends at the bounding box of its slots, and on the GPU every occupied slot has a vertex buffer |
| Runtime.VideoContext.RefreshSlotBuffers | src/video-node/mix.ts:54-62 | only the mix's slots change: each occupied slot keeps its buffer or gets a fresh one, and every slot buffer is written in ascending index |
| Runtime.VideoContext.WriteSlotBuffers | src/video-node/mix.ts:55-61 | the loop gives every occupied slot a buffer and records the writes in index order |
| Runtime.VideoContext.WriteSlotBuffer | src/video-node/mix.ts:56-60 | one slot is given a buffer (the one it had, or a fresh handle) and written; every other slot is kept |
| Runtime.VideoContext.NewNode | src/video-context.ts:79-93 | a node is built under a fresh id as `Built` and `BuiltGpu` describe and registered as a listener; a raster mirror records its flip and a track source plays its video; a GPU construction fault destroys the context with the node's reason and error and the new node ends closed, except for a mix, track source or track destination, whose destroy throws (base.ts:122-124, mix.ts:137-139, source.ts:75-78, destination.ts:80-82): then every listening node is closed and disconnect emitted, but the backend stays and no unavailable follows |
| Runtime.VideoContext.Construct | src/video-node/base.ts:74-125 | the node built from the resolved options is stored under the next id and listens for disconnect |
| Runtime.VideoContext.Settle | src/video-node/mirror.ts:24-30 | a constructor that did not throw: nothing in the table changes; a raster mirror records its flip and a track source plays its video (source.ts:55-58) |
| Runtime.VideoContext.Conclude | src/video-node/base.ts:122-124 | after the allocations: without a GPU fault the subclass constructor finishes as `Settle` says; a fault destroys the context as `Abort` says, unless the node's own close throws, where `Abandon` leaves the backend and no unavailable follows |
| Runtime.VideoContext.Abort | src/video-node/base.ts:122-124 | a construction fault of a node whose close does not throw destroys the context: disconnect and unavailable are emitted, the failure flag is set, the node is closed |
| Runtime.VideoContext.Abandon | src/video-node/base.ts:122-124 | a construction fault of a node whose close throws: every listener closes its node as `AllClosed` says, the new node last, clearing the intervals of `AllClosedCleared`, and disconnect is emitted; the backend and the failure flag are untouched |
| Runtime.VideoContext.Register | src/video-node/base.ts:76-78 | the node is stored under a fresh id and appended to the listeners |
| Runtime.VideoContext.Wrap | src/video-node/source.ts:56-58 | the track source wraps its track in a stream and plays it |
| Runtime.VideoContext.AddInput | src/video-node/base.ts:132-135 | refused exactly when a mix has no layout or the slot is taken, with nothing changed; otherwise the edge is added, the target takes the input's size exactly when it matches sizes and both sides are nonzero, and a destination arms one fresh interval at the context rate |
| Runtime.VideoContext.MatchSize | src/video-node/base.ts:134 | the target takes the input's size exactly when it matches sizes and the input's sides are nonzero; otherwise nothing changes |
| Runtime.VideoContext.Adopt | src/video-node/mix.ts:44-50 | the target's edge is added as `Adopted` says |
| Runtime.VideoContext.Start | src/video-node/destination.ts:24-36 | one fresh interval is armed for the node at the given rate and the node records its id |
| Runtime.VideoContext.Connect | src/video-node/base.ts:126-131 | succeeds exactly when the lifecycle table allows connect and the target accepts the input, returning the target; the edges are those of `Attached`; a refused connect changes nothing; a connected mix ends at its bounding box |
| Runtime.VideoContext.Rerank | src/video-node/base.ts:126-131 | any order the table respects may replace the rank; nothing but the rank changes and the context stays valid |
| Runtime.VideoContext.Plug | src/video-node/base.ts:129 | the node is connected with the target as its output |
| Runtime.VideoContext.RequestFrame | src/video-node/base.ts:136-142 | the node counts one more frame exactly when it produced one, which needs a backend; it produced exactly when its render did; only what pulls change changes, and frame counts only grow; the request `tr` goes from the table before to the one after and follows the protocol all the way down: every request below it was made, from the table the previous one left, and got what `requestFrame` promises |
| Runtime.VideoContext.RenderAny | src/video-node/base.ts:137-138 | `render` with a GPU context, then, when that gave nothing, `render2d` with a 2-D context, as `RenderedBy` states each; the requests below are those the node's kind makes, each following the protocol |
| Runtime.VideoContext.CountFrame | src/video-node/base.ts:139 | the node's frame count goes up by one |
| Runtime.VideoContext.Render | src/video-node/base.ts:143 | the GPU render of each kind, as `RenderedBy` states it; a source makes no request, any other node makes the requests its kind makes (`Asked`), from the table the render began with to the one it ends with, each following the protocol |
| Runtime.VideoContext.Render2d | src/video-node/base.ts:144-149 | the 2-D render of each kind, as `RenderedBy` states it: a pass-through node produces exactly when its input produced, it has a 2-D context and the input has an image, and then draws the input last; the requests made below are those of `Asked`, each following the protocol |
| Runtime.VideoContext.Composite | src/video-node/mix.ts:72-126 | a mix requests a frame of each child of its occupied slots, in index order, each request following the protocol from the table the previous one left; it produces exactly when some request returned a frame and a surface exists, then clears and draws its slots; with no slots it never produces |
| Runtime.VideoContext.Paint | src/video-node/mix.ts:113-122 | a clear followed by the composite of the slots |
| Runtime.VideoContext.PassOn | src/video-node/mirror.ts:32-48 | a mirror or destination requests a frame of its input exactly when it has one, and that request follows the protocol; it produces exactly when that request returned a frame (and on the 2-D path it has a context and the input an image), drawing the input last |
| Runtime.VideoContext.Draw2d | src/video-node/base.ts:256-266 | draws exactly when the target has a 2-D context and the source an image, recording that one call |
| Runtime.VideoContext.DrawTextures | src/video-node/mix.ts:83-94 | the GPU composite of the slots is recorded |
| Runtime.VideoContext.DrawSlots | src/video-node/mix.ts:116-121 | the 2-D composite of the slots is recorded |
| Runtime.VideoContext.PullSlots | src/video-node/mix.ts:74 | the run of requests asks exactly the children of the occupied slots, one each, in ascending index order; each request starts from the table the previous one left and follows the protocol all the way down, with the producers as they were when the pull began; no frame exactly when no request returned one; each request that did made its child gain a frame |
| Runtime.VideoContext.AskSlot | src/video-node/mix.ts:74 | one request of the reduce: a `requestFrame` of the child from the table the run ended with, following the protocol, which extends the run; the frames gained since the pull began are kept, and the child gains one if its request returns one |
| Runtime.VideoContext.RenderSource | src/video-node/source.ts:10-49 | produces exactly when the new-frame decision uploads; a skip changes nothing; an incremental upload only remembers the producer; a full one also resizes to the producer's size |
| Runtime.VideoContext.Upload | src/video-node/source.ts:32-41 | the texture upload is recorded; a full upload resizes to the producer's size, an incremental one changes no node |
| Runtime.VideoContext.Note | src/video-node/source.ts:13-31 | the source remembers what `Noted` says |
| Runtime.VideoContext.RemoveInput | src/video-node/destination.ts:61-64 | the node drops the input as `Dropped` says; a destination clears its own interval (`DropCleared`) and no other is touched |
| Runtime.VideoContext.DisconnectNode | src/video-node/base.ts:150-154 | the table becomes `Unlinked`; exactly the former output's interval is cleared, when the node was connected and the output is a destination (`UnlinkCleared`) |
| Runtime.VideoContext.Close | src/video-node/base.ts:158-179 | the table becomes `Closing`, the release calls of `CloseOps` are recorded, and exactly the intervals of `CloseCleared` are cleared, among them the interval of a destination the node was the input of; on a closed node only the overrides' tails run again (mix.ts:137-150, destination.ts:80-84, source.ts:75-79) |
| Runtime.VideoContext.Unhook | src/video-node/base.ts:159-162 | the table becomes `SelfClosed`; exactly the output's interval (when it is a destination) and then the one the input's disconnect clears are cleared (`UnhookCleared`) |
| Runtime.VideoContext.DisconnectSlots | src/video-node/mix.ts:139-149 | the loop disconnects every slot's child and deletes every slot buffer, on the GPU path, clearing exactly the intervals of `SlotsCleared` |
| Runtime.VideoContext.DisconnectSlot | src/video-node/mix.ts:140-147 | one slot's child disconnects and its buffer is deleted, on the GPU path; only that disconnect's interval is cleared |
| Runtime.VideoContext.Disconnect | src/video-context.ts:118-120 | the disconnect event is emitted, every listening node closes in registration order, and the listeners are gone; exactly the intervals those closes clear (`AllClosedCleared`) are cleared |
| Runtime.VideoContext.RunListeners | src/video-node/base.ts:76-78 | each fired listener closes its node unless it is already closed, clearing the intervals its close clears |
| Runtime.VideoContext.RunFrom | src/video-node/base.ts:76-78 | the fired listeners from the given one on run in order, after the earlier ones, as `AllClosed`, `AllClosedOps` and `AllClosedCleared` say |
| Runtime.VideoContext.Listen | src/video-node/base.ts:76-78 | one node's listener: the node closes as `CloseListed` says unless it is already closed, its release calls (`ListenedOps`) are recorded, and the intervals of its close are cleared (`ListenCleared`) |
| Runtime.VideoContext.Destroy | src/video-context.ts:121-142 | refused outside created with nothing changed; otherwise the listening nodes close and clear the intervals of `AllClosedCleared`, the shared program is deleted, every backend and the canvas go (the canvas keeping its loss listener), disconnect is emitted, and unavailable plus the failure flag follow exactly a truthy reason |
| Runtime.VideoContext.Release | src/video-context.ts:123-141 | after the listeners ran: the shared program is deleted exactly when a GPU context and a program exist, every backend goes, and `unavailable` plus the failure flag follow exactly a truthy reason |
| Runtime.VideoContext.DropBackend | src/video-context.ts:132-140 | no GPU, no 2-D context, no canvas (emptied to 0 x 0), back to uninitialized; the dropped canvas keeps its loss listener, which becomes stale |
| Runtime.VideoContext.OnContextLost | src/video-context.ts:63-65 | the listener of the current canvas or of a dropped one destroys the context as context-lost when it is created; otherwise nothing changes |
| Runtime.VideoContext.Tick | src/video-node/destination.ts:24-36 | the sequence number goes up by one; the frame is counted exactly when the input produced one; a changed rate re-arms one fresh interval at the new rate, else the timer is kept; the request `tr` starts from the re-armed, advanced table and follows the protocol with the producers as they were when the interval fired; without an error it ends in the final table; a GPU error destroys the context with the node's name, request number, frame count and error |
| Runtime.VideoContext.Request | src/video-node/destination.ts:30 | the destination's requestFrame, leaving its name, sequence and interval alone, changing only what pulls change, the request following the protocol |
| Runtime.VideoContext.Fire | src/video-node/destination.ts:25-30 | re-arms as `Rearm` says, advances the sequence number and makes the request, which starts from the re-armed, advanced table, follows the protocol and ends in the final table |
| Runtime.VideoContext.Rearm | src/video-node/destination.ts:26-29 | the same rate keeps everything; a changed rate clears the node's interval and arms one fresh interval at the context rate |
| Runtime.VideoContext.Advance | src/video-node/destination.ts:30 | returns the current sequence number and increments it |
| Runtime.VideoContext.Fail | src/video-node/destination.ts:31-34 | the context is destroyed with a render-failed reason naming the node, its request and frame counts and the error code |
| Runtime.VideoContext.OnTrackMute | src/video-node/destination.ts:71-74 | the handler detaches itself; while attached on a created context it destroys the context as track-muted, and on any other context only detaches; already detached, nothing happens |
| Runtime.VideoContext.ReplaceTrack | src/video-node/source.ts:67-74 | the tracks become `Swapped`; the video is played again exactly when the track differs |

## Left out

- GPU and 2-D drawing calls are not executed. Shader compilation and linking, texture
  parameters, framebuffer binding and attribute set-up are not modelled. Each call that matters
  is recorded as an `Op`: deletions, uploads, storage, slot buffers, clears, draws, viewport,
  the mirror's flip and video play.
- `getVertexPoint` / `layout2texCoords` turn a rectangle into normalised device coordinates by
  floating-point division. A slot-buffer write records the slot's rectangle instead.
- `getInfo`'s fps, timestamp and the `lastInfo` record that only feeds the fps: wall-clock time
  and floating-point division. What else it reports is state of the model: the frame count,
  position and size are node fields, and the parents it walks are the node's input (base.ts:273)
  or, for a mix, the children of the occupied slots in slot order, `Graph.SlotChildren`
  (mix.ts:133).
- `SmallVideoTrackDestination` and `VideoFrameDestination` are not part of this model. The first
  uses a square-root size ratio; the second only wraps the canvas in a `VideoFrame`.
- The timer library and `setTimeout` are not modelled. The timer is the set of armed intervals,
  and a tick is the `Tick` call made on an armed interval of a destination. Asynchrony is not
  modelled.
- The raster mirror's deferred flip is recorded when the node is built, with the width the node
  has then. The scheduled callback would read the width at the time it runs.
- DOM canvas creation, `captureStream`, `MediaStream`, `video.play`, `srcObject` and
  `track.stop` are reduced to flags and recorded calls. Track identities are plain numbers.
- The state machine library is replaced by explicit transition tables.
- `removeAllListeners` on a closed node and on a destroyed context is not modelled beyond
  emptying the context's listener list. Event payloads are constructors rather than formatted
  strings.
- A cycle in the graph is excluded by a ghost rank: producers rank below consumers. The library
  does not check for cycles; a cycle would make its pulls and resizes recurse forever.
- Runtime.VideoContext.Connect: requires the rank to order the new edge. `Rerank` re-orders the
  nodes between calls; that every acyclic table has such an order is not proved, only the case of
  a node nothing consumes (`Graph.RaisedSound`), which covers a connect reversed after a
  disconnect (`Graph.ReconnectReversed`).
- Construction faults are modelled as happening at the first GPU allocation, before any handle
  is taken, or in the mirror's coordinate upload. A throw part-way through the allocations
  (which would leave some handles allocated) is not modelled. A program fault in `create` is
  likewise modelled as taking no handles.
- A track destination is created only on a context that has a canvas. On a context without a
  canvas the library throws from `captureStream` on a missing canvas, which is not modelled.
- The context's `frameRate` is a public field that the embedding application may assign; it is
  a field of the class with no setter method.
- Runtime.VideoContext.Tick: requires the interval to be armed by the node it fires for, and
  that node to be a destination. The timer only ever holds intervals armed by destinations.
- Runtime.VideoContext.PullSlots: the requests made are a ghost tree (`Requests.Trace`), each
  tied to what `requestFrame` promises for its node (`Requests.Answered`) and to the requests its
  kind makes below it (`Requests.Follows`). That promise states the frame count, a source's
  decision and which requests a mirror, destination or mix makes, but not every field of the
  table after the request, nor the calls a render records.
- Runtime.VideoContext.NewNode: after a construction fault it states the events, the backend,
  the listeners and that the new node is closed. It does not state the rest of the node table,
  which `Destroy` and `Abandon` describe. When the close override throws inside `destroy`, the
  state machine library's handling of a throwing action is not part of this model: the context
  is modelled as staying created, and the throw is not propagated to the caller. A half-built
  track node's track flags are those its built record has.
- Runtime.VideoContext.Resize: states the size the node reaches and that only sizes change.
  Past the first step (which `BaseResize` states exactly) it does not spell out the chain of
  downstream nodes that follow.
- Runtime.VideoContext.OnContextLost: on a loss it states the events and the backend. It does
  not state the node table, which `Destroy` describes.
- Runtime.VideoContext.Fail: states the events, the backend and that the table only lost edges.
  It does not state the exact table, which `Destroy` describes.
- Runtime.VideoContext.Connect: states the resulting table only up to sizes and interval ids
  (`AllRearmed` of `Attached`). The exact sizes are stated by `AddInput` and `MixResize`.
- Runtime.VideoContext.Composite: the same ghost tree of requests as `PullSlots`, with the same limits.
