/**
 * New-frame detection of the image source node: given what the wrapped
 * producer currently reports and what the node remembers, decide whether to
 * skip, upload the whole image (and resize) or upload incrementally.
 */
module SourceFrames {

  /** The producer kinds the source node tells apart. */
  datatype ImageKind =
    | Video(hasPlaybackQuality: bool)   // HTMLVideoElement, with or without getVideoPlaybackQuality
    | Picture(isImageData: bool)        // HTMLImageElement, ImageBitmap, or ImageData
    | Canvas                            // HTMLCanvasElement or OffscreenCanvas
    | OtherImage                        // any other image source

  /** What the node reads from its producer at render time. */
  datatype Producer = Producer(kind: ImageKind, width: nat, height: nat, decodedFrames: nat, sameObject: bool)

  /** What the node remembers: its size, frames produced, and the last decoded-frame count seen. */
  datatype Memory = Memory(width: nat, height: nat, totalFrames: nat, lastDecoded: nat)

  datatype Decision = Skip | Upload(full: bool, width: nat, height: nat)

  /** The producer's size as the node reads it; other kinds keep the node's own size. */
  function ProducerSize(p: Producer, m: Memory): (nat, nat) {
    if p.kind.OtherImage? then (m.width, m.height) else (p.width, p.height)
  }

  /** A video whose decoded-frame counter has not moved has nothing new. */
  predicate VideoStalled(p: Producer, m: Memory) {
    p.kind.Video? && p.kind.hasPlaybackQuality && p.decodedFrames == m.lastDecoded
  }

  /** The same picture object at the node's current size has already been uploaded. */
  predicate PictureUnchanged(p: Producer, m: Memory) {
    p.kind.Picture? && p.sameObject && p.width == m.width && p.height == m.height
  }

  function Decide(p: Producer, m: Memory): (d: Decision)
    ensures d.Skip? <==> VideoStalled(p, m) || PictureUnchanged(p, m)
    ensures d.Upload? ==> (d.width, d.height) == ProducerSize(p, m)
    ensures d.Upload? ==> (d.full <==> !(d.width == m.width && d.height == m.height && m.totalFrames > 0))
  {
    if VideoStalled(p, m) || PictureUnchanged(p, m) then Skip
    else
      var (w, h) := ProducerSize(p, m);
      Upload(!(m.width == w && m.height == h && m.totalFrames > 0), w, h)
  }

  /** What the node remembers after acting on an upload decision. */
  function Remember(p: Producer, m: Memory, d: Decision): Memory
    requires d.Upload?
  {
    Memory(if d.full then d.width else m.width, if d.full then d.height else m.height,
           m.totalFrames + 1,
           if p.kind.Video? && p.kind.hasPlaybackQuality then p.decodedFrames else m.lastDecoded)
  }

  /** A node that has never produced a frame always does a full upload. */
  lemma FirstFrameIsFull(p: Producer, m: Memory)
    requires m.totalFrames == 0 && Decide(p, m).Upload?
    ensures Decide(p, m).full
  {
  }

  /** Canvases and videos without a frame counter never skip. */
  lemma AlwaysUploaded(p: Producer, m: Memory)
    requires p.kind.Canvas? || p.kind == Video(false) || p.kind.OtherImage?
    ensures Decide(p, m).Upload?
  {
  }

  /**
   * Rendering the same still picture twice: the second render skips, because
   * the first one adopted the picture's size and remembered the object.
   */
  lemma PictureSettles(p: Producer, m: Memory)
    requires p.kind.Picture? && Decide(p, m).Upload?
    ensures Decide(p.(sameObject := true), Remember(p, m, Decide(p, m))).Skip?
  {
  }

  /** A video whose counter did not advance between two renders is skipped the second time. */
  lemma VideoSettles(p: Producer, m: Memory)
    requires p.kind == Video(true) && Decide(p, m).Upload?
    ensures Decide(p, Remember(p, m, Decide(p, m))).Skip?
  {
  }

  /** Once the node has produced a frame at the producer's size, further uploads are incremental. */
  lemma SteadyStateIsIncremental(p: Producer, m: Memory)
    requires Decide(p, m).Upload?
    requires p.kind.Canvas? || p.kind.Video?
    ensures var m' := Remember(p, m, Decide(p, m));
      var d' := Decide(p, m');
      d'.Upload? ==> !d'.full
  {
  }

  /** A 320 x 240 still picture on a fresh 640 x 480 node: full upload that resizes the node to 320 x 240. */
  lemma StillPictureScenario()
    ensures Decide(Producer(Picture(false), 320, 240, 0, false), Memory(640, 480, 0, 0)) == Upload(true, 320, 240)
  {
  }
}
