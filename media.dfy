/**
 * The browser objects the graph reads but does not own: the image or video a
 * source node wraps, whose fields the environment sets between calls, and
 * media tracks, which the graph only compares by identity.
 */
module Media {
  import opened SourceFrames

  /** An image producer: an element, bitmap, image data or canvas. */
  class ImageSource {
    const kind: ImageKind
    var width: nat           // width, or videoWidth for a video
    var height: nat          // height, or videoHeight for a video
    var decodedFrames: nat   // getVideoPlaybackQuality().totalVideoFrames

    constructor (kind: ImageKind, width: nat, height: nat)
      ensures this.kind == kind && this.width == width && this.height == height && decodedFrames == 0
    {
      this.kind := kind;
      this.width := width;
      this.height := height;
      decodedFrames := 0;
    }
  }

  /** A media stream track, known to the graph only by its identity. */
  type TrackId = nat
}
