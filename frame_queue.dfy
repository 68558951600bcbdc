/**
 * The decoded-frame hand-off (vst::FrameQueue): a single slot in which the
 * latest pushed frame wins and popping empties the slot. The mutex guarding
 * the slot is not modelled; each call is one sequential step.
 */
module FrameQueue {
  import opened Common

  /** A decoded frame: raw RGB24 or RGBA pixels and its size. */
  datatype VideoFrame = VideoFrame(pixels: seq<uint8>, width: int, height: int)

  class FrameQueue {
    var latest: Option<VideoFrame>

    /** A new queue holds no frame. */
    constructor ()
      ensures latest == None
    {
      latest := None;
    }

    /** `push`: the frame replaces whatever the slot held. */
    method Push(frame: VideoFrame)
      modifies this
      ensures latest == Some(frame)
    {
      latest := Some(frame);
    }

    /** `pop`: hands out the slot's content and leaves the slot empty. */
    method Pop() returns (result: Option<VideoFrame>)
      modifies this
      ensures result == old(latest)
      ensures latest == None
    {
      result := latest;
      latest := None;
    }
  }

  /**
   * Two pushes then two pops on a fresh queue: the first pop yields the later
   * frame, the second yields nothing, and a pop before any push yields nothing.
   */
  method LatestWins(first: VideoFrame, second: VideoFrame)
    returns (beforePush: Option<VideoFrame>, popped: Option<VideoFrame>, again: Option<VideoFrame>)
    ensures beforePush == None
    ensures popped == Some(second)
    ensures again == None
  {
    var q := new FrameQueue();
    beforePush := q.Pop();
    q.Push(first);
    q.Push(second);
    popped := q.Pop();
    again := q.Pop();
  }
}
