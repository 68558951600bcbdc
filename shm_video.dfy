/**
 * The shared-memory video mailbox (vst::memory::ShmVideoHandler).
 *
 * A segment is a fixed header followed by one frame of
 * `width * height * channels` bytes. A `Handler` maps at most one segment;
 * two handlers (a producer and a consumer) may map the same `Segment` object,
 * which is how a write followed by a read is modelled in one sequential program.
 *
 * The POSIX calls are not modelled: their outcomes are inputs (`ShmOs`), the
 * segment a name refers to is passed to `Open`, and what a handler asks of
 * the system is returned as a list of calls. What the other process does to
 * the header while a reader sleeps is given as a list of `PeerStep`s.
 */
module ShmVideo {
  import opened Common
  import opened Image

  /** The IEEE-754 bits of the `double` fps field, carried through unchanged. */
  type Fps = bv64
  const FPS_ZERO: Fps := 0

  /** `ShmVideoFrameHeader`, field by field in declaration order. */
  datatype Header = Header(
    width: uint32,
    height: uint32,
    channels: uint32,
    frameIndex: uint32,
    totalFrames: uint32,
    fps: Fps,
    timestamp: uint64,
    isNewFrame: bool,
    isEndOfVideo: bool)

  /** The value-initialised header `getFrameMetadata` returns when nothing is mapped. */
  const ZERO_HEADER: Header := Header(0, 0, 0, 0, 0, FPS_ZERO, 0, false, false)

  /** `createSharedMemory`'s default channel count, and `readFrame`'s default for waiting. */
  const DEFAULT_CHANNELS: uint32 := 4
  const DEFAULT_WAIT: bool := true

  /** The reader polls at most this many times, sleeping 50 ms before each re-check. */
  const MAX_ATTEMPTS: nat := 100

  // ---------------------------------------------------------------------------
  // Layout and sizes
  // ---------------------------------------------------------------------------

  /**
   * `sizeof(ShmVideoFrameHeader)` on x86-64 and AArch64 Linux: five 4-byte
   * fields at 0..16, the double at 24 after 4 bytes of padding, the 8-byte
   * timestamp at 32, the two flags at 40 and 41, padded to a multiple of 8.
   */
  const HEADER_SIZE: nat := 48

  /** `width * height * channels` in 32-bit unsigned arithmetic: the frame region's byte count. */
  function DataSize(width: uint32, height: uint32, channels: uint32): (n: uint32)
    ensures width * height * channels < TWO_32 ==> n == width * height * channels
    ensures n <= width * height * channels
  {
    var bytes := width * height * channels;
    assert bytes >= 0;
    Wrap32(bytes)
  }

  /** `calculateShmSize`: the header followed by the frame region. */
  function CalculateShmSize(width: uint32, height: uint32, channels: uint32): (n: nat)
    ensures n == HEADER_SIZE + DataSize(width, height, channels)
    ensures HEADER_SIZE <= n < HEADER_SIZE + TWO_32
  {
    HEADER_SIZE + DataSize(width, height, channels)
  }

  /** The header a freshly created segment starts with. */
  function InitialHeader(width: uint32, height: uint32, channels: uint32): (h: Header)
    ensures h.width == width && h.height == height && h.channels == channels
    ensures h.frameIndex == 0 && h.totalFrames == 0 && h.fps == FPS_ZERO && h.timestamp == 0
    ensures !h.isNewFrame && !h.isEndOfVideo
  {
    Header(width, height, channels, 0, 0, FPS_ZERO, 0, false, false)
  }

  /** The name as stored: at most one leading '/' removed. */
  function StripSlash(name: string): (r: string)
    ensures |name| > 0 && name[0] == '/' ==> r == name[1..]
    ensures !(|name| > 0 && name[0] == '/') ==> r == name
  {
    if |name| > 0 && name[0] == '/' then name[1..] else name
  }

  lemma StripSlashOnce()
    ensures StripSlash("//video") == "/video"
    ensures StripSlash("video") == "video"
  {
  }

  // ---------------------------------------------------------------------------
  // Frame conversion
  // ---------------------------------------------------------------------------

  /** The channel combinations `writeFrame` accepts. */
  predicate Convertible(frameChannels: int, channels: uint32)
  {
    frameChannels == channels ||
    (channels == 3 && frameChannels == 4) ||
    (channels == 4 && frameChannels == 3)
  }

  /** The frame's bytes in the segment's channel layout. */
  function Converted(frame: Mat, channels: uint32): (bytes: seq<uint8>)
    requires frame.Valid() && Convertible(frame.channels, channels)
    ensures |bytes| == frame.rows * frame.cols * channels
    ensures frame.channels == channels ==> bytes == frame.data
  {
    var n := frame.rows * frame.cols;
    assert |frame.data| == n * frame.channels;
    if frame.channels == channels then frame.data
    else if channels == 3 then RgbaToRgb(frame.data)
    else BgrToRgba(frame.data)
  }

  /** A frame whose size matches the header's has the header's pixel count. */
  lemma MatchingFrameSize(frame: Mat, h: Header)
    requires frame.Valid() && frame.cols == AsInt32(h.width) && frame.rows == AsInt32(h.height)
    ensures frame.rows * frame.cols * h.channels == h.width * h.height * h.channels
  {
    assert frame.cols == h.width && frame.rows == h.height;
  }

  // ---------------------------------------------------------------------------
  // The shared segment and the other process
  // ---------------------------------------------------------------------------

  /** One mapped segment: the header and the frame region after it. */
  class Segment {
    var header: Header
    const data: array<uint8>

    /** A segment sized for `width * height * channels` with a fresh header. */
    constructor (width: uint32, height: uint32, channels: uint32)
      ensures header == InitialHeader(width, height, channels)
      ensures data.Length == DataSize(width, height, channels)
      ensures Valid()
      ensures fresh(data)
    {
      header := InitialHeader(width, height, channels);
      data := new uint8[DataSize(width, height, channels)];
    }

    /** The frame region holds exactly the bytes the header's dimensions call for. */
    predicate Valid()
      reads this
    {
      data.Length == DataSize(header.width, header.height, header.channels)
    }

    /** `memcpy` of the region's size from `src` into the region. */
    method CopyIn(src: seq<uint8>)
      requires |src| >= data.Length
      modifies data
      ensures data[..] == src[..data.Length]
    {
      for i := 0 to data.Length
        invariant data[..i] == src[..i]
      {
        data[i] := src[i];
      }
    }
  }

  /** What the other process does to the header during one 50 ms sleep of a reader. */
  datatype PeerStep = Idle | Publish | End

  function ApplyStep(h: Header, step: PeerStep): (h': Header)
    ensures h'.width == h.width && h'.height == h.height && h'.channels == h.channels
  {
    match step
    case Idle => h
    case Publish => h.(isNewFrame := true)
    case End => h.(isEndOfVideo := true)
  }

  /** The peer's step during sleep `k`; it stays idle once its list runs out. */
  function StepAt(peer: seq<PeerStep>, k: nat): PeerStep
  {
    if k < |peer| then peer[k] else Idle
  }

  /** The header after the reader's first `k` sleeps. */
  function AfterSleeps(h: Header, peer: seq<PeerStep>, k: nat): (h': Header)
    ensures h'.width == h.width && h'.height == h.height && h'.channels == h.channels
  {
    if k == 0 then h else ApplyStep(AfterSleeps(h, peer, k - 1), StepAt(peer, k - 1))
  }

  /** The polling loop stops: a frame is pending or the stream has ended. */
  predicate Signalled(h: Header)
  {
    h.isNewFrame || h.isEndOfVideo
  }

  /** With an idle peer the header never changes, however long the reader sleeps. */
  lemma {:induction false} IdlePeerChangesNothing(h: Header, k: nat)
    ensures AfterSleeps(h, [], k) == h
  {
    if k > 0 {
      IdlePeerChangesNothing(h, k - 1);
    }
  }

  /** Once set, the end-of-video flag survives any further peer steps. */
  lemma {:induction false} EndIsSticky(h: Header, peer: seq<PeerStep>, j: nat, k: nat)
    requires j <= k && AfterSleeps(h, peer, j).isEndOfVideo
    ensures AfterSleeps(h, peer, k).isEndOfVideo
    decreases k - j
  {
    if j < k {
      EndIsSticky(h, peer, j, k - 1);
    }
  }

  // ---------------------------------------------------------------------------
  // The handler
  // ---------------------------------------------------------------------------

  /** The outcome of the OS calls of create (shm_open, ftruncate, mmap) or open (shm_open, fstat, mmap). */
  datatype ShmOs = ShmOs(fd: int, sizeOk: bool, mapOk: bool) {
    predicate Succeeds() { fd != -1 && sizeOk && mapOk }
  }

  /** A system call the handler makes. */
  datatype ShmCall =
    | ShmOpen(path: string, create: bool)
    | Ftruncate(fd: int, size: nat)
    | Fstat(fd: int)
    | Mmap(fd: int, size: nat)
    | Munmap(size: nat)
    | CloseFd(fd: int)
    | Unlink(path: string)

  /** The calls `closeSharedMemory` makes: munmap and close when the handler is open, nothing otherwise. */
  function CloseCalls(wasOpen: bool, size: nat, fd: int): (calls: seq<ShmCall>)
    ensures wasOpen <==> calls != []
    ensures forall c :: c in calls ==> !c.Unlink? && !c.ShmOpen?
  {
    if wasOpen then [Munmap(size), CloseFd(fd)] else []
  }

  /**
   * How `writeFrame` ends: it returns true, it returns false, or
   * `cv::cvtColor` throws `cv::Exception` because the frame to convert is empty.
   */
  datatype WriteStatus = Written | Refused | ConversionThrew

  /** The outcome of `readFrame`. */
  datatype ReadStatus = NotOpen | Timeout | EndOfVideo | UnsupportedChannels | Delivered(frame: Mat)

  class Handler {
    var name: string
    var fd: int
    var size: nat
    var seg: Segment?
    var isOpen: bool

    /** The handler's invariant: it is open exactly when a segment is mapped. */
    predicate Valid()
      reads this, seg
    {
      (isOpen <==> seg != null) &&
      (!isOpen ==> fd == -1) &&
      (isOpen ==> fd >= 0 && seg.Valid() && size == HEADER_SIZE + seg.data.Length)
    }

    /** A new handler maps nothing. */
    constructor ()
      ensures Valid() && !isOpen && fd == -1 && size == 0 && seg == null
    {
      name := "";
      fd := -1;
      size := 0;
      seg := null;
      isOpen := false;
    }

    /**
     * `closeSharedMemory`: when open, unmap and close the descriptor and
     * forget the segment; when closed, do nothing. The name is never unlinked.
     */
    method Close() returns (calls: seq<ShmCall>)
      requires Valid()
      modifies this
      ensures Valid() && !isOpen && seg == null && fd == -1
      ensures name == old(name)
      ensures calls == CloseCalls(old(isOpen), old(size), old(fd))
      ensures size == if old(isOpen) then 0 else old(size)
      ensures forall c :: c in calls ==> !c.Unlink?
    {
      calls := [];
      if isOpen {
        calls := calls + [Munmap(size)];
        calls := calls + [CloseFd(fd)];
        fd := -1;
        seg := null;
        size := 0;
        isOpen := false;
      }
    }

    /**
     * `createSharedMemory`: close whatever is open, store the name without
     * its leading '/', size the object for the frame, and on success map a
     * fresh segment whose header holds the dimensions and nothing else.
     */
    method Create(name: string, width: uint32, height: uint32, channels: uint32 := DEFAULT_CHANNELS, os: ShmOs)
      returns (ok: bool, calls: seq<ShmCall>)
      requires Valid() && os.fd >= -1
      modifies this
      ensures Valid()
      ensures this.name == StripSlash(name)
      ensures size == CalculateShmSize(width, height, channels)
      ensures ok <==> os.Succeeds()
      ensures ok ==> isOpen && fresh(seg) && fresh(seg.data) && seg.header == InitialHeader(width, height, channels) && fd == os.fd
      ensures !ok ==> !isOpen && seg == null && fd == -1
      ensures var pre, opening := CloseCalls(old(isOpen), old(size), old(fd)), ShmOpen("/" + StripSlash(name), true);
              var resize := Ftruncate(os.fd, CalculateShmSize(width, height, channels));
              var mapping := Mmap(os.fd, CalculateShmSize(width, height, channels));
              && (os.fd == -1 ==> calls == pre + [opening])
              && (os.fd != -1 && !os.sizeOk ==> calls == pre + [opening, resize, CloseFd(os.fd)])
              && (os.fd != -1 && os.sizeOk && !os.mapOk ==> calls == pre + [opening, resize, mapping, CloseFd(os.fd)])
              && (ok ==> calls == pre + [opening, resize, mapping])
      ensures forall c :: c in calls ==> !c.Unlink?
    {
      calls := Close();
      this.name := StripSlash(name);
      size := CalculateShmSize(width, height, channels);
      calls := calls + [ShmOpen("/" + this.name, true)];
      fd := os.fd;
      if fd == -1 {
        return false, calls;
      }
      calls := calls + [Ftruncate(fd, size)];
      if !os.sizeOk {
        calls := calls + [CloseFd(fd)];
        fd := -1;
        return false, calls;
      }
      calls := calls + [Mmap(fd, size)];
      if !os.mapOk {
        calls := calls + [CloseFd(fd)];
        fd := -1;
        return false, calls;
      }
      seg := new Segment(width, height, channels);
      isOpen := true;
      ok := true;
    }

    /**
     * `openSharedMemory`: close whatever is open, store the name without its
     * leading '/', and on success map `target`, the segment the name refers
     * to, taking its size from the object and leaving its header untouched.
     */
    method Open(name: string, os: ShmOs, target: Segment) returns (ok: bool, calls: seq<ShmCall>)
      requires Valid() && os.fd >= -1 && target.Valid()
      modifies this
      ensures Valid()
      ensures this.name == StripSlash(name)
      ensures ok <==> os.Succeeds()
      ensures ok ==> isOpen && seg == target && fd == os.fd && size == HEADER_SIZE + target.data.Length
      ensures !ok ==> !isOpen && seg == null && fd == -1
      ensures target.header == old(target.header)
      ensures var pre, opening := CloseCalls(old(isOpen), old(size), old(fd)), ShmOpen("/" + StripSlash(name), false);
              var mapping := Mmap(os.fd, HEADER_SIZE + target.data.Length);
              && (os.fd == -1 ==> calls == pre + [opening])
              && (os.fd != -1 && !os.sizeOk ==> calls == pre + [opening, Fstat(os.fd), CloseFd(os.fd)])
              && (os.fd != -1 && os.sizeOk && !os.mapOk ==> calls == pre + [opening, Fstat(os.fd), mapping, CloseFd(os.fd)])
              && (ok ==> calls == pre + [opening, Fstat(os.fd), mapping])
      ensures forall c :: c in calls ==> !c.Unlink?
    {
      calls := Close();
      this.name := StripSlash(name);
      calls := calls + [ShmOpen("/" + this.name, false)];
      fd := os.fd;
      if fd == -1 {
        return false, calls;
      }
      calls := calls + [Fstat(fd)];
      if !os.sizeOk {
        calls := calls + [CloseFd(fd)];
        fd := -1;
        return false, calls;
      }
      size := HEADER_SIZE + target.data.Length;
      calls := calls + [Mmap(fd, size)];
      if !os.mapOk {
        calls := calls + [CloseFd(fd)];
        fd := -1;
        return false, calls;
      }
      seg := target;
      isOpen := true;
      ok := true;
    }

    /**
     * `writeFrame`: with the segment open and the frame's size matching the
     * header, record the frame's metadata, then convert the frame to the
     * header's channel count, copy it into the region and raise the new-frame
     * flag. `cv::cvtColor` throws on an empty frame, after the metadata is
     * recorded and before anything is copied.
     */
    method WriteFrame(frame: Mat, frameIndex: uint32, totalFrames: uint32, fps: Fps, timestamp: uint64)
      returns (status: WriteStatus)
      requires Valid() && frame.Valid()
      modifies if seg != null then {seg, seg.data} else {}
      ensures Valid() && seg == old(seg) && isOpen == old(isOpen) && fd == old(fd) && size == old(size)
      ensures !old(isOpen) ==> status == Refused
      ensures status == Written <==>
                old(isOpen) &&
                frame.cols == AsInt32(old(seg.header.width)) && frame.rows == AsInt32(old(seg.header.height)) &&
                Convertible(frame.channels, old(seg.header.channels)) &&
                (frame.channels == old(seg.header.channels) || !frame.Empty())
      ensures status == ConversionThrew <==>
                old(isOpen) &&
                frame.cols == AsInt32(old(seg.header.width)) && frame.rows == AsInt32(old(seg.header.height)) &&
                Convertible(frame.channels, old(seg.header.channels)) &&
                frame.channels != old(seg.header.channels) && frame.Empty()
      ensures old(isOpen) && (frame.cols != AsInt32(old(seg.header.width)) || frame.rows != AsInt32(old(seg.header.height))) ==>
                seg.header == old(seg.header) && seg.data[..] == old(seg.data[..])
      ensures old(isOpen) && frame.cols == AsInt32(old(seg.header.width)) && frame.rows == AsInt32(old(seg.header.height)) ==>
                seg.header.(isNewFrame := old(seg.header.isNewFrame)) ==
                old(seg.header).(frameIndex := frameIndex, totalFrames := totalFrames, fps := fps, timestamp := timestamp)
      ensures old(isOpen) && status != Written ==>
                seg.header.isNewFrame == old(seg.header.isNewFrame) && seg.data[..] == old(seg.data[..])
      ensures status == Written ==>
                seg.header.isNewFrame &&
                |Converted(frame, seg.header.channels)| >= seg.data.Length &&
                seg.data[..] == Converted(frame, seg.header.channels)[..seg.data.Length]
      ensures status == Written && frame.rows * frame.cols * seg.header.channels < TWO_32 ==>
                seg.data[..] == Converted(frame, seg.header.channels)
    {
      if !isOpen {
        return Refused;
      }
      if frame.cols != AsInt32(seg.header.width) || frame.rows != AsInt32(seg.header.height) {
        return Refused;
      }
      seg.header := seg.header.(frameIndex := frameIndex, totalFrames := totalFrames, fps := fps, timestamp := timestamp);
      if !Convertible(frame.channels, seg.header.channels) {
        return Refused;
      }
      if frame.channels != seg.header.channels && frame.Empty() {
        return ConversionThrew;
      }
      var converted := Converted(frame, seg.header.channels);
      MatchingFrameSize(frame, seg.header);
      seg.CopyIn(converted);
      assert seg.data[..] == converted[..seg.data.Length];
      seg.header := seg.header.(isNewFrame := true);
      assert converted == Converted(frame, seg.header.channels);
      status := Written;
    }

    /**
     * `readFrame`. When waiting, poll until a frame is pending or the stream
     * has ended, sleeping before each re-check and giving up after
     * MAX_ATTEMPTS sleeps; `peer` is what the other process does during each
     * sleep, and `polls` counts the sleeps. An ended stream is reported even
     * when a frame is pending. The region is copied out whole, and only a
     * waiting read clears the new-frame flag.
     */
    method ReadFrame(wait: bool := DEFAULT_WAIT, peer: seq<PeerStep>) returns (status: ReadStatus, ghost polls: nat)
      requires Valid()
      modifies if seg != null then {seg} else {}
      ensures Valid()
      ensures status == NotOpen <==> !old(isOpen)
      ensures !wait ==> polls == 0
      ensures old(isOpen) ==> (polls <= MAX_ATTEMPTS &&
                (forall k :: 0 <= k < polls ==> !Signalled(AfterSleeps(old(seg.header), peer, k))) &&
                (wait && polls < MAX_ATTEMPTS ==> Signalled(AfterSleeps(old(seg.header), peer, polls))))
      ensures status == Timeout <==> old(isOpen) && wait && polls == MAX_ATTEMPTS
      ensures status == EndOfVideo <==>
                old(isOpen) && wait && polls < MAX_ATTEMPTS && AfterSleeps(old(seg.header), peer, polls).isEndOfVideo
      ensures old(isOpen) && status != Timeout && status != EndOfVideo ==>
                (status == UnsupportedChannels <==> old(seg.header.channels) !in {1, 3, 4})
      ensures status.Delivered? ==>
                var seen := AfterSleeps(old(seg.header), peer, polls);
                status.frame == Mat(AsInt32(seen.height), AsInt32(seen.width), seen.channels, seg.data[..]) &&
                |status.frame.data| == DataSize(seen.width, seen.height, seen.channels) &&
                seg.header == (if wait then seen.(isNewFrame := false) else seen)
      ensures old(isOpen) && !status.Delivered? ==> seg.header == AfterSleeps(old(seg.header), peer, polls)
      ensures old(isOpen) ==> seg.data[..] == old(seg.data[..])
    {
      polls := 0;
      if !isOpen {
        return NotOpen, polls;
      }
      ghost var start := seg.header;
      if wait {
        var attempts := 0;
        while !seg.header.isNewFrame && !seg.header.isEndOfVideo && attempts < MAX_ATTEMPTS
          invariant 0 <= attempts <= MAX_ATTEMPTS
          invariant seg.header == AfterSleeps(start, peer, attempts)
          invariant forall k :: 0 <= k < attempts ==> !Signalled(AfterSleeps(start, peer, k))
          invariant Valid() && seg.data[..] == old(seg.data[..])
        {
          seg.header := ApplyStep(seg.header, StepAt(peer, attempts));
          attempts := attempts + 1;
        }
        polls := attempts;
        if attempts >= MAX_ATTEMPTS {
          return Timeout, polls;
        }
        if seg.header.isEndOfVideo {
          return EndOfVideo, polls;
        }
      }
      // After the loop a waiting read has a pending frame, so the source's
      // separate "no new frame" check cannot fire and is not modelled.
      var channels := seg.header.channels;
      if channels != 1 && channels != 3 && channels != 4 {
        return UnsupportedChannels, polls;
      }
      var width, height := seg.header.width, seg.header.height;
      var buffer := seg.data[..];
      if wait {
        seg.header := seg.header.(isNewFrame := false);
      }
      status := Delivered(Mat(AsInt32(height), AsInt32(width), channels, buffer));
    }

    /** `getFrameMetadata`: a copy of the header, or the all-zero header when nothing is mapped. */
    function Metadata(): (h: Header)
      reads this, seg
      requires Valid()
      ensures !isOpen ==> h == ZERO_HEADER
      ensures isOpen ==> h == seg.header
    {
      if isOpen then seg.header else ZERO_HEADER
    }

    /** `signalEndOfVideo`: raise the end flag of the mapped segment, if any; nothing else changes. */
    method SignalEndOfVideo()
      requires Valid()
      modifies if seg != null then {seg} else {}
      ensures Valid()
      ensures isOpen ==> seg.header == old(seg.header).(isEndOfVideo := true)
    {
      if isOpen {
        seg.header := seg.header.(isEndOfVideo := true);
      }
    }
  }

  /**
   * A producer creates a segment sized for the frame, a consumer opens the
   * same segment, the producer writes the frame and the consumer reads it:
   * the consumer receives the frame converted to the segment's channel
   * count, and a second read with no further writes times out.
   */
  method ShareOneFrame(name: string, frame: Mat, channels: uint32,
                       frameIndex: uint32, totalFrames: uint32, fps: Fps, timestamp: uint64,
                       producerOs: ShmOs, consumerOs: ShmOs)
    returns (received: ReadStatus, again: ReadStatus)
    requires frame.Valid() && 0 < frame.rows <= INT_MAX && 0 < frame.cols <= INT_MAX
    requires channels in {1, 3, 4} && Convertible(frame.channels, channels)
    requires frame.rows * frame.cols * channels < TWO_32
    requires producerOs.Succeeds() && producerOs.fd >= 0 && consumerOs.Succeeds() && consumerOs.fd >= 0
    ensures received == Delivered(Mat(frame.rows, frame.cols, channels, Converted(frame, channels)))
    ensures again == Timeout
  {
    var producer := new Handler();
    var consumer := new Handler();
    var created, _ := producer.Create(name, frame.cols, frame.rows, channels, producerOs);
    var attached, _ := consumer.Open(name, consumerOs, producer.seg);
    var written := producer.WriteFrame(frame, frameIndex, totalFrames, fps, timestamp);
    var segment := producer.seg;
    assert written == Written && segment.header.isNewFrame && !segment.header.isEndOfVideo;
    assert segment.data[..] == Converted(frame, channels);

    // The frame is pending, so the first read returns at once and clears the flag.
    ghost var pending := segment.header;
    ghost var polls;
    received, polls := consumer.ReadFrame(true, []);
    assert AfterSleeps(pending, [], 0) == pending;
    assert polls == 0;
    assert received.Delivered?;

    // Nothing else is published: the second read sleeps all its attempts.
    ghost var consumed := segment.header;
    assert consumed == pending.(isNewFrame := false);
    again, polls := consumer.ReadFrame(true, []);
    if polls < MAX_ATTEMPTS {
      IdlePeerChangesNothing(consumed, polls);
    }
  }
}
