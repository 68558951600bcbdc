/**
 * `detect_producer_mode`: classify the resource a producer left behind by
 * its path prefix. The directory scan that finds the resource is not part
 * of this model; its answer is an input.
 */
module ModeProbe {
  import opened Common

  /** A resource a producer published: a POSIX shared-memory object or a DMA-BUF socket. */
  datatype SharedResource = SharedResource(path: string)

  /** Why no mode was detected; each is a `runtime_error` in the source. */
  datatype ProbeError = NoResource | UnknownPath(path: string)

  const SHM_PREFIX: string := "/dev/shm/"
  const DMA_PREFIX: string := "/tmp/"

  /** The prefix rules: shared memory under /dev/shm/, DMA-BUF sockets under /tmp/, nothing else. */
  function Classify(path: string): (r: Result<string, ProbeError>)
    ensures r == Ok("shm") <==> SHM_PREFIX <= path
    ensures r == Ok("dma") <==> !(SHM_PREFIX <= path) && DMA_PREFIX <= path
    ensures r.Err? <==> !(SHM_PREFIX <= path) && !(DMA_PREFIX <= path)
    ensures r.Err? ==> r.error == UnknownPath(path)
  {
    if SHM_PREFIX <= path then Ok("shm")
    else if DMA_PREFIX <= path then Ok("dma")
    else Err(UnknownPath(path))
  }

  /**
   * `detect_producer_mode` as written: the guard rejects every non-empty
   * path, and the empty path matches neither prefix, so no call returns a
   * mode. The optional is dereferenced unchecked, so a resource must exist.
   */
  function DetectProducerModeAsWritten(found: Option<SharedResource>): (r: Result<string, ProbeError>)
    requires found.Some?
    ensures r.Err?
    ensures found.value.path != "" ==> r == Err(NoResource)
    ensures found.value.path == "" ==> r == Err(UnknownPath(""))
  {
    if found.value.path != "" then Err(NoResource)
    else Classify(found.value.path)
  }

  /** `detect_producer_mode` with the presence check the guard was meant to make. */
  function DetectProducerMode(found: Option<SharedResource>): (r: Result<string, ProbeError>)
    ensures found.None? <==> r == Err(NoResource)
    ensures found.Some? ==> r == Classify(found.value.path)
    ensures r.Ok? ==> r.value == "shm" || r.value == "dma"
  {
    if found.None? then Err(NoResource)
    else Classify(found.value.path)
  }

  /** A producer's shared-memory object is found, yet the probe as written reports that nothing was found. */
  lemma ShmResourceRejected()
    ensures DetectProducerModeAsWritten(Some(SharedResource("/dev/shm/vst_shared_texture-4x3"))) == Err(NoResource)
    ensures DetectProducerMode(Some(SharedResource("/dev/shm/vst_shared_texture-4x3"))) == Ok("shm")
  {
    assert SHM_PREFIX <= "/dev/shm/vst_shared_texture-4x3";
  }

  /** Wherever the corrected probe detects a mode, the probe as written fails. */
  lemma AsWrittenNeverAgrees(found: Option<SharedResource>)
    requires found.Some?
    ensures DetectProducerMode(found).Ok? ==> DetectProducerModeAsWritten(found) != DetectProducerMode(found)
  {
  }
}
