/**
 * The video texture (vst::TextureVideo): its own layout-transition table, the
 * bookkeeping of `createFromSize`, `destroy`, and the guards and staging bytes
 * of `updateFromFrame`. Vulkan objects are handles (0 is VK_NULL_HANDLE) and
 * the device's answers are inputs.
 */
module TextureVideo {
  import opened Common
  import opened Image
  import opened VulkanUtils

  /** The barrier of the default branch: no access masks, all commands on both sides. */
  const FULL_BARRIER: Barrier := Barrier(0, 0, STAGE_ALL_COMMANDS, STAGE_ALL_COMMANDS)

  /** The four pairs the video texture's table lists explicitly. */
  predicate VideoTransition(oldLayout: Layout, newLayout: Layout)
  {
    UploadTransition(oldLayout, newLayout) ||
    (oldLayout == Undefined && newLayout == General) ||
    (oldLayout == General && newLayout == ShaderReadOnly)
  }

  /**
   * The barrier chosen by `TextureVideo::transitionImageLayout`: a tight
   * barrier for each listed pair (the same one the shared helper uses where
   * both tables list the pair), and the full barrier for any other pair.
   */
  function VideoBarrier(oldLayout: Layout, newLayout: Layout): (b: Barrier)
    ensures VideoTransition(oldLayout, newLayout) ==> Tight(b, oldLayout, newLayout)
    ensures UploadTransition(oldLayout, newLayout) ==> UtilsBarrier(oldLayout, newLayout) == Ok(b)
    ensures !VideoTransition(oldLayout, newLayout) ==> b == FULL_BARRIER
  {
    if oldLayout == Undefined && newLayout == TransferDst then
      Barrier(0, ACCESS_TRANSFER_WRITE, STAGE_TOP_OF_PIPE, STAGE_TRANSFER)
    else if oldLayout == TransferDst && newLayout == ShaderReadOnly then
      Barrier(ACCESS_TRANSFER_WRITE, ACCESS_SHADER_READ, STAGE_TRANSFER, STAGE_FRAGMENT_SHADER)
    else if oldLayout == Undefined && newLayout == General then
      Barrier(0, ACCESS_SHADER_READ | ACCESS_SHADER_WRITE, STAGE_TOP_OF_PIPE, STAGE_COMPUTE_SHADER)
    else if oldLayout == General && newLayout == ShaderReadOnly then
      Barrier(ACCESS_SHADER_WRITE, ACCESS_SHADER_READ, STAGE_COMPUTE_SHADER, STAGE_FRAGMENT_SHADER)
    else
      FULL_BARRIER
  }

  /** The two tables never disagree: where the shared helper accepts a pair, both pick the same barrier. */
  lemma TablesAgree(oldLayout: Layout, newLayout: Layout)
    ensures UtilsBarrier(oldLayout, newLayout).Ok? ==> UtilsBarrier(oldLayout, newLayout).value == VideoBarrier(oldLayout, newLayout)
    ensures UtilsBarrier(oldLayout, newLayout).Err? && !VideoTransition(oldLayout, newLayout) ==>
              VideoBarrier(oldLayout, newLayout) == FULL_BARRIER
  {
  }

  /** What the device answers to the creation calls of `createFromSize`; None is a failure. */
  datatype DeviceAnswers = DeviceAnswers(
    image: Option<LiveHandle>,
    memoryTypeBits: bv32,
    memoryTypes: seq<bv32>,
    memory: Option<LiveHandle>,
    sampler: Option<LiveHandle>,
    view: Option<LiveHandle>)

  /** Some memory type allowed for the image is DEVICE_LOCAL. */
  predicate DeviceLocalAvailable(dev: DeviceAnswers)
    requires |dev.memoryTypes| <= MAX_MEMORY_TYPES
  {
    exists j :: 0 <= j < |dev.memoryTypes| && Suitable(dev.memoryTypeBits, dev.memoryTypes, MEMORY_DEVICE_LOCAL, j)
  }

  /** What `updateFromFrame` hands to the staging buffer. */
  datatype Upload = Skipped | Staged(bytes: seq<uint8>)

  /** `texWidth * texHeight * 4` in 32-bit unsigned arithmetic. */
  function StagingSize(width: uint32, height: uint32): (n: uint32)
    ensures width * height * 4 < TWO_32 ==> n == width * height * 4
  {
    Wrap32(width * height * 4)
  }

  /** The frame's pixels as RGBA bytes: BGR frames are expanded, RGBA frames taken as they are. */
  function RgbaOf(frame: Mat): (bytes: seq<uint8>)
    requires frame.Valid() && (frame.channels == 3 || frame.channels == 4)
    ensures |bytes| == frame.rows * frame.cols * 4
  {
    var n := frame.rows * frame.cols;
    assert |frame.data| == n * frame.channels;
    if frame.channels == 3 then BgrToRgba(frame.data) else frame.data
  }

  class TextureVideo {
    var image: Handle
    var memory: Handle
    var imageView: Handle
    var sampler: Handle
    var texWidth: uint32
    var texHeight: uint32
    var currentLayout: Layout

    /** A new texture holds no Vulkan objects and has size 0 x 0. */
    constructor ()
      ensures image == NULL_HANDLE && memory == NULL_HANDLE && imageView == NULL_HANDLE && sampler == NULL_HANDLE
      ensures texWidth == 0 && texHeight == 0
      ensures currentLayout == Undefined
    {
      image, memory, imageView, sampler := NULL_HANDLE, NULL_HANDLE, NULL_HANDLE, NULL_HANDLE;
      texWidth, texHeight := 0, 0;
      currentLayout := Undefined;
    }

    /** `transitionImageLayout`: records the table's barrier and the new layout, whatever the pair. */
    method TransitionImageLayout(oldLayout: Layout, newLayout: Layout) returns (barrier: Barrier)
      modifies this
      ensures barrier == VideoBarrier(oldLayout, newLayout)
      ensures currentLayout == newLayout
      ensures image == old(image) && memory == old(memory) && imageView == old(imageView) && sampler == old(sampler)
      ensures texWidth == old(texWidth) && texHeight == old(texHeight)
    {
      barrier := VideoBarrier(oldLayout, newLayout);
      currentLayout := newLayout;
    }

    /**
     * `createFromSize`: records the size first, then creates image, memory
     * (a DEVICE_LOCAL type), sampler and view, stopping at the first failure,
     * and finally moves the image from UNDEFINED to SHADER_READ_ONLY.
     * The result holds the barrier of that final transition.
     */
    method CreateFromSize(width: uint32, height: uint32, dev: DeviceAnswers) returns (r: Result<Barrier, VkError>)
      requires |dev.memoryTypes| <= MAX_MEMORY_TYPES
      modifies this
      ensures texWidth == width && texHeight == height
      ensures r.Ok? <==> dev.image.Some? && DeviceLocalAvailable(dev) && dev.memory.Some? && dev.sampler.Some? && dev.view.Some?
      ensures r == Err(CreateImageFailed) <==> dev.image.None?
      ensures r == Err(NoSuitableMemoryType) <==> dev.image.Some? && !DeviceLocalAvailable(dev)
      ensures r == Err(AllocateMemoryFailed) <==> dev.image.Some? && DeviceLocalAvailable(dev) && dev.memory.None?
      ensures r == Err(CreateSamplerFailed) <==>
                dev.image.Some? && DeviceLocalAvailable(dev) && dev.memory.Some? && dev.sampler.None?
      ensures r == Err(CreateImageViewFailed) <==>
                dev.image.Some? && DeviceLocalAvailable(dev) && dev.memory.Some? && dev.sampler.Some? && dev.view.None?
      // each handle is set once its creation call succeeds and otherwise keeps its old value
      ensures image == if dev.image.Some? then dev.image.value else old(image)
      ensures memory == if r.Ok? || r == Err(CreateSamplerFailed) || r == Err(CreateImageViewFailed)
                        then dev.memory.value else old(memory)
      ensures sampler == if r.Ok? || r == Err(CreateImageViewFailed) then dev.sampler.value else old(sampler)
      ensures imageView == if r.Ok? then dev.view.value else old(imageView)
      ensures currentLayout == if r.Ok? then ShaderReadOnly else old(currentLayout)
      ensures r.Ok? ==> r.value == FULL_BARRIER
    {
      texWidth, texHeight := width, height;
      if dev.image.None? {
        return Err(CreateImageFailed);
      }
      image := dev.image.value;
      var typeIndex := FindMemoryType(dev.memoryTypeBits, dev.memoryTypes, MEMORY_DEVICE_LOCAL);
      if typeIndex.Err? {
        return Err(NoSuitableMemoryType);
      }
      if dev.memory.None? {
        return Err(AllocateMemoryFailed);
      }
      memory := dev.memory.value;
      if dev.sampler.None? {
        return Err(CreateSamplerFailed);
      }
      sampler := dev.sampler.value;
      if dev.view.None? {
        return Err(CreateImageViewFailed);
      }
      imageView := dev.view.value;
      var barrier := TransitionImageLayout(Undefined, ShaderReadOnly);
      currentLayout := ShaderReadOnly;
      return Ok(barrier);
    }

    /**
     * `destroy`: releases each live handle (sampler, view, image, memory, in
     * that order) and nulls it. The size and layout are kept.
     */
    method Destroy() returns (released: seq<Handle>)
      modifies this
      ensures image == NULL_HANDLE && memory == NULL_HANDLE && imageView == NULL_HANDLE && sampler == NULL_HANDLE
      ensures released == Released(old(sampler)) + Released(old(imageView)) + Released(old(image)) + Released(old(memory))
      ensures texWidth == old(texWidth) && texHeight == old(texHeight) && currentLayout == old(currentLayout)
    {
      released := [];
      if sampler != NULL_HANDLE {
        released := released + [sampler];
        sampler := NULL_HANDLE;
      }
      if imageView != NULL_HANDLE {
        released := released + [imageView];
        imageView := NULL_HANDLE;
      }
      if image != NULL_HANDLE {
        released := released + [image];
        image := NULL_HANDLE;
      }
      if memory != NULL_HANDLE {
        released := released + [memory];
        memory := NULL_HANDLE;
      }
    }

    /**
     * `updateFromFrame` up to the staging copy: an empty frame is skipped, a
     * frame of another size is rejected, a 3-channel frame is expanded to
     * RGBA and a 4-channel frame copied, any other channel count is rejected.
     * The staging buffer receives the first `StagingSize` bytes of the RGBA data.
     */
    function UpdateFromFrame(frame: Mat): (r: Result<Upload, VkError>)
      reads this
      requires frame.Valid()
      ensures frame.Empty() ==> r == Ok(Skipped)
      ensures !frame.Empty() && (frame.cols != AsInt32(texWidth) || frame.rows != AsInt32(texHeight)) ==>
                r == Err(FrameSizeMismatch)
      ensures !frame.Empty() && frame.cols == AsInt32(texWidth) && frame.rows == AsInt32(texHeight) ==>
                (r.Err? <==> frame.channels != 3 && frame.channels != 4) &&
                (r.Err? ==> r.error == UnsupportedFrameFormat)
      ensures r.Ok? && r.value.Staged? ==>
                (frame.channels == 3 || frame.channels == 4) &&
                r.value.bytes == RgbaOf(frame)[..StagingSize(texWidth, texHeight)]
      ensures r.Ok? && r.value.Staged? && texWidth * texHeight * 4 < TWO_32 ==> r.value.bytes == RgbaOf(frame)
    {
      if frame.Empty() then Ok(Skipped)
      else if frame.cols != AsInt32(texWidth) || frame.rows != AsInt32(texHeight) then Err(FrameSizeMismatch)
      else if frame.channels != 3 && frame.channels != 4 then Err(UnsupportedFrameFormat)
      else
        var size := StagingSize(texWidth, texHeight);
        assert frame.rows * frame.cols * 4 == texWidth * texHeight * 4;
        Ok(Staged(RgbaOf(frame)[..size]))
    }
  }

  /** A second `destroy` releases nothing. */
  method DestroyTwice(t: TextureVideo) returns (first: seq<Handle>, second: seq<Handle>)
    modifies t
    ensures second == []
    ensures t.image == NULL_HANDLE && t.memory == NULL_HANDLE && t.imageView == NULL_HANDLE && t.sampler == NULL_HANDLE
  {
    first := t.Destroy();
    second := t.Destroy();
  }
}
