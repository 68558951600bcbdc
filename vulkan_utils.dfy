/**
 * The selection rules of the Vulkan helpers (vst::vulkan_utils), with the
 * device's answers as plain inputs: the memory-type search and the
 * image-layout barrier table. Recording and submitting commands is not modelled.
 */
module VulkanUtils {
  import opened Common

  /** VkMemoryPropertyFlagBits. */
  const MEMORY_DEVICE_LOCAL: bv32 := 0x1
  const MEMORY_HOST_VISIBLE: bv32 := 0x2
  const MEMORY_HOST_COHERENT: bv32 := 0x4
  /** VK_MAX_MEMORY_TYPES: a device reports at most this many memory types. */
  const MAX_MEMORY_TYPES: nat := 32

  /** VkAccessFlagBits. */
  const ACCESS_SHADER_READ: bv32 := 0x20
  const ACCESS_SHADER_WRITE: bv32 := 0x40
  const ACCESS_TRANSFER_WRITE: bv32 := 0x1000

  /** VkPipelineStageFlagBits. */
  const STAGE_TOP_OF_PIPE: bv32 := 0x1
  const STAGE_FRAGMENT_SHADER: bv32 := 0x80
  const STAGE_COMPUTE_SHADER: bv32 := 0x800
  const STAGE_TRANSFER: bv32 := 0x1000
  const STAGE_ALL_COMMANDS: bv32 := 0x1_0000

  /** The exceptions the helpers and their callers throw. */
  datatype VkError =
    | NoSuitableMemoryType
    | UnsupportedLayoutTransition
    | CreateImageFailed
    | AllocateMemoryFailed
    | CreateSamplerFailed
    | CreateImageViewFailed
    | CreateBufferFailed
    | NullData
    | InvalidDimensions
    | NotInitialized
    | FrameSizeMismatch
    | UnsupportedFrameFormat

  /** A Vulkan handle; 0 is VK_NULL_HANDLE. */
  type Handle = nat
  const NULL_HANDLE: Handle := 0
  /** A handle the device hands out on success. */
  type LiveHandle = h: nat | h > 0 witness 1

  /** What releasing one handle field frees: nothing when it is VK_NULL_HANDLE. */
  function Released(h: Handle): (freed: seq<Handle>)
    ensures |freed| <= 1 && (freed == [] <==> h == NULL_HANDLE)
    ensures forall g :: g in freed ==> g == h
  {
    if h == NULL_HANDLE then [] else [h]
  }

  // ---------------------------------------------------------------------------
  // Memory types
  // ---------------------------------------------------------------------------

  /** `typeFilter & (1 << i)`: memory type `i` is allowed by the filter. */
  predicate FilterHas(typeFilter: bv32, i: nat)
    requires i < 32
  {
    typeFilter & (1 as bv32 << i) != 0
  }

  /** Memory type `i` is allowed and carries every requested property flag. */
  predicate Suitable(typeFilter: bv32, memoryTypes: seq<bv32>, properties: bv32, i: nat)
    requires i < |memoryTypes| <= MAX_MEMORY_TYPES
  {
    FilterHas(typeFilter, i) && memoryTypes[i] & properties == properties
  }

  /**
   * `findMemoryType`: the first memory type, in the device's order, that the
   * filter allows and that has all requested properties; an error when none has.
   * `memoryTypes[i]` are the property flags of type `i`.
   */
  method FindMemoryType(typeFilter: bv32, memoryTypes: seq<bv32>, properties: bv32) returns (r: Result<nat, VkError>)
    requires |memoryTypes| <= MAX_MEMORY_TYPES
    ensures r.Ok? ==> r.value < |memoryTypes| && Suitable(typeFilter, memoryTypes, properties, r.value)
    ensures r.Ok? ==> forall j :: 0 <= j < r.value ==> !Suitable(typeFilter, memoryTypes, properties, j)
    ensures r.Err? ==> r.error == NoSuitableMemoryType
    ensures r.Err? <==> forall j :: 0 <= j < |memoryTypes| ==> !Suitable(typeFilter, memoryTypes, properties, j)
    ensures properties == 0 && r.Ok? ==>
              FilterHas(typeFilter, r.value) && forall j :: 0 <= j < r.value ==> !FilterHas(typeFilter, j)
  {
    var i := 0;
    while i < |memoryTypes|
      invariant 0 <= i <= |memoryTypes|
      invariant forall j :: 0 <= j < i ==> !Suitable(typeFilter, memoryTypes, properties, j)
    {
      if FilterHas(typeFilter, i) && memoryTypes[i] & properties == properties {
        assert Suitable(typeFilter, memoryTypes, properties, i);
        if properties == 0 {
          forall j | 0 <= j < i
            ensures !FilterHas(typeFilter, j)
          {
            assert !Suitable(typeFilter, memoryTypes, properties, j);
            assert memoryTypes[j] & properties == properties;
          }
        }
        return Ok(i);
      }
      i := i + 1;
    }
    return Err(NoSuitableMemoryType);
  }

  /** The device's answers to the calls of `createBuffer`; None is a failure. */
  datatype BufferAnswers = BufferAnswers(
    buffer: Option<LiveHandle>,
    memoryTypeBits: bv32,
    memoryTypes: seq<bv32>,
    memory: Option<LiveHandle>)

  /** `createBuffer` can succeed: both objects are created and some allowed type has `properties`. */
  predicate BufferAvailable(dev: BufferAnswers, properties: bv32)
    requires |dev.memoryTypes| <= MAX_MEMORY_TYPES
  {
    dev.buffer.Some? && dev.memory.Some? &&
    exists j :: 0 <= j < |dev.memoryTypes| && Suitable(dev.memoryTypeBits, dev.memoryTypes, properties, j)
  }

  /** A buffer bound to its memory, with the memory type chosen for it. */
  datatype BoundBuffer = BoundBuffer(buffer: LiveHandle, memory: LiveHandle, memoryType: nat, size: uint64)

  /**
   * `createBuffer`: create the buffer, pick the first allowed memory type with
   * all of `properties`, allocate and bind; each failure throws.
   */
  method CreateBuffer(size: uint64, properties: bv32, dev: BufferAnswers) returns (r: Result<BoundBuffer, VkError>)
    requires |dev.memoryTypes| <= MAX_MEMORY_TYPES
    ensures dev.buffer.None? ==> r == Err(CreateBufferFailed)
    ensures r.Ok? ==> dev.buffer == Some(r.value.buffer) && dev.memory == Some(r.value.memory) && r.value.size == size
    ensures r.Ok? ==> r.value.memoryType < |dev.memoryTypes| &&
                      Suitable(dev.memoryTypeBits, dev.memoryTypes, properties, r.value.memoryType) &&
                      forall j :: 0 <= j < r.value.memoryType ==> !Suitable(dev.memoryTypeBits, dev.memoryTypes, properties, j)
    ensures r.Ok? <==> BufferAvailable(dev, properties)
    ensures r.Err? ==> r.error in {CreateBufferFailed, NoSuitableMemoryType, AllocateMemoryFailed}
    ensures dev.buffer.Some? && (forall j :: 0 <= j < |dev.memoryTypes| ==> !Suitable(dev.memoryTypeBits, dev.memoryTypes, properties, j)) ==>
              r == Err(NoSuitableMemoryType)
    ensures dev.buffer.Some? && dev.memory.None? &&
            (exists j :: 0 <= j < |dev.memoryTypes| && Suitable(dev.memoryTypeBits, dev.memoryTypes, properties, j))
            ==> r == Err(AllocateMemoryFailed)
  {
    if dev.buffer.None? {
      return Err(CreateBufferFailed);
    }
    var typeIndex := FindMemoryType(dev.memoryTypeBits, dev.memoryTypes, properties);
    if typeIndex.Err? {
      return Err(NoSuitableMemoryType);
    }
    if dev.memory.None? {
      return Err(AllocateMemoryFailed);
    }
    return Ok(BoundBuffer(dev.buffer.value, dev.memory.value, typeIndex.value, size));
  }

  // ---------------------------------------------------------------------------
  // Image layouts and barriers
  // ---------------------------------------------------------------------------

  /** The VkImageLayout values the textures pass through. */
  datatype Layout = Undefined | General | TransferSrc | TransferDst | ShaderReadOnly | PresentSrc

  /** The access masks and stages of one VkImageMemoryBarrier. */
  datatype Barrier = Barrier(srcAccess: bv32, dstAccess: bv32, srcStage: bv32, dstStage: bv32)

  /** The stage at which an image in `layout` is used. */
  function UseStage(layout: Layout): bv32
  {
    match layout
    case TransferDst | TransferSrc => STAGE_TRANSFER
    case ShaderReadOnly => STAGE_FRAGMENT_SHADER
    case General => STAGE_COMPUTE_SHADER
    case _ => STAGE_TOP_OF_PIPE
  }

  /** The accesses made to an image in `layout` while it is in use. */
  function UseAccess(layout: Layout): bv32
  {
    match layout
    case TransferDst => ACCESS_TRANSFER_WRITE
    case ShaderReadOnly => ACCESS_SHADER_READ
    case General => ACCESS_SHADER_READ | ACCESS_SHADER_WRITE
    case _ => 0
  }

  /** The writes made to an image in `layout` that a later use must wait for. */
  function WriteAccess(layout: Layout): bv32
  {
    match layout
    case TransferDst => ACCESS_TRANSFER_WRITE
    case General => ACCESS_SHADER_WRITE
    case _ => 0
  }

  /**
   * A barrier from `oldLayout` to `newLayout` is tight when it waits for
   * exactly the stage and writes of the old use and blocks exactly the stage
   * and accesses of the new use.
   */
  predicate Tight(b: Barrier, oldLayout: Layout, newLayout: Layout)
  {
    b.srcAccess == WriteAccess(oldLayout) && b.srcStage == UseStage(oldLayout) &&
    b.dstAccess == UseAccess(newLayout) && b.dstStage == UseStage(newLayout)
  }

  /** The two transitions of the upload path that `transitionImageLayout` accepts. */
  predicate UploadTransition(oldLayout: Layout, newLayout: Layout)
  {
    (oldLayout == Undefined && newLayout == TransferDst) ||
    (oldLayout == TransferDst && newLayout == ShaderReadOnly)
  }

  /**
   * The barrier chosen by `vulkan_utils::transitionImageLayout`: the two
   * upload transitions are accepted with a tight barrier, every other pair
   * is rejected with `invalid_argument`.
   */
  function UtilsBarrier(oldLayout: Layout, newLayout: Layout): (r: Result<Barrier, VkError>)
    ensures r.Ok? <==> UploadTransition(oldLayout, newLayout)
    ensures r.Ok? ==> Tight(r.value, oldLayout, newLayout)
    ensures r.Err? ==> r.error == UnsupportedLayoutTransition
  {
    if oldLayout == Undefined && newLayout == TransferDst then
      Ok(Barrier(0, ACCESS_TRANSFER_WRITE, STAGE_TOP_OF_PIPE, STAGE_TRANSFER))
    else if oldLayout == TransferDst && newLayout == ShaderReadOnly then
      Ok(Barrier(ACCESS_TRANSFER_WRITE, ACCESS_SHADER_READ, STAGE_TRANSFER, STAGE_FRAGMENT_SHADER))
    else
      Err(UnsupportedLayoutTransition)
  }

  /**
   * The table as a re-upload into a sampled image needs it: the two upload
   * transitions plus SHADER_READ_ONLY -> TRANSFER_DST, which waits for the
   * fragment-shader reads before the transfer writes.
   */
  function ReuploadBarrier(oldLayout: Layout, newLayout: Layout): (r: Result<Barrier, VkError>)
    ensures r.Ok? <==> UploadTransition(oldLayout, newLayout) || (oldLayout == ShaderReadOnly && newLayout == TransferDst)
    ensures r.Ok? ==> Tight(r.value, oldLayout, newLayout)
    ensures UploadTransition(oldLayout, newLayout) ==> r == UtilsBarrier(oldLayout, newLayout)
  {
    if oldLayout == ShaderReadOnly && newLayout == TransferDst then
      Ok(Barrier(0, ACCESS_TRANSFER_WRITE, STAGE_FRAGMENT_SHADER, STAGE_TRANSFER))
    else
      UtilsBarrier(oldLayout, newLayout)
  }
}
