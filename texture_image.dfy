/**
 * The static-image texture (vst::TextureImage): constructor defaults, the
 * guard order and upload steps of `updateFromRawData`, and `destroy`.
 * Vulkan objects are handles (0 is VK_NULL_HANDLE); the device's answers to
 * the staging-buffer calls are inputs, and the raw pixel pointer is an
 * optional byte sequence (None is a null pointer).
 */
module TextureImage {
  import opened Common
  import opened VulkanUtils

  /** The staging buffer must be host-visible and host-coherent. */
  const STAGING_PROPERTIES: bv32 := MEMORY_HOST_VISIBLE | MEMORY_HOST_COHERENT

  /** What one upload does: the staging buffer, the bytes copied into it, and its two barriers. */
  datatype RawUpload = RawUpload(staging: BoundBuffer, bytes: seq<uint8>, toTransfer: Barrier, toSampled: Barrier)

  /** A barrier table: the layout-transition helper an upload relies on. */
  type BarrierTable = (Layout, Layout) -> Result<Barrier, VkError>

  class TextureImage {
    var image: Handle
    var memory: Handle
    var sampler: Handle
    var view: Handle
    var width: int32
    var height: int32

    /** A new texture holds no Vulkan objects and has size 0 x 0, so it is not initialised. */
    constructor ()
      ensures image == NULL_HANDLE && memory == NULL_HANDLE && sampler == NULL_HANDLE && view == NULL_HANDLE
      ensures width == 0 && height == 0
      ensures !IsInitialized()
    {
      image, memory, sampler, view := NULL_HANDLE, NULL_HANDLE, NULL_HANDLE, NULL_HANDLE;
      width, height := 0, 0;
    }

    /** `isInitialized`: the texture has an image. */
    predicate IsInitialized()
      reads this
    {
      image != NULL_HANDLE
    }

    /** The three guards of `updateFromRawData` all pass. */
    predicate Accepts(newData: Option<seq<uint8>>)
      reads this
    {
      newData.Some? && width > 0 && height > 0 && image != NULL_HANDLE && memory != NULL_HANDLE
    }

    /**
     * The steps of `updateFromRawData` with the barrier table as a parameter:
     * null data, a non-positive size and a missing image or memory are
     * rejected in that order before anything is allocated; then a staging
     * buffer of `width * height * 4` bytes receives the data, and the image
     * goes SHADER_READ_ONLY -> TRANSFER_DST -> SHADER_READ_ONLY around the copy.
     */
    method UpdateFromRawDataWith(newData: Option<seq<uint8>>, staging: BufferAnswers, table: BarrierTable)
      returns (r: Result<RawUpload, VkError>)
      requires |staging.memoryTypes| <= MAX_MEMORY_TYPES
      requires width > 0 && height > 0 ==> width * height * 4 <= INT_MAX
      requires Accepts(newData) ==> |newData.value| >= width * height * 4
      ensures newData.None? ==> r == Err(NullData)
      ensures newData.Some? && (width <= 0 || height <= 0) ==> r == Err(InvalidDimensions)
      ensures newData.Some? && width > 0 && height > 0 && (image == NULL_HANDLE || memory == NULL_HANDLE) ==>
                r == Err(NotInitialized)
      ensures Accepts(newData) && !BufferAvailable(staging, STAGING_PROPERTIES) ==> r.Err?
      ensures Accepts(newData) && BufferAvailable(staging, STAGING_PROPERTIES) && table(ShaderReadOnly, TransferDst).Err? ==>
                r == Err(table(ShaderReadOnly, TransferDst).error)
      ensures r.Ok? ==> Accepts(newData) && r.value.bytes == newData.value[..width * height * 4]
      ensures r.Ok? ==> r.value.staging.size == width * height * 4 &&
                        r.value.staging.memoryType < |staging.memoryTypes| &&
                        Suitable(staging.memoryTypeBits, staging.memoryTypes, STAGING_PROPERTIES, r.value.staging.memoryType)
      ensures r.Ok? ==> table(ShaderReadOnly, TransferDst) == Ok(r.value.toTransfer) &&
                        table(TransferDst, ShaderReadOnly) == Ok(r.value.toSampled)
      ensures r.Ok? <==> Accepts(newData) && BufferAvailable(staging, STAGING_PROPERTIES) &&
                         table(ShaderReadOnly, TransferDst).Ok? && table(TransferDst, ShaderReadOnly).Ok?
    {
      if newData.None? {
        return Err(NullData);
      }
      if width <= 0 || height <= 0 {
        return Err(InvalidDimensions);
      }
      if image == NULL_HANDLE || memory == NULL_HANDLE {
        return Err(NotInitialized);
      }
      var imageSize := width * height * 4;
      var buffer := CreateBuffer(imageSize, STAGING_PROPERTIES, staging);
      if buffer.Err? {
        return Err(buffer.error);
      }
      var bytes := newData.value[..imageSize];
      var toTransfer := table(ShaderReadOnly, TransferDst);
      if toTransfer.Err? {
        return Err(toTransfer.error);
      }
      var toSampled := table(TransferDst, ShaderReadOnly);
      if toSampled.Err? {
        return Err(toSampled.error);
      }
      return Ok(RawUpload(buffer.value, bytes, toTransfer.value, toSampled.value));
    }

    /**
     * `updateFromRawData` as written, on the shared helper's table: once the
     * guards pass and the staging buffer exists, the first transition is
     * rejected, so the call never succeeds.
     */
    method UpdateFromRawData(newData: Option<seq<uint8>>, staging: BufferAnswers)
      returns (r: Result<RawUpload, VkError>)
      requires |staging.memoryTypes| <= MAX_MEMORY_TYPES
      requires width > 0 && height > 0 ==> width * height * 4 <= INT_MAX
      requires Accepts(newData) ==> |newData.value| >= width * height * 4
      ensures r.Err?
      ensures newData.None? ==> r == Err(NullData)
      ensures newData.Some? && (width <= 0 || height <= 0) ==> r == Err(InvalidDimensions)
      ensures newData.Some? && width > 0 && height > 0 && (image == NULL_HANDLE || memory == NULL_HANDLE) ==>
                r == Err(NotInitialized)
      ensures Accepts(newData) && BufferAvailable(staging, STAGING_PROPERTIES) ==> r == Err(UnsupportedLayoutTransition)
    {
      r := UpdateFromRawDataWith(newData, staging, UtilsBarrier);
    }

    /**
     * `updateFromRawData` on a table that also accepts SHADER_READ_ONLY ->
     * TRANSFER_DST: whenever the guards pass and the staging buffer exists,
     * the data is uploaded with a tight barrier on each side of the copy.
     */
    method UpdateFromRawDataCorrected(newData: Option<seq<uint8>>, staging: BufferAnswers)
      returns (r: Result<RawUpload, VkError>)
      requires |staging.memoryTypes| <= MAX_MEMORY_TYPES
      requires width > 0 && height > 0 ==> width * height * 4 <= INT_MAX
      requires Accepts(newData) ==> |newData.value| >= width * height * 4
      ensures r.Ok? <==> Accepts(newData) && BufferAvailable(staging, STAGING_PROPERTIES)
      ensures newData.None? ==> r == Err(NullData)
      ensures newData.Some? && (width <= 0 || height <= 0) ==> r == Err(InvalidDimensions)
      ensures newData.Some? && width > 0 && height > 0 && (image == NULL_HANDLE || memory == NULL_HANDLE) ==>
                r == Err(NotInitialized)
      ensures r.Ok? ==> r.value.bytes == newData.value[..width * height * 4] && |r.value.bytes| == width * height * 4
      ensures r.Ok? ==> Tight(r.value.toTransfer, ShaderReadOnly, TransferDst) && Tight(r.value.toSampled, TransferDst, ShaderReadOnly)
    {
      r := UpdateFromRawDataWith(newData, staging, ReuploadBarrier);
    }

    /**
     * `TextureImage::destroy`: releases the view, image and memory (in that
     * order) and nulls them, and resets the size. The sampler is left as it was.
     */
    static method Destroy(texture: TextureImage) returns (released: seq<Handle>)
      modifies texture
      ensures texture.view == NULL_HANDLE && texture.image == NULL_HANDLE && texture.memory == NULL_HANDLE
      ensures texture.width == 0 && texture.height == 0
      ensures texture.sampler == old(texture.sampler)
      ensures released == Released(old(texture.view)) + Released(old(texture.image)) + Released(old(texture.memory))
      ensures !texture.IsInitialized()
    {
      released := [];
      if texture.view != NULL_HANDLE {
        released := released + [texture.view];
        texture.view := NULL_HANDLE;
      }
      if texture.image != NULL_HANDLE {
        released := released + [texture.image];
        texture.image := NULL_HANDLE;
      }
      if texture.memory != NULL_HANDLE {
        released := released + [texture.memory];
        texture.memory := NULL_HANDLE;
      }
      texture.width := 0;
      texture.height := 0;
    }
  }

  /** A second `destroy` releases nothing and leaves the texture as the first left it. */
  method DestroyTwice(texture: TextureImage) returns (first: seq<Handle>, second: seq<Handle>)
    modifies texture
    ensures second == []
    ensures texture.sampler == old(texture.sampler)
  {
    first := TextureImage.Destroy(texture);
    second := TextureImage.Destroy(texture);
  }
}
