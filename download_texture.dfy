/**
 * Reading a GPU image back to the CPU (vst::TextureDownloader): the byte
 * count of the copy and the host-visible staging buffer it goes through.
 * The device's answers and the mapped pointer are inputs; the copy command
 * itself is not modelled.
 */
module DownloadTexture {
  import opened Common
  import opened VulkanUtils

  /** The staging memory must be readable by the CPU without explicit flushes. */
  const READBACK_PROPERTIES: bv32 := MEMORY_HOST_VISIBLE | MEMORY_HOST_COHERENT

  /** `CpuTextureData`: the mapped bytes, the memory and buffer behind them, and their count. */
  datatype CpuTextureData = CpuTextureData(mapped: Handle, memory: LiveHandle, buffer: LiveHandle, size: uint64)

  /** The returned record together with the memory type its staging memory was given. */
  datatype Downloaded = Downloaded(data: CpuTextureData, memoryType: nat)

  /**
   * `width * height * 4` evaluated in 32-bit unsigned arithmetic, as the
   * source does before widening to VkDeviceSize: exact below 4 GiB, wrapped above.
   */
  function DownloadSize(width: uint32, height: uint32): (n: uint32)
    ensures width * height * 4 < TWO_32 ==> n == width * height * 4
    ensures n % 4 == 0
  {
    var pixels := width * height;
    assert (pixels * 4) % TWO_32 == (pixels % 0x4000_0000) * 4;
    Wrap32(pixels * 4)
  }

  /** A 32768 x 32768 image is 4 GiB of RGBA, which wraps to a zero-byte download. */
  lemma DownloadSizeWrapsToZero()
    ensures DownloadSize(32768, 32768) == 0
  {
    assert 32768 * 32768 * 4 == TWO_32;
  }

  /**
   * `downloadImageToCpu`: a TRANSFER_DST buffer of `DownloadSize` bytes in
   * the first allowed host-visible, host-coherent memory type; creating the
   * buffer, finding the type and allocating each throw on failure.
   */
  method DownloadImageToCpu(width: uint32, height: uint32, dev: BufferAnswers, mapped: Handle)
    returns (r: Result<Downloaded, VkError>)
    requires |dev.memoryTypes| <= MAX_MEMORY_TYPES
    ensures r.Ok? <==> BufferAvailable(dev, READBACK_PROPERTIES)
    ensures r.Ok? ==> r.value.data.size == DownloadSize(width, height)
    ensures r.Ok? ==> dev.buffer == Some(r.value.data.buffer) && dev.memory == Some(r.value.data.memory) &&
                      r.value.data.mapped == mapped
    ensures r.Ok? ==> r.value.memoryType < |dev.memoryTypes| &&
                      dev.memoryTypes[r.value.memoryType] & READBACK_PROPERTIES == READBACK_PROPERTIES &&
                      FilterHas(dev.memoryTypeBits, r.value.memoryType)
    ensures r.Ok? ==> forall j :: 0 <= j < r.value.memoryType ==> !Suitable(dev.memoryTypeBits, dev.memoryTypes, READBACK_PROPERTIES, j)
    ensures dev.buffer.None? ==> r == Err(CreateBufferFailed)
    ensures r.Err? ==> r.error in {CreateBufferFailed, NoSuitableMemoryType, AllocateMemoryFailed}
  {
    var imageSize := DownloadSize(width, height);
    var staging := CreateBuffer(imageSize, READBACK_PROPERTIES, dev);
    if staging.Err? {
      return Err(staging.error);
    }
    var b := staging.value;
    return Ok(Downloaded(CpuTextureData(mapped, b.memory, b.buffer, b.size), b.memoryType));
  }
}
