# VulkanSharedTextures: a Dafny model of the frame hand-off core

VulkanSharedTextures moves decoded images and video frames from a producer
process to a consumer process on Linux. Frames travel in two ways:

- through a POSIX shared-memory segment: a fixed header followed by one frame of pixels;
- as a DMA-BUF file descriptor passed over a Unix socket with SCM_RIGHTS.

The consumer uploads what it receives into Vulkan textures.

This project models the sequential logic of that hand-off and proves what it promises.

- `ShmVideo`: the shared-memory video mailbox. A `Handler` class maps a `Segment` object, which holds the header record and an `array<uint8>` frame region. Two handlers can share one segment, so a write followed by a read is proved in one program.
  - Creating, opening and closing are modelled, together with what each leaves behind when a system call fails.
  - `WriteFrame` checks in the source's order, writes the metadata first, converts channels pixel by pixel and copies the frame with a loop.
  - `ReadFrame` has the bounded polling loop, which sleeps at most 100 times. While it sleeps, the other process may publish a frame or end the stream.
  - End-of-video signalling and the metadata copy are modelled too.
- `Image`: the part of `cv::Mat` the code relies on, and the two colour conversions it requests (RGBA→RGB and BGR→RGBA), written out byte by byte.
- `FileUtils`: decoding `<prefix>-<W>x<H>[suffix]` resource names with the source's `find_last_of`/`find`/`std::stoi` steps, an encoder, and the round trip between them. Also `getFileName` and `getFileExtension`.
- `FdPassing`: the 8-byte width/height payload and its SCM_RIGHTS control entry.
  - The send/receive round trip.
  - What `receive` does to its out-parameters on each path.
  - The call sequences of the server and client socket setup.
- `FrameQueue`: the latest-wins single slot between the decoder and the renderer.
- `ProducerCli`: the producer's argument loop and its checks.
- `ModeProbe`: `detect_producer_mode`, as written and corrected.
- `VulkanUtils`, `TextureVideo`, `TextureImage`, `DownloadTexture`: the Vulkan selection rules with the device's answers as plain inputs.
  - The memory-type search and buffer creation.
  - The two image-layout barrier tables.
  - The bookkeeping of the two texture classes: sizes, guards, handles, `destroy`.
  - The staging size of a GPU→CPU download.

System calls and Vulkan calls are not executed. Their outcomes are parameters, and what a routine asks of the system is returned as a list of calls.

## Model

| member | source | states |
|---|---|---|
| ShmVideo.DataSize | src/memory/shm_video_handler.cpp:206 | the frame region is `width*height*channels` bytes in 32-bit unsigned arithmetic: exact below 2^32 and never more than the true product |
| ShmVideo.CalculateShmSize | src/memory/shm_video_handler.cpp:408-412 | the segment is the 48-byte header followed by the frame region, so it is always below 48 + 2^32 bytes |
| ShmVideo.InitialHeader | src/memory/shm_video_handler.cpp:82-92 | a new segment's header has the given width, height and channels; the counters, fps and timestamp are zero and both flags are false |
| ShmVideo.StripSlash | src/memory/shm_video_handler.cpp:41-45 | exactly one leading '/' is removed when present; otherwise the name is kept |
| ShmVideo.StripSlashOnce | src/memory/shm_video_handler.cpp:41-45 | "//video" keeps its second slash, and a name without a slash is unchanged |
| ShmVideo.Converted | src/memory/shm_video_handler.cpp:184-203 | a converted frame has rows*cols*headerChannels bytes; with equal channel counts these are the frame's own bytes |
| ShmVideo.AfterSleeps | src/memory/shm_video_handler.cpp:244-254 | the other process's steps during the reader's sleeps never change the header's dimensions |
| ShmVideo.IdlePeerChangesNothing | src/memory/shm_video_handler.cpp:244-254 | when nobody writes, the header after any number of sleeps is the one the reader started with |
| ShmVideo.EndIsSticky | src/memory/shm_video_handler.cpp:398-406 | once the end-of-video flag is set, no modelled step of the other process (publishing a frame, signalling the end) clears it |
| ShmVideo.Segment.constructor | src/memory/shm_video_handler.cpp:77-92 | a created segment has the initial header and a frame region of `DataSize` bytes |
| ShmVideo.Segment.CopyIn | src/memory/shm_video_handler.cpp:206-210 | after the copy, the region holds the first `DataSize` bytes of the source |
| ShmVideo.Handler.constructor | src/memory/shm_video_handler.cpp:18-26 | a new handler is closed, with descriptor -1, size 0 and no segment |
| ShmVideo.CloseCalls | src/memory/shm_video_handler.cpp:360-391 | closing makes calls exactly when the handler is open, and never unlinks or opens |
| ShmVideo.Handler.Close | src/memory/shm_video_handler.cpp:360-391 | when open: unmap, close the descriptor, and leave the handler closed with descriptor -1, size 0 and no segment. When closed: no calls and no change, so a second close does nothing. The name is never unlinked |
| ShmVideo.Handler.Create | src/memory/shm_video_handler.cpp:33-99 | closes first; stores the name without its leading '/'; sizes the object with `CalculateShmSize`; succeeds exactly when shm_open, ftruncate and mmap all succeed, with a fresh segment holding `InitialHeader`; on any failure the handler stays closed with descriptor -1, and the exact call list on each path is the close calls, then shm_open with O_CREAT, then ftruncate and mmap up to the failing one, then close of the new descriptor on a failure after shm_open. It never unlinks |
| ShmVideo.Handler.Open | src/memory/shm_video_handler.cpp:101-156 | closes first; succeeds exactly when shm_open, fstat and mmap succeed; takes the size from the object; maps the named segment without changing its header; on failure stays closed. The exact call list on each path is the close calls, then shm_open, then fstat and mmap up to the failing one, then close of the new descriptor on a failure after shm_open |
| ShmVideo.Handler.WriteFrame | src/memory/shm_video_handler.cpp:158-227 | false when closed. False with nothing changed when cols/rows differ from the header's width/height. Otherwise frameIndex, totalFrames, fps and timestamp are written and nothing else in the header changes; an unsupported channel combination then returns false, and converting an empty frame to another channel count makes `cv::cvtColor` throw; both leave the pixels and the new-frame flag untouched. It succeeds exactly when open, same size, convertible and either the channel counts agree or the frame is not empty, and then the region holds the converted frame (cut to `DataSize`) and the new-frame flag is set |
| ShmVideo.Handler.ReadFrame | src/memory/shm_video_handler.cpp:229-342 | NotOpen exactly when closed. A waiting read sleeps until a flag is seen, `polls` being the first such point, and times out exactly when neither flag is seen in the first 100 checks. It reports end-of-video exactly when the end flag is seen, even with a frame pending. It rejects channel counts other than 1, 3 or 4 without clearing the flag. Otherwise it delivers a height x width matrix of exactly `DataSize` bytes copied from the region, and only a waiting read clears the new-frame flag. The region is never changed |
| ShmVideo.Handler.Metadata | src/memory/shm_video_handler.cpp:345-358 | a copy of the mapped header, or the all-zero header when closed |
| ShmVideo.Handler.SignalEndOfVideo | src/memory/shm_video_handler.cpp:398-406 | when open, sets the end-of-video flag and changes nothing else; when closed, does nothing |
| ShmVideo.ShareOneFrame | src/memory/shm_video_handler.cpp:158-309 | a producer creates a segment, a consumer opens it, and the producer writes a frame. The consumer's waiting read then delivers exactly the frame converted to the segment's channel count, and a second read with no new write times out |
| Image.BgrToRgba | src/memory/shm_video_handler.cpp:190-193 | BGR→RGBA makes 4 bytes per 3-byte pixel |
| Image.RgbaToRgb | src/memory/shm_video_handler.cpp:186-189 | RGBA→RGB makes 3 bytes per 4-byte pixel |
| Image.BgrToRgbaAt | src/memory/shm_video_handler.cpp:190-193 | pixel p of the output is pixel p of the input reversed, followed by alpha 255 |
| Image.RgbaToRgbAt | src/memory/shm_video_handler.cpp:186-189 | pixel p of the output is pixel p of the input without its fourth byte |
| Image.ExpandThenDropSwaps | src/memory/shm_video_handler.cpp:184-203 | converting 3→4→3 swaps the first and third byte of every pixel |
| Image.ExpandThenDropIsNotIdentity | src/memory/shm_video_handler.cpp:184-203 | the pixel [1,2,3] comes back as [3,2,1], so 3→4→3 is not a round trip |
| Image.SwapRedBlueFixed | src/memory/shm_video_handler.cpp:184-203 | 3→4→3 is the identity on a buffer exactly when every pixel's first and third bytes are equal |
| FileUtils.FindLastOf | src/utils/file_utils.cpp:20 | the last index holding one of the characters, or none when no character matches |
| FileUtils.FindFrom | src/utils/file_utils.cpp:21 | the first index at or after `from` holding the character, or none |
| FileUtils.Stoi | src/utils/file_utils.cpp:31-32 | `std::stoi`: a result is an `int`, and it is non-negative when the text has no '-'; it throws `invalid_argument` exactly when no digit follows the leading white space and the optional sign |
| FileUtils.StoiRejectsNonNumbers | src/utils/file_utils.cpp:31-32 | "abc", " ", "+" and "-" make `stoi` throw `invalid_argument` |
| FileUtils.StoiOfDecimal | src/utils/file_utils.cpp:31-32 | the decimal text of n ≤ INT_MAX, followed by anything that does not start with a digit, parses to n |
| FileUtils.DimensionTexts | src/utils/file_utils.cpp:20-29 | no texts exactly when there is no '-' or no 'x' at or after the last '-' |
| FileUtils.ParseSplits | src/utils/file_utils.cpp:20-29 | when both searches succeed, the '-' precedes the 'x' and the texts are the parts between them and after the 'x' |
| FileUtils.SizeFromTexts | src/utils/file_utils.cpp:31-34 | a converted size has channels 0, and a width or height from text without '-' is non-negative |
| FileUtils.SizeFromValidTexts | src/utils/file_utils.cpp:31-34 | two conversions to values in 0..INT_MAX survive the round trip through `uint32_t` unchanged |
| FileUtils.ParseImageDimensions | src/utils/file_utils.cpp:18-35 | a decoded size has channels 0 and a width and height in 0..INT_MAX |
| FileUtils.ParseEncodeRoundTrip | src/utils/file_utils.cpp:18-34 | for any prefix, W, H ≤ INT_MAX and a '-'-free suffix that does not start with a digit, decoding `prefix-WxH suffix` gives (W, H, 0) |
| FileUtils.ParseFormatErrors | src/utils/file_utils.cpp:23-26 | a name with no '-', or with no 'x' after its last '-', is a format error |
| FileUtils.NumberErrorsPropagate | src/utils/file_utils.cpp:28-32 | for any name that splits: a width text `stoi` rejects gives that exception; otherwise a height text it rejects gives that one; in particular a width, or else a height, with no leading digits gives `invalid_argument` |
| FileUtils.EmptyWidthRejected | src/utils/file_utils.cpp:28-32 | an empty width, as in "a-x5", makes `stoi` throw `invalid_argument` |
| FileUtils.TextureNameDecodes | src/utils/file_utils.cpp:18-34 | "vst_shared_texture-4x3" decodes to 4 x 3 although the prefix contains 'x' |
| FileUtils.SocketNameDecodes | src/utils/file_utils.cpp:18-34 | "vulkan_shared_video-WxH.sock" decodes to W x H: the ".sock" suffix is ignored |
| FileUtils.GetFileName | src/utils/file_utils.cpp:37-43 | a suffix of the path with no separator, which is the whole path or follows a '/' or '\\' |
| FileUtils.GetFileExtension | src/utils/file_utils.cpp:45-51 | the text after the last '.': a dot-free suffix of the path that follows a '.' whenever the path has one; "" when the path has no '.' |
| FileUtils.ValueOfDecimal | src/utils/file_utils.cpp:31-32 | the digits the encoder writes for n read back as n |
| FdPassing.Le32 | src/ipc/fd_passing.cpp:69-70 | a 32-bit value is 4 bytes |
| FdPassing.Le32RoundTrip | src/ipc/fd_passing.cpp:69-70 | reading back the 4 bytes of a value gives the value |
| FdPassing.FromLe32RoundTrip | src/ipc/fd_passing.cpp:115-116 | writing out a value read from 4 bytes gives those bytes |
| FdPassing.Pack | src/ipc/fd_passing.cpp:68-70 | the payload is 8 bytes |
| FdPassing.UnpackPack | src/ipc/fd_passing.cpp:68-70 | unpacking a packed payload (bytes 0-3 width, 4-7 height) recovers width and height |
| FdPassing.PackUnpack | src/ipc/fd_passing.cpp:115-116 | packing what was unpacked from 8 bytes gives the same bytes |
| FdPassing.SendFdWithInfo | src/ipc/fd_passing.cpp:66-92 | the message has the packed 8-byte payload and exactly one SOL_SOCKET/SCM_RIGHTS entry carrying the descriptor; the result is 0 exactly when sendmsg returned ≥ 0, otherwise -1 |
| FdPassing.Deliver | src/ipc/fd_passing.cpp:108 | the kernel delivers at most the 8 bytes asked for |
| FdPassing.ReceiveFdWithInfo | src/ipc/fd_passing.cpp:94-126 | a failed recvmsg returns -1 with every out-parameter untouched. Otherwise width and height are always overwritten from the buffer. It returns 0 exactly when the first control entry is SOL_SOCKET/SCM_RIGHTS, and then sets the descriptor from it; any other case returns -1 with the descriptor unchanged |
| FdPassing.SendThenReceive | src/ipc/fd_passing.cpp:66-126 | a sent message delivered whole is received with the same width and height and the receiver's descriptor |
| FdPassing.CString | src/ipc/fd_passing.cpp:24 | the text before the first NUL |
| FdPassing.SunPath | src/ipc/fd_passing.cpp:24 | at most `sizeof(sun_path)-1` = 107 characters of the path are copied, stopping at a NUL |
| FdPassing.SetupUnixServerSocket | src/ipc/fd_passing.cpp:11-41 | unlinks the path first, then creates the socket. On success it binds the truncated path and listens with backlog 1. It returns the socket exactly when socket, bind and listen all succeed. Each failure returns -1 with its exact call list: nothing more after a failed socket, close right after a failed bind (no listen), close right after a failed listen |
| FdPassing.ConnectUnixClientSocket | src/ipc/fd_passing.cpp:43-64 | socket, then connect to the truncated path; returns the socket exactly when both succeed; a refused connect closes the socket and returns -1 |
| FrameQueue.FrameQueue.constructor | src/media/frame_queue.cpp:12-17 | a new queue holds no frame |
| FrameQueue.FrameQueue.Push | src/media/frame_queue.cpp:6-10 | the pushed frame replaces whatever the slot held |
| FrameQueue.FrameQueue.Pop | src/media/frame_queue.cpp:12-18 | returns the slot's content and leaves the slot empty |
| FrameQueue.LatestWins | src/media/frame_queue.cpp:6-18 | on a fresh queue: a pop returns none, then two pushes and a pop return the later frame, and a second pop returns none |
| ProducerCli.ExitCode | src/producer/main.cpp:9-41 | every outcome except running exits with -1 |
| ProducerCli.LastMode | src/producer/main.cpp:16-24 | the mode is "dma" when no "--mode=" argument is given |
| ProducerCli.LastModeIsLast | src/producer/main.cpp:18-24 | the last "--mode=X" argument decides the mode |
| ProducerCli.FirstPath | src/producer/main.cpp:25-28 | the image path is empty exactly when no argument is non-empty and free of a leading "--"; otherwise it is one of the arguments and is such a candidate |
| ProducerCli.FirstPathIsFirst | src/producer/main.cpp:25-28 | the first such candidate becomes the image path; later ones are ignored |
| ProducerCli.EmptyModeFlag | src/producer/main.cpp:18-28 | a bare "--mode=" selects the empty mode; other "--" options and empty arguments are skipped |
| ProducerCli.ParseArgs | src/producer/main.cpp:9-41 | fewer than two argv entries is a usage error. Otherwise a missing image path is reported before the mode is checked, and a mode other than "shm"/"dma" is rejected with that mode. It runs exactly when a path exists and the mode is "shm" or "dma", and then with the last mode and the first path |
| ModeProbe.Classify | src/utils/mode_probe.cpp:21-30 | "/dev/shm/…" gives "shm"; otherwise "/tmp/…" gives "dma"; any other path is an unknown-path error |
| ModeProbe.DetectProducerModeAsWritten | src/utils/mode_probe.cpp:9-31 | never returns a mode: a non-empty path fails the guard, and the empty path matches no prefix |
| ModeProbe.DetectProducerMode | src/utils/mode_probe.cpp:9-31 | no resource is the no-resource error; a found resource is classified by its path; a detected mode is "shm" or "dma" |
| ModeProbe.ShmResourceRejected | src/utils/mode_probe.cpp:13-24 | a found "/dev/shm/vst_shared_texture-4x3" is reported as "no resources found" as written, and as "shm" when corrected |
| ModeProbe.AsWrittenNeverAgrees | src/utils/mode_probe.cpp:13-30 | wherever the corrected probe detects a mode, the probe as written does not |
| VulkanUtils.Released | src/media/texture_video.cpp:336-358 | releasing a handle field frees exactly that handle, or nothing when it is null |
| VulkanUtils.FindMemoryType | src/core/vulkan_utils.cpp:9-23 | the smallest index below the type count whose filter bit is set and whose flags contain the requested ones. It is an error exactly when no index qualifies. With no requested flags it is the lowest set filter bit |
| VulkanUtils.CreateBuffer | src/core/vulkan_utils.cpp:87-113 | fails when the buffer cannot be created. On success the buffer is bound to memory of the first suitable type. It succeeds exactly when buffer, memory type and allocation are all available; with a buffer, no suitable type is `NoSuitableMemoryType`, and a suitable type without memory is `AllocateMemoryFailed` |
| VulkanUtils.UtilsBarrier | src/core/vulkan_utils.cpp:146-168 | accepts exactly UNDEFINED→TRANSFER_DST and TRANSFER_DST→SHADER_READ_ONLY, each with a tight barrier; every other pair is `invalid_argument` |
| VulkanUtils.ReuploadBarrier | src/core/vulkan_utils.cpp:146-168 | the table extended with SHADER_READ_ONLY→TRANSFER_DST: tight barriers, and the same answer as the original on its two pairs |
| TextureVideo.VideoBarrier | src/media/texture_video.cpp:120-161 | the four listed pairs get tight barriers, matching the shared table where both list a pair; any other pair gets the all-commands barrier with no access masks |
| TextureVideo.TablesAgree | src/media/texture_video.cpp:120-161 | where the shared table accepts a pair, the video table chooses the same barrier |
| TextureVideo.StagingSize | src/media/texture_video.cpp:373 | the staging size is `texWidth*texHeight*4`, exact below 2^32 |
| TextureVideo.RgbaOf | src/media/texture_video.cpp:386-400 | an RGBA frame has rows*cols*4 bytes |
| TextureVideo.TextureVideo.constructor | src/media/texture_video.cpp:9-12 | a new texture has null handles and size 0 x 0 |
| TextureVideo.TextureVideo.TransitionImageLayout | src/media/texture_video.cpp:98-174 | records the table's barrier, and the current layout becomes the new layout whatever the pair |
| TextureVideo.TextureVideo.CreateFromSize | src/media/texture_video.cpp:211-313 | records the size first. It succeeds exactly when image, a DEVICE_LOCAL memory type, allocation, sampler and view are all available; otherwise it fails with the first step that is not, and each handle is set exactly when its own creation succeeded, keeping its old value otherwise. On success it ends in SHADER_READ_ONLY through the default barrier |
| TextureVideo.TextureVideo.Destroy | src/media/texture_video.cpp:336-358 | releases exactly the non-null handles, in the order sampler, view, image, memory, and nulls them; the size and layout are kept |
| TextureVideo.DestroyTwice | src/media/texture_video.cpp:336-358 | a second destroy releases nothing |
| TextureVideo.TextureVideo.UpdateFromFrame | src/media/texture_video.cpp:360-415 | an empty frame is skipped and a size mismatch is rejected. A matching frame succeeds exactly when it has 3 or 4 channels; the staging bytes are then its RGBA form, truncated to the 32-bit size |
| TextureImage.TextureImage.constructor | src/media/texture_image.cpp:12-19 | a new texture has null handles and size 0 x 0, so it is not initialised |
| TextureImage.TextureImage.UpdateFromRawDataWith | src/media/texture_image.cpp:21-70 | null data, a non-positive size and a missing image or memory are rejected in that order, before anything is allocated. The copy is exactly the first `width*height*4` bytes, in a buffer of suitable memory. It succeeds exactly when the guards pass, the buffer exists and the table accepts both transitions |
| TextureImage.TextureImage.UpdateFromRawData | src/media/texture_image.cpp:21-70 | as written it never succeeds: once the guards pass and a staging buffer exists, the first transition is rejected as `invalid_argument` |
| TextureImage.TextureImage.UpdateFromRawDataCorrected | src/media/texture_image.cpp:21-70 | with the extended table it succeeds exactly when the guards pass and a staging buffer exists, uploading the first `width*height*4` bytes between two tight barriers |
| TextureImage.TextureImage.Destroy | src/media/texture_image.cpp:72-94 | releases view, image and memory when non-null and nulls them; resets the size to 0 x 0; leaves the sampler as it was |
| TextureImage.DestroyTwice | src/media/texture_image.cpp:72-94 | a second destroy releases nothing and keeps the sampler |
| DownloadTexture.DownloadSize | src/memory/download_texture.cpp:58 | the byte count is `width*height*4` in 32-bit unsigned arithmetic: exact below 2^32, always a multiple of 4 |
| DownloadTexture.DownloadSizeWrapsToZero | src/memory/download_texture.cpp:58 | a 32768 x 32768 image wraps to a zero-byte download |
| DownloadTexture.DownloadImageToCpu | src/memory/download_texture.cpp:49-105 | the staging buffer uses the first allowed HOST_VISIBLE and HOST_COHERENT memory type, and the record's size is `DownloadSize`. It succeeds exactly when buffer, memory type and allocation are available |

## Left out

- Concurrency is not modelled. Each operation is one sequential step: the handler's mutex, its `try_lock` inside `closeSharedMemory`, the atomic `m_isOpen`, the unlock–sleep–relock in `readFrame`, and the queue's mutex are all absent.
- Cross-process visibility of the plain `bool` flags is not modelled. The other process acts only during a reader's sleeps, as a list of steps.
- ShmVideo.Handler.ReadFrame: the other process's steps only set `isNewFrame` or `isEndOfVideo`. Pixels written between the reader's checks are not modelled.
- ShmVideo.Handler.ReadFrame: the read size uses `int` width and height. It is modelled as the writer's 32-bit `DataSize`, which is what the code computes unless `width*height` overflows `int`; that overflow is undefined behaviour in C++.
- ShmVideo.Handler.ReadFrame: the separate "no new frame" check after the polling loop is omitted. A waiting read that reaches it has already seen a flag, so it can never fire.
- ShmVideo.Handler.ReadFrame: reuse of the caller's `cv::Mat` when it already has the right shape is not modelled; a new matrix is returned.
- ShmVideo.Handler.Create: `shm_open` is called without O_EXCL, so a name that already exists is reused, resized and has its header reset in place, which also clears the flags a consumer mapped to it would see. The model always gives `Create` a new segment, so that re-creation is not one of the other process's modelled steps and `ShmVideo.EndIsSticky` does not cover it.
- ShmVideo.Handler.Open: the system call outcomes are inputs, and the caller passes the segment the name refers to. The name-to-segment lookup is not modelled.
- The shared-memory and socket system calls themselves are not modelled: `shm_open`, `ftruncate`, `fstat`, `mmap`, `munmap`, `close`, `socket`, `bind`, `listen`, `connect`, `sendmsg` and `recvmsg`. The kernel's SCM_RIGHTS duplication is the receiver descriptor given to `FdPassing.Deliver`.
- The contents of a resized segment's frame region before the first write are not modelled.
- Every `cv::Mat` has 8-bit depth (CV_8U): one byte per channel. Other depths are not modelled.
- Non-continuous `cv::Mat`s and the row-by-row copy paths are not modelled. Every matrix is continuous, so each copy is one `memcpy`-like loop.
- `fps` is carried as the 64 bits of the `double`, unchanged. No floating-point arithmetic is modelled.
- `HEADER_SIZE` is the 48-byte `sizeof` of the header on x86-64 and AArch64 Linux. It is not derived from a layout computation.
- Vulkan command recording and submission are not modelled: `vkCmdPipelineBarrier`, the buffer-to-image and image-to-buffer copies, queue waits, and freeing the staging buffers. The device's answers to creation and allocation calls are inputs.
- TextureVideo.TextureVideo.UpdateFromFrame: stops at the bytes handed to the staging buffer. A failing `createBuffer` there and the later copy commands are not modelled.
- TextureVideo.TextureVideo.constructor: the texture's header declares no current-layout field, so its initial value is taken to be UNDEFINED.
- TextureImage.TextureImage.UpdateFromRawData: requires `width*height*4` to fit in an `int`, because the source's signed overflow is undefined behaviour. It also requires the data to hold at least that many bytes, because the source reads that many from a raw pointer. The same holds for UpdateFromRawDataCorrected and UpdateFromRawDataWith.
- The static `findMemoryType` duplicate in `download_texture.cpp` (lines 9-19) applies the same rule. It is modelled by `VulkanUtils.FindMemoryType`, which `DownloadTexture.DownloadImageToCpu` uses through `VulkanUtils.CreateBuffer`.
- `getImageSize` is not modelled: it calls the stb image library.
- The directory scan that finds a shared resource (`findSharedResource` and the functions beside it) is not part of this model. Its answer is the input of `ModeProbe.DetectProducerMode`.
- `cleanup_unix_socket` is declared without a definition and is not part of this model.
- The producer after its argument checks is not modelled: the GLFW window and the application loop.
- `readFrame` counts a flag raised during the 100th sleep as a timeout. This is kept as written, since the flag stays set for the next read.

## Findings

| source | as written | input that shows it | evidently intended | confidence | as-written member | corrected member |
|---|---|---|---|---|---|---|
| src/utils/mode_probe.cpp:13-17 | the guard throws "no known resources found" whenever the found path is non-empty, and the empty path matches no prefix, so the function never returns a mode | a found resource at "/dev/shm/vst_shared_texture-4x3" | throw only when no resource was found (the commented-out `has_value` check), then classify the path, giving "shm" here | not executed | ModeProbe.DetectProducerModeAsWritten | ModeProbe.DetectProducerMode |
| src/media/texture_image.cpp:56-58 | the upload asks the shared helper for SHADER_READ_ONLY→TRANSFER_DST, a pair its table rejects (src/core/vulkan_utils.cpp:165-168), so every upload that passes the guards throws `invalid_argument` | an initialised 1 x 1 texture, 4 bytes of data and an available staging buffer | the table also accepts SHADER_READ_ONLY→TRANSFER_DST with a barrier from fragment-shader reads to transfer writes, and the upload succeeds | not executed | TextureImage.TextureImage.UpdateFromRawData | TextureImage.TextureImage.UpdateFromRawDataCorrected |
