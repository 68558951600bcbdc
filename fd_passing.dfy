/**
 * The file-descriptor passing channel (vst::ipc).
 *
 * One message carries an 8-byte body (width then height, each a 32-bit value
 * in host byte order, little-endian on the targets) and one SOL_SOCKET /
 * SCM_RIGHTS control entry holding the descriptor. The socket system calls
 * are not modelled: their outcomes are inputs, and what a setup routine asks
 * of the kernel is returned as a list of calls.
 */
module FdPassing {
  import opened Common

  const SOL_SOCKET: int := 1
  const SCM_RIGHTS: int := 1
  /** `sizeof(sockaddr_un::sun_path)` on Linux. */
  const SUN_PATH_SIZE: nat := 108
  /** The listen backlog of the server socket. */
  const BACKLOG: nat := 1

  // ---------------------------------------------------------------------------
  // The 8-byte body
  // ---------------------------------------------------------------------------

  /** The four bytes of a 32-bit value, least significant first. */
  function Le32(v: uint32): (b: seq<uint8>)
    ensures |b| == 4
  {
    [v % 0x100, (v / 0x100) % 0x100, (v / 0x1_0000) % 0x100, v / 0x100_0000]
  }

  function FromLe32(b: seq<uint8>): uint32
    requires |b| == 4
  {
    var b0, b1, b2, b3: int := b[0], b[1], b[2], b[3];
    b0 + 0x100 * b1 + 0x1_0000 * b2 + 0x100_0000 * b3
  }

  lemma Le32RoundTrip(v: uint32)
    ensures FromLe32(Le32(v)) == v
  {
  }

  lemma FromLe32RoundTrip(b: seq<uint8>)
    requires |b| == 4
    ensures Le32(FromLe32(b)) == b
  {
    var v := FromLe32(b);
    var b0, b1, b2, b3: int := b[0], b[1], b[2], b[3];
    assert v % 0x100 == b0;
    assert v / 0x100 == b1 + 0x100 * b2 + 0x1_0000 * b3;
    assert v / 0x1_0000 == b2 + 0x100 * b3;
    assert v / 0x100_0000 == b3;
  }

  /** `memcpy(buffer, &width, 4); memcpy(buffer + 4, &height, 4)`. */
  function Pack(width: uint32, height: uint32): (b: seq<uint8>)
    ensures |b| == 8
  {
    Le32(width) + Le32(height)
  }

  /** `memcpy(&width, buffer, 4); memcpy(&height, buffer + 4, 4)`. */
  function Unpack(b: seq<uint8>): (uint32, uint32)
    requires |b| == 8
  {
    (FromLe32(b[..4]), FromLe32(b[4..]))
  }

  lemma UnpackPack(width: uint32, height: uint32)
    ensures Unpack(Pack(width, height)) == (width, height)
  {
    var b := Pack(width, height);
    assert b[..4] == Le32(width);
    assert b[4..] == Le32(height);
    Le32RoundTrip(width);
    Le32RoundTrip(height);
  }

  lemma PackUnpack(b: seq<uint8>)
    requires |b| == 8
    ensures Pack(Unpack(b).0, Unpack(b).1) == b
  {
    FromLe32RoundTrip(b[..4]);
    FromLe32RoundTrip(b[4..]);
    assert b == b[..4] + b[4..];
  }

  // ---------------------------------------------------------------------------
  // Messages, send and receive
  // ---------------------------------------------------------------------------

  datatype ControlHeader = ControlHeader(level: int, kind: int, fd: int)

  /** What one `sendmsg` hands to the kernel: the body and the first control entry. */
  datatype Message = Message(body: seq<uint8>, control: Option<ControlHeader>)

  datatype SendOutcome = SendOutcome(rc: int, message: Message)

  /**
   * `send_fd_with_info`: builds the message and reports 0 when `sendmsg`
   * returned a non-negative count (`sendmsgResult`), -1 otherwise.
   */
  function SendFdWithInfo(fdToSend: int, width: uint32, height: uint32, sendmsgResult: int): (r: SendOutcome)
    ensures |r.message.body| == 8 && Unpack(r.message.body) == (width, height)
    ensures r.message.control == Some(ControlHeader(SOL_SOCKET, SCM_RIGHTS, fdToSend))
    ensures r.rc == 0 <==> sendmsgResult >= 0
    ensures r.rc == 0 || r.rc == -1
  {
    UnpackPack(width, height);
    var message := Message(Pack(width, height), Some(ControlHeader(SOL_SOCKET, SCM_RIGHTS, fdToSend)));
    SendOutcome(if sendmsgResult >= 0 then 0 else -1, message)
  }

  /**
   * What one `recvmsg` on the 8-byte buffer yields: failure, or the body bytes
   * this call delivered (at most 8) with the first control entry, if any.
   */
  datatype Incoming = RecvFailed | Received(bytes: seq<uint8>, control: Option<ControlHeader>)

  /**
   * The kernel's delivery of a sent message to a receiver reading 8 bytes:
   * a passed descriptor arrives as the receiver's own duplicate `receiverFd`.
   */
  function Deliver(m: Message, receiverFd: int): (r: Incoming)
    ensures r.Received? && |r.bytes| <= 8
  {
    Received(m.body[..Min(8, |m.body|)],
             match m.control
             case None => None
             case Some(c) => Some(c.(fd := if c.kind == SCM_RIGHTS then receiverFd else c.fd)))
  }

  /**
   * `receive_fd_with_info`. The out-parameters come in as `fdIn`, `widthIn`,
   * `heightIn` and go out as `fd`, `width`, `height`. `stale` is what the
   * 8-byte buffer held before the call (bytes `recvmsg` did not write).
   */
  method ReceiveFdWithInfo(incoming: Incoming, stale: seq<uint8>, fdIn: int, widthIn: uint32, heightIn: uint32)
    returns (rc: int, fd: int, width: uint32, height: uint32)
    requires |stale| == 8
    requires incoming.Received? ==> |incoming.bytes| <= 8
    ensures incoming.RecvFailed? ==> rc == -1 && fd == fdIn && width == widthIn && height == heightIn
    ensures incoming.Received? ==>
              (width, height) == Unpack(incoming.bytes + stale[|incoming.bytes|..])
    ensures rc == 0 <==> incoming.Received? && incoming.control.Some? &&
                         incoming.control.value.level == SOL_SOCKET && incoming.control.value.kind == SCM_RIGHTS
    ensures rc == 0 ==> fd == incoming.control.value.fd
    ensures rc != 0 ==> rc == -1 && fd == fdIn
  {
    rc, fd, width, height := -1, fdIn, widthIn, heightIn;
    if incoming.RecvFailed? {
      return;
    }
    var buffer := incoming.bytes + stale[|incoming.bytes|..];
    width, height := FromLe32(buffer[..4]), FromLe32(buffer[4..]);
    match incoming.control {
      case Some(c) =>
        if c.level == SOL_SOCKET && c.kind == SCM_RIGHTS {
          fd := c.fd;
          rc := 0;
        }
      case None =>
    }
  }

  /**
   * A message sent with `send_fd_with_info` and delivered whole is received
   * with the same width and height and the receiver's duplicate descriptor.
   */
  method SendThenReceive(fdToSend: int, width: uint32, height: uint32, receiverFd: int,
                         stale: seq<uint8>, fdIn: int, widthIn: uint32, heightIn: uint32)
    returns (rc: int, fd: int, gotWidth: uint32, gotHeight: uint32)
    requires |stale| == 8
    ensures rc == 0 && fd == receiverFd && gotWidth == width && gotHeight == height
  {
    var sent := SendFdWithInfo(fdToSend, width, height, 8);
    var incoming := Deliver(sent.message, receiverFd);
    assert incoming.bytes == sent.message.body;
    assert incoming.bytes + stale[8..] == sent.message.body;
    rc, fd, gotWidth, gotHeight := ReceiveFdWithInfo(incoming, stale, fdIn, widthIn, heightIn);
  }

  // ---------------------------------------------------------------------------
  // Socket setup
  // ---------------------------------------------------------------------------

  datatype SockCall =
    | Unlink(path: string)
    | Socket
    | Bind(fd: int, sunPath: string)
    | Listen(fd: int, backlog: nat)
    | Connect(fd: int, sunPath: string)
    | Close(fd: int)

  /** `s.c_str()` as C code reads it: the text before the first NUL. */
  function CString(s: string): (r: string)
    ensures |r| <= |s| && r == s[..|r|]
    ensures forall i :: 0 <= i < |r| ==> r[i] != '\0'
    ensures |r| < |s| ==> s[|r|] == '\0'
  {
    if s == [] || s[0] == '\0' then [] else [s[0]] + CString(s[1..])
  }

  /** `strncpy(addr.sun_path, path.c_str(), sizeof(addr.sun_path) - 1)` into a zeroed address. */
  function SunPath(path: string): (r: string)
    ensures |r| <= SUN_PATH_SIZE - 1 && |r| <= |path| && r == path[..|r|]
    ensures forall i :: 0 <= i < |r| ==> r[i] != '\0'
    ensures |r| < SUN_PATH_SIZE - 1 && |r| < |path| ==> path[|r|] == '\0'
  {
    var c := CString(path);
    c[..Min(|c|, SUN_PATH_SIZE - 1)]
  }

  /**
   * `setup_unix_server_socket`: remove any stale socket file, then socket,
   * bind and listen; `socketResult`, `bindOk`, `listenOk` are the kernel's answers.
   */
  method SetupUnixServerSocket(path: string, socketResult: int, bindOk: bool, listenOk: bool)
    returns (rc: int, calls: seq<SockCall>)
    ensures |calls| >= 2 && calls[0] == Unlink(CString(path)) && calls[1] == Socket
    ensures rc >= 0 <==> socketResult >= 0 && bindOk && listenOk
    ensures rc >= 0 ==> rc == socketResult && calls[2..] == [Bind(rc, SunPath(path)), Listen(rc, BACKLOG)]
    ensures rc < 0 ==> rc == -1
    ensures rc < 0 && socketResult >= 0 ==>
              Bind(socketResult, SunPath(path)) in calls && calls[|calls| - 1] == Close(socketResult)
    ensures rc < 0 && socketResult >= 0 && bindOk ==> Listen(socketResult, BACKLOG) in calls
    ensures rc < 0 && socketResult < 0 ==> calls == [Unlink(CString(path)), Socket]
    ensures rc < 0 && socketResult >= 0 && !bindOk ==>
              calls == [Unlink(CString(path)), Socket, Bind(socketResult, SunPath(path)), Close(socketResult)]
    ensures rc < 0 && socketResult >= 0 && bindOk && !listenOk ==>
              calls == [Unlink(CString(path)), Socket, Bind(socketResult, SunPath(path)),
                        Listen(socketResult, BACKLOG), Close(socketResult)]
  {
    calls := [Unlink(CString(path)), Socket];
    if socketResult < 0 {
      return -1, calls;
    }
    var fd := socketResult;
    calls := calls + [Bind(fd, SunPath(path))];
    if !bindOk {
      return -1, calls + [Close(fd)];
    }
    calls := calls + [Listen(fd, BACKLOG)];
    if !listenOk {
      return -1, calls + [Close(fd)];
    }
    rc := fd;
  }

  /** `connect_unix_client_socket`: socket then connect; a refused connect closes the socket. */
  method ConnectUnixClientSocket(path: string, socketResult: int, connectOk: bool)
    returns (rc: int, calls: seq<SockCall>)
    ensures |calls| >= 1 && calls[0] == Socket
    ensures rc >= 0 <==> socketResult >= 0 && connectOk
    ensures rc >= 0 ==> rc == socketResult && calls == [Socket, Connect(rc, SunPath(path))]
    ensures rc < 0 ==> rc == -1
    ensures rc < 0 && socketResult >= 0 ==>
              calls == [Socket, Connect(socketResult, SunPath(path)), Close(socketResult)]
    ensures socketResult < 0 ==> calls == [Socket]
  {
    calls := [Socket];
    if socketResult < 0 {
      return -1, calls;
    }
    calls := calls + [Connect(socketResult, SunPath(path))];
    if !connectOk {
      return -1, calls + [Close(socketResult)];
    }
    rc := socketResult;
  }
}
