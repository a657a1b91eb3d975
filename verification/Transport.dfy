/** src/tp/TcpConnectionTransport.cpp over an adversarial socket. */
module Transport {
  import opened Options
  import opened Bytes
  import opened Message

  const MAXIMUM_MTU: nat := 4095

  // ---------------------------------------------------------------- the socket

  /** What the peer and the kernel have in store for recv: bytes, EAGAIN/EINTR, or a real error.
      An empty chunk, like the end of the script, is recv returning 0. */
  datatype Incoming = Chunk(bytes: seq<byte>) | Again | Broken

  datatype RecvResult = Got(bytes: seq<byte>) | Retry | Failed

  /** recv hands out at most `limit` bytes of the next chunk and keeps the rest for later. */
  function Recv(script: seq<Incoming>, limit: nat): (RecvResult, seq<Incoming>) {
    if script == [] then (Got([]), [])
    else match script[0]
      case Again => (Retry, script[1..])
      case Broken => (Failed, script[1..])
      case Chunk(bytes) =>
        if |bytes| <= limit then (Got(bytes), script[1..])
        else (Got(bytes[..limit]), [Chunk(bytes[limit..])] + script[1..])
  }

  /** The byte stream the peer sent before the first end of file or error. */
  function Available(script: seq<Incoming>): seq<byte> {
    if script == [] then []
    else match script[0]
      case Again => Available(script[1..])
      case Broken => []
      case Chunk(bytes) => if bytes == [] then [] else bytes + Available(script[1..])
  }

  /** Chunking and retries are invisible: only the concatenated bytes count. */
  lemma {:induction false} AvailableIsConcatenation(chunks: seq<seq<byte>>, script: seq<Incoming>, rest: seq<Incoming>)
    requires Delivers(script, chunks)
    ensures Available(script + rest) == Flatten(chunks) + Available(rest)
    decreases |script|
  {
    if script == [] {
      assert script + rest == rest;
    } else {
      assert (script + rest)[1..] == script[1..] + rest;
      match script[0] {
        case Again => AvailableIsConcatenation(chunks, script[1..], rest);
        case Chunk(bytes) =>
          AvailableIsConcatenation(chunks[1..], script[1..], rest);
          assert bytes + (Flatten(chunks[1..]) + Available(rest)) == Flatten(chunks) + Available(rest);
      }
    }
  }

  function Flatten(chunks: seq<seq<byte>>): seq<byte> {
    if chunks == [] then [] else chunks[0] + Flatten(chunks[1..])
  }

  /** The script hands out these non-empty chunks in order, with any number of retries in between. */
  predicate Delivers(script: seq<Incoming>, chunks: seq<seq<byte>>) {
    if script == [] then chunks == []
    else match script[0]
      case Again => Delivers(script[1..], chunks)
      case Broken => false
      case Chunk(bytes) => bytes != [] && chunks != [] && chunks[0] == bytes && Delivers(script[1..], chunks[1..])
  }

  lemma RecvStep(script: seq<Incoming>, limit: nat)
    requires limit > 0
    ensures match Recv(script, limit).0
      case Retry => Available(script) == Available(Recv(script, limit).1) && |Recv(script, limit).1| < |script|
      case Failed => Available(script) == []
      case Got(bytes) =>
        && |bytes| <= limit
        && (bytes == [] ==> Available(script) == [])
        && (bytes != [] ==> Available(script) == bytes + Available(Recv(script, limit).1))
  {
    if script != [] && script[0].Chunk? && |script[0].bytes| > limit {
      SplitChunk(script[0].bytes, limit, script[1..]);
      assert script == [script[0]] + script[1..];
    }
  }

  lemma SplitChunk(bytes: seq<byte>, limit: nat, rest: seq<Incoming>)
    requires 0 < limit < |bytes|
    ensures Available([Chunk(bytes)] + rest) == bytes[..limit] + Available([Chunk(bytes[limit..])] + rest)
  {
    assert ([Chunk(bytes)] + rest)[1..] == rest;
    assert ([Chunk(bytes[limit..])] + rest)[1..] == rest;
    assert bytes == bytes[..limit] + bytes[limit..];
  }

  /** The operating system's end of the connection; the n-th write after `writesLeft` successful ones fails. */
  class Socket {
    var incoming: seq<Incoming>
    var writesLeft: nat
    ghost var written: seq<DoIPMessage>

    constructor (incoming: seq<Incoming>, writesLeft: nat)
      ensures this.incoming == incoming && this.writesLeft == writesLeft && written == []
    {
      this.incoming := incoming;
      this.writesLeft := writesLeft;
      written := [];
    }

    method Receive(limit: nat) returns (r: RecvResult)
      modifies this`incoming
      ensures (r, incoming) == Recv(old(incoming), limit)
    {
      var (result, rest) := Recv(incoming, limit);
      r := result;
      incoming := rest;
    }

    method Write(data: seq<byte>) returns (ok: bool)
      modifies this`writesLeft, this`written
      ensures ok == (old(writesLeft) > 0)
      ensures ok ==> writesLeft == old(writesLeft) - 1 && written == old(written) + [DoIPMessage(data)]
      ensures !ok ==> writesLeft == 0 && written == old(written)
    {
      ok := writesLeft > 0;
      if ok {
        writesLeft := writesLeft - 1;
        written := written + [DoIPMessage(data)];
      }
    }
  }

  // ---------------------------------------------------------------- specification

  /** The sending side: the active flag, the write oracle and everything written so far. */
  datatype Link = Link(active: bool, writesLeft: nat, sent: seq<DoIPMessage>)

  function Send(link: Link, msg: DoIPMessage): Link {
    if !link.active then link
    else if link.writesLeft == 0 then link.(active := false)
    else Link(true, link.writesLeft - 1, link.sent + [msg])
  }

  /** One receiveMessage on a byte stream: the message, if a complete acceptable one is there, and what is left. */
  function Receive(stream: seq<byte>): Option<(DoIPMessage, seq<byte>)> {
    if |stream| < HEADER_SIZE then None else
    match TryParseHeader(stream[..HEADER_SIZE])
    case None => None
    case Some(header) =>
      if header.1 > MAXIMUM_MTU || |stream| < HEADER_SIZE + header.1 then None
      else Some((Build(header.0, stream[HEADER_SIZE..HEADER_SIZE + header.1]), stream[HEADER_SIZE + header.1..]))
  }

  /** Everything that repeated receiveMessage calls return. */
  function Frames(stream: seq<byte>): seq<DoIPMessage>
    decreases |stream|
  {
    match Receive(stream)
    case None => []
    case Some(r) => [r.0] + Frames(r.1)
  }

  // ---------------------------------------------------------------- the class

  class TcpConnectionTransport {
    const socket: Socket
    const receiveBuffer: array<byte>
    var isActive: bool

    ghost predicate Valid() {
      receiveBuffer.Length == MAXIMUM_MTU
    }

    ghost function View(): Link
      reads this, socket
    {
      Link(isActive, socket.writesLeft, socket.written)
    }

    constructor (socket: Socket)
      ensures Valid() && fresh(receiveBuffer) && this.socket == socket && isActive
    {
      this.socket := socket;
      receiveBuffer := new byte[MAXIMUM_MTU];
      isActive := true;
    }

    method SendMessage(msg: DoIPMessage) returns (result: int)
      modifies this`isActive, socket`writesLeft, socket`written
      ensures View() == Send(old(View()), msg)
      ensures result == if socket.written != old(socket.written) then |msg.data| else -1
    {
      if !isActive {
        return -1;
      }
      var ok := socket.Write(msg.data);
      if ok {
        result := |msg.data|;
      } else {
        isActive := false;
        result := -1;
      }
    }

    /** Loops over recv until `length` bytes arrived, the peer closed, or a real error occurred. */
    method ReceiveExactly(buffer: array<byte>, length: nat) returns (total: nat)
      requires length <= buffer.Length
      modifies buffer, socket`incoming
      ensures total == var n := |Available(old(socket.incoming))|; if n < length then n else length
      ensures buffer[..total] == Available(old(socket.incoming))[..total]
      ensures total == length ==> Available(socket.incoming) == Available(old(socket.incoming))[length..]
    {
      ghost var stream := Available(socket.incoming);
      total := 0;
      var remaining := length;
      while remaining > 0
        invariant total + remaining == length
        invariant total <= |stream|
        invariant buffer[..total] == stream[..total]
        invariant Available(socket.incoming) == stream[total..]
        decreases remaining, |socket.incoming|
      {
        RecvStep(socket.incoming, remaining);
        var result := socket.Receive(remaining);
        match result {
          case Retry =>
          case Failed => return;
          case Got(bytes) =>
            if bytes == [] {
              return;
            }
            CopyInto(buffer, total, bytes);
            assert stream[total..][..|bytes|] == bytes;
            assert stream[..total + |bytes|] == stream[..total] + bytes;
            assert stream[total + |bytes|..] == stream[total..][|bytes|..];
            total := total + |bytes|;
            remaining := remaining - |bytes|;
        }
      }
    }

    method ReceiveMessage() returns (msg: Option<DoIPMessage>)
      requires Valid()
      modifies this`isActive, receiveBuffer, socket`incoming
      ensures !old(isActive) ==> msg.None? && !isActive && socket.incoming == old(socket.incoming)
      ensures old(isActive) ==> var r := Receive(Available(old(socket.incoming)));
        && isActive == r.Some?
        && (r.None? ==> msg.None?)
        && (r.Some? ==> msg == Some(r.value.0) && Available(socket.incoming) == r.value.1)
    {
      if !isActive {
        return None;
      }
      ghost var stream := Available(socket.incoming);
      var headerBuffer := new byte[HEADER_SIZE];
      var headerBytes := ReceiveExactly(headerBuffer, HEADER_SIZE);
      if headerBytes != HEADER_SIZE {
        isActive := false;
        return None;
      }
      assert headerBuffer[..] == stream[..HEADER_SIZE];
      var header := TryParseHeader(headerBuffer[..]);
      if header.None? {
        isActive := false;
        return None;
      }
      var (payloadType, payloadLength) := header.value;
      ghost var rest := Available(socket.incoming);
      assert rest == stream[HEADER_SIZE..];
      if payloadLength > 0 {
        if payloadLength > receiveBuffer.Length {
          isActive := false;
          return None;
        }
        var payloadBytes := ReceiveExactly(receiveBuffer, payloadLength);
        if payloadBytes != payloadLength {
          isActive := false;
          return None;
        }
      }
      assert receiveBuffer[..payloadLength] == stream[HEADER_SIZE..HEADER_SIZE + payloadLength];
      assert Available(socket.incoming) == stream[HEADER_SIZE + payloadLength..];
      var built := BuildMessage(payloadType, receiveBuffer[..payloadLength]);
      msg := Some(built);
    }

    method Close()
      modifies this`isActive
      ensures !isActive
    {
      if isActive {
        isActive := false;
      }
    }
  }

  /** recv's write into the caller's buffer. */
  method CopyInto(buffer: array<byte>, offset: nat, bytes: seq<byte>)
    requires offset + |bytes| <= buffer.Length
    modifies buffer
    ensures buffer[..offset + |bytes|] == old(buffer[..offset]) + bytes
  {
    for k := 0 to |bytes|
      invariant buffer[..offset + k] == old(buffer[..offset]) + bytes[..k]
    {
      buffer[offset + k] := bytes[k];
    }
  }

  // ---------------------------------------------------------------- framing is independent of fragmentation

  /** A frame a client may send: any supported version, a known type, at most one receive buffer of payload. */
  datatype Frame = Frame(version: byte, payloadType: u16, payload: seq<byte>) {
    predicate Acceptable() {
      && OLDEST_VERSION <= version <= NEWEST_VERSION
      && IsValidPayloadType(payloadType)
      && |payload| <= MAXIMUM_MTU
    }
    function Bytes(): seq<byte> {
      Wire(version, payloadType, payload)
    }
    /** The message handed on is rebuilt with the server's own version. */
    function Normalised(): DoIPMessage {
      Build(payloadType, payload)
    }
  }

  function Stream(frames: seq<Frame>): seq<byte> {
    if frames == [] then [] else frames[0].Bytes() + Stream(frames[1..])
  }

  function Messages(frames: seq<Frame>): seq<DoIPMessage> {
    if frames == [] then [] else [frames[0].Normalised()] + Messages(frames[1..])
  }

  lemma ReceiveOne(f: Frame, tail: seq<byte>)
    requires f.Acceptable()
    ensures Receive(f.Bytes() + tail) == Some((f.Normalised(), tail))
  {
    var d := f.Bytes() + tail;
    WireHeader(f.version, f.payloadType, f.payload, tail);
    var head := d[..HEADER_SIZE];
    assert ReadU16(head, 2) == ReadU16(d, 2) && ReadU32(head, 4) == ReadU32(d, 4);
    assert TryParseHeader(head) == Some((f.payloadType, |f.payload|));
    assert d[HEADER_SIZE + |f.payload|..] == tail;
  }

  lemma FramesCons(f: Frame, rest: seq<byte>)
    requires f.Acceptable()
    ensures Frames(f.Bytes() + rest) == [f.Normalised()] + Frames(rest)
  {
    ReceiveOne(f, rest);
  }

  lemma FramingStep(f: Frame, bytes: seq<byte>, messages: seq<DoIPMessage>, tail: seq<byte>)
    requires f.Acceptable() && Frames(bytes + tail) == messages + Frames(tail)
    ensures Frames(f.Bytes() + bytes + tail) == [f.Normalised()] + messages + Frames(tail)
  {
    FramesCons(f, bytes + tail);
    Associative(f.Bytes(), bytes, tail);
    Associative([f.Normalised()], messages, Frames(tail));
  }

  /** Whatever the chunking, repeated receiving yields the frames in order and then what the tail yields. */
  lemma {:induction false} FramingRoundTrip(frames: seq<Frame>, tail: seq<byte>)
    requires forall f :: f in frames ==> f.Acceptable()
    ensures Frames(Stream(frames) + tail) == Messages(frames) + Frames(tail)
  {
    if frames == [] {
      assert [] + tail == tail;
    } else {
      FramingRoundTrip(frames[1..], tail);
      FramingStep(frames[0], Stream(frames[1..]), Messages(frames[1..]), tail);
    }
  }

  /** The frame at the head of a stream from which a message can be received. */
  function FirstFrame(stream: seq<byte>): Frame
    requires Receive(stream).Some?
  {
    Frame(stream[0], ReadU16(stream, 2), stream[HEADER_SIZE..HEADER_SIZE + ReadU32(stream, 4)])
  }

  lemma FirstFrameIsPrefix(stream: seq<byte>)
    requires Receive(stream).Some?
    ensures FirstFrame(stream).Acceptable() && FirstFrame(stream).Bytes() <= stream
  {
    var f := FirstFrame(stream);
    var n := ReadU32(stream, 4);
    var head := stream[..HEADER_SIZE];
    assert ReadU16(head, 2) == f.payloadType && ReadU32(head, 4) == n;
    assert TryParseHeader(head).Some?;
    assert |f.payload| == n && n % U32_RANGE == n;
    U32OfRead(stream, 4);
    U16OfRead(stream, 2);
    FourParts(stream, HEADER_SIZE + n);
    assert stream[..2] == [f.version, 0xFF - f.version];
  }

  lemma FourParts(s: seq<byte>, n: nat)
    requires HEADER_SIZE <= n <= |s|
    ensures s[..n] == s[..2] + s[2..4] + s[4..8] + s[8..n]
  {
  }

  /** receiveMessage succeeds exactly on streams that begin with an acceptable frame. */
  lemma ReceiveExact(stream: seq<byte>)
    ensures Receive(stream).Some? <==> exists f: Frame :: f.Acceptable() && f.Bytes() <= stream
  {
    if Receive(stream).Some? {
      FirstFrameIsPrefix(stream);
    }
    if f: Frame :| f.Acceptable() && f.Bytes() <= stream {
      ReceiveOne(f, stream[|f.Bytes()|..]);
      assert stream == f.Bytes() + stream[|f.Bytes()|..];
    }
  }

  /** A truncated frame is not delivered. */
  lemma TruncatedTail(f: Frame, tail: seq<byte>)
    requires f.Acceptable() && tail < f.Bytes()
    ensures Receive(tail).None? && Frames(tail) == []
  {
    ReceiveExact(tail);
    if g: Frame :| g.Acceptable() && g.Bytes() <= tail {
      var rest := f.Bytes()[|g.Bytes()|..];
      assert f.Bytes() == g.Bytes() + rest && f.Bytes() == f.Bytes() + [];
      ReceiveOne(f, []);
      ReceiveOne(g, rest);
      assert false;
    }
  }
}
