/** DoIPMessage: header codec, field getters and factories (inc/DoIPMessage.h). */
module Message {
  import opened Options
  import opened Bytes

  const HEADER_SIZE: nat := 8
  const DIAG_HEADER_SIZE: nat := 12
  const PROTOCOL_VERSION: byte := 3
  const OLDEST_VERSION: byte := 1
  const NEWEST_VERSION: byte := 4

  const NEGATIVE_ACK: u16 := 0x0000
  const VEHICLE_IDENTIFICATION_RESPONSE: u16 := 0x0004
  const ROUTING_ACTIVATION_REQUEST: u16 := 0x0005
  const ROUTING_ACTIVATION_RESPONSE: u16 := 0x0006
  const ALIVE_CHECK_REQUEST: u16 := 0x0007
  const ALIVE_CHECK_RESPONSE: u16 := 0x0008
  const DIAGNOSTIC_MESSAGE: u16 := 0x8001
  const DIAGNOSTIC_MESSAGE_ACK: u16 := 0x8002
  const DIAGNOSTIC_MESSAGE_NEGATIVE_ACK: u16 := 0x8003

  predicate IsValidPayloadType(t: u16) {
    t <= 0x0008 || 0x4001 <= t <= 0x4004 || 0x8001 <= t <= 0x8004
  }

  predicate IsVersionPair(version: byte, inverse: byte) {
    OLDEST_VERSION <= version <= NEWEST_VERSION && version + inverse == 0xFF
  }

  /** The message is its bytes, header included; any byte sequence is representable. */
  datatype DoIPMessage = DoIPMessage(data: seq<byte>) {
    function PayloadType(): u16 {
      if |data| < HEADER_SIZE then NEGATIVE_ACK else ReadU16(data, 2)
    }

    function Payload(): seq<byte> {
      if |data| <= HEADER_SIZE then [] else data[HEADER_SIZE..]
    }

    function DiagnosticPayload(): seq<byte> {
      if |data| <= DIAG_HEADER_SIZE then [] else data[DIAG_HEADER_SIZE..]
    }

    predicate HasSourceAddress() {
      && (|| PayloadType() == DIAGNOSTIC_MESSAGE
          || PayloadType() == ROUTING_ACTIVATION_REQUEST
          || PayloadType() == ROUTING_ACTIVATION_RESPONSE
          || PayloadType() == ALIVE_CHECK_RESPONSE)
      && |Payload()| >= 2
    }

    function SourceAddress(): Option<u16> {
      if HasSourceAddress() then Some(ReadU16(Payload(), 0)) else None
    }

    function TargetAddress(): Option<u16> {
      if PayloadType() == DIAGNOSTIC_MESSAGE && |Payload()| >= 4 then Some(ReadU16(Payload(), 2)) else None
    }

    /** The length announced by the header equals the number of bytes that follow it. */
    predicate IsValid() {
      && |data| >= HEADER_SIZE
      && IsVersionPair(data[0], data[1])
      && |data| - HEADER_SIZE == ReadU32(data, 4)
    }
  }

  function TryParseHeader(data: seq<byte>): Option<(u16, u32)> {
    if |data| < HEADER_SIZE || !IsVersionPair(data[0], data[1]) || !IsValidPayloadType(ReadU16(data, 2)) then
      None
    else
      Some((ReadU16(data, 2), ReadU32(data, 4)))
  }

  function TryParse(data: seq<byte>): Option<DoIPMessage> {
    match TryParseHeader(data)
    case None => None
    case Some(header) =>
      if |data| < HEADER_SIZE + header.1 then None else Some(DoIPMessage(data[..HEADER_SIZE + header.1]))
  }

  /** The bytes on the wire; the length field is the payload size cast to 32 bits. */
  function Wire(version: byte, payloadType: u16, payload: seq<byte>): seq<byte> {
    [version, 0xFF - version] + U16(payloadType) + U32(|payload| % U32_RANGE) + payload
  }

  function Build(payloadType: u16, payload: seq<byte>): DoIPMessage {
    DoIPMessage(Wire(PROTOCOL_VERSION, payloadType, payload))
  }

  /** buildMessage fills the buffer field by field. */
  method BuildMessage(payloadType: u16, payload: seq<byte>) returns (msg: DoIPMessage)
    ensures msg == Build(payloadType, payload)
  {
    var buffer := new ByteArray();
    buffer.PushBack(PROTOCOL_VERSION);
    buffer.PushBack(0xFF - PROTOCOL_VERSION);
    buffer.WriteU16BE(payloadType);
    buffer.WriteU32BE(|payload| % U32_RANGE);
    buffer.Insert(payload);
    msg := DoIPMessage(buffer.data);
  }

  // ---------------------------------------------------------------- codec laws

  lemma WireHeader(version: byte, t: u16, payload: seq<byte>, trailing: seq<byte>)
    ensures var d := Wire(version, t, payload) + trailing;
      && |d| == HEADER_SIZE + |payload| + |trailing|
      && d[0] == version && d[1] == 0xFF - version
      && ReadU16(d, 2) == t
      && ReadU32(d, 4) == |payload| % U32_RANGE
      && d[..HEADER_SIZE + |payload|] == Wire(version, t, payload)
      && d[HEADER_SIZE..HEADER_SIZE + |payload|] == payload
  {
    var head := [version, 0xFF - version];
    var size := |payload| % U32_RANGE;
    var d := Wire(version, t, payload) + trailing;
    assert d == head + U16(t) + (U32(size) + payload + trailing);
    ReadBackU16(head, t, U32(size) + payload + trailing);
    assert d == (head + U16(t)) + U32(size) + (payload + trailing);
    ReadBackU32(head + U16(t), size, payload + trailing);
  }

  lemma BuiltFields(t: u16, payload: seq<byte>)
    ensures Build(t, payload).PayloadType() == t
    ensures Build(t, payload).Payload() == payload
    ensures Build(t, payload).DiagnosticPayload() == if |payload| <= 4 then [] else payload[4..]
    ensures Build(t, payload).IsValid() <==> |payload| < U32_RANGE
  {
    WireHeader(PROTOCOL_VERSION, t, payload, []);
    var d := Wire(PROTOCOL_VERSION, t, payload);
    assert d + [] == d;
    assert d[HEADER_SIZE..] == payload;
    if |payload| > 4 {
      assert d[DIAG_HEADER_SIZE..] == d[HEADER_SIZE..][4..];
    }
  }

  /** Parsing undoes building, whatever follows, exactly for payloads whose size fits the 32-bit length field. */
  lemma ParseOfBuilt(t: u16, payload: seq<byte>, trailing: seq<byte>)
    requires IsValidPayloadType(t)
    ensures TryParse(Build(t, payload).data + trailing) == Some(Build(t, payload)) <==> |payload| < U32_RANGE
  {
    WireHeader(PROTOCOL_VERSION, t, payload, trailing);
    var d := Build(t, payload).data + trailing;
    assert TryParseHeader(d) == Some((t, |payload| % U32_RANGE));
    if |payload| >= U32_RANGE {
      assert |TryParse(d).value.data| < |Build(t, payload).data|;
    }
  }

  predicate ValidFrame(m: DoIPMessage) {
    m.IsValid() && IsValidPayloadType(m.PayloadType())
  }

  /** The parser accepts exactly the inputs that start with a valid frame, and returns that frame. */
  lemma ParseExact(d: seq<byte>, m: DoIPMessage)
    ensures TryParse(d) == Some(m) <==> ValidFrame(m) && m.data <= d
  {
    if ValidFrame(m) && m.data <= d {
      assert forall i | 0 <= i < HEADER_SIZE :: d[i] == m.data[i];
      assert ReadU16(d, 2) == ReadU16(m.data, 2) && ReadU32(d, 4) == ReadU32(m.data, 4);
      assert d[..|m.data|] == m.data;
    }
    if TryParse(d) == Some(m) {
      assert m.data == d[..HEADER_SIZE + ReadU32(d, 4)];
      assert forall i | 0 <= i < HEADER_SIZE :: d[i] == m.data[i];
      assert ReadU16(d, 2) == ReadU16(m.data, 2) && ReadU32(d, 4) == ReadU32(m.data, 4);
    }
  }

  /** No valid message is a proper prefix of another one. */
  lemma PrefixFree(a: DoIPMessage, b: DoIPMessage)
    requires a.IsValid() && b.IsValid() && a.data <= b.data
    ensures a == b
  {
    assert forall i | 0 <= i < HEADER_SIZE :: a.data[i] == b.data[i];
    assert ReadU32(a.data, 4) == ReadU32(b.data, 4);
    assert a.data == b.data[..|a.data|];
  }

  // ---------------------------------------------------------------- selections

  /** The messages of the given types, in order. */
  function OfTypes(ms: seq<DoIPMessage>, types: set<u16>): seq<DoIPMessage> {
    if ms == [] then []
    else
      var m := ms[|ms| - 1];
      OfTypes(ms[..|ms| - 1], types) + (if m.PayloadType() in types then [m] else [])
  }

  lemma OfTypesSnoc(ms: seq<DoIPMessage>, m: DoIPMessage, types: set<u16>)
    ensures OfTypes(ms + [m], types) == OfTypes(ms, types) + (if m.PayloadType() in types then [m] else [])
  {
    assert (ms + [m])[..|ms|] == ms;
  }

  lemma {:induction false} OfTypesOfPrefix(ms: seq<DoIPMessage>, ns: seq<DoIPMessage>, types: set<u16>)
    requires ms <= ns
    ensures OfTypes(ms, types) <= OfTypes(ns, types)
  {
    if |ms| < |ns| {
      OfTypesOfPrefix(ms, ns[..|ns| - 1], types);
    } else {
      assert ms == ns;
    }
  }

  // ---------------------------------------------------------------- factories

  datatype NegativeDiagnosticAck =
    | InvalidSourceAddress
    | UnknownTargetAddress
    | DiagnosticMessageTooLarge
    | OutOfMemory
    | TargetUnreachable
    | UnknownNetwork
    | TransportProtocolError
    | TargetBusy
  {
    function Code(): byte {
      match this
      case InvalidSourceAddress => 2
      case UnknownTargetAddress => 3
      case DiagnosticMessageTooLarge => 4
      case OutOfMemory => 5
      case TargetUnreachable => 6
      case UnknownNetwork => 7
      case TransportProtocolError => 8
      case TargetBusy => 9
    }
  }

  /** None is the positive acknowledgement. */
  type DiagnosticAck = Option<NegativeDiagnosticAck>

  const ROUTE_ACTIVATED: byte := 0x10

  function MakeDiagnosticMessage(sa: u16, ta: u16, payload: seq<byte>): DoIPMessage {
    Build(DIAGNOSTIC_MESSAGE, U16(sa) + U16(ta) + payload)
  }

  function MakeDiagnosticResponse(sa: u16, ta: u16, ack: DiagnosticAck): DoIPMessage {
    match ack
    case None => Build(DIAGNOSTIC_MESSAGE_ACK, U16(sa) + U16(ta) + [0])
    case Some(nack) => Build(DIAGNOSTIC_MESSAGE_NEGATIVE_ACK, U16(sa) + U16(ta) + [nack.Code()])
  }

  function MakeAliveCheckRequest(): DoIPMessage {
    Build(ALIVE_CHECK_REQUEST, [])
  }

  function MakeRoutingActivationResponse(client: u16, server: u16, code: byte): DoIPMessage {
    Build(ROUTING_ACTIVATION_RESPONSE, U16(client) + U16(server) + [code] + [0, 0, 0, 0])
  }

  /** The factories fill a payload buffer step by step. */
  method DiagnosticMessage(sa: u16, ta: u16, userData: seq<byte>) returns (msg: DoIPMessage)
    ensures msg == MakeDiagnosticMessage(sa, ta, userData)
  {
    var payload := new ByteArray();
    payload.WriteU16BE(sa);
    payload.WriteU16BE(ta);
    payload.Insert(userData);
    msg := BuildMessage(DIAGNOSTIC_MESSAGE, payload.data);
  }

  /** The acknowledged message may be quoted behind the code; the connection never does. */
  method DiagnosticPositiveResponse(sa: u16, ta: u16, quoted: seq<byte>) returns (msg: DoIPMessage)
    ensures msg == Build(DIAGNOSTIC_MESSAGE_ACK, U16(sa) + U16(ta) + [0] + quoted)
    ensures quoted == [] ==> msg == MakeDiagnosticResponse(sa, ta, None)
  {
    var payload := new ByteArray();
    payload.WriteU16BE(sa);
    payload.WriteU16BE(ta);
    payload.PushBack(0);
    payload.Insert(quoted);
    assert quoted == [] ==> payload.data == U16(sa) + U16(ta) + [0];
    msg := BuildMessage(DIAGNOSTIC_MESSAGE_ACK, payload.data);
  }

  method DiagnosticNegativeResponse(sa: u16, ta: u16, nack: NegativeDiagnosticAck, quoted: seq<byte>)
      returns (msg: DoIPMessage)
    ensures msg == Build(DIAGNOSTIC_MESSAGE_NEGATIVE_ACK, U16(sa) + U16(ta) + [nack.Code()] + quoted)
    ensures quoted == [] ==> msg == MakeDiagnosticResponse(sa, ta, Some(nack))
  {
    var payload := new ByteArray();
    payload.WriteU16BE(sa);
    payload.WriteU16BE(ta);
    payload.PushBack(nack.Code());
    payload.Insert(quoted);
    assert quoted == [] ==> payload.data == U16(sa) + U16(ta) + [nack.Code()];
    msg := BuildMessage(DIAGNOSTIC_MESSAGE_NEGATIVE_ACK, payload.data);
  }

  method RoutingActivationResponse(client: u16, server: u16, code: byte) returns (msg: DoIPMessage)
    ensures msg == MakeRoutingActivationResponse(client, server, code)
  {
    var payload := new ByteArray();
    payload.WriteU16BE(client);
    payload.WriteU16BE(server);
    payload.PushBack(code);
    payload.Insert([0, 0, 0, 0]);
    msg := BuildMessage(ROUTING_ACTIVATION_RESPONSE, payload.data);
  }

  /** The receiver of a diagnostic message reads back both addresses and the user data. */
  lemma DiagnosticRoundTrip(sa: u16, ta: u16, payload: seq<byte>)
    ensures var m := MakeDiagnosticMessage(sa, ta, payload);
      && m.PayloadType() == DIAGNOSTIC_MESSAGE
      && m.SourceAddress() == Some(sa)
      && m.TargetAddress() == Some(ta)
      && m.DiagnosticPayload() == payload
  {
    var body := U16(sa) + U16(ta) + payload;
    BuiltFields(DIAGNOSTIC_MESSAGE, body);
    ReadBackAddresses(sa, ta, payload);
  }

  lemma ReadBackAddresses(sa: u16, ta: u16, rest: seq<byte>)
    ensures var body := U16(sa) + U16(ta) + rest;
      && |body| == 4 + |rest| && body[4..] == rest
      && ReadU16(body, 0) == sa && ReadU16(body, 2) == ta
  {
    ReadBackU16([], sa, U16(ta) + rest);
    assert U16(sa) + U16(ta) + rest == [] + U16(sa) + (U16(ta) + rest);
    ReadBackU16(U16(sa), ta, rest);
  }

  /** The tester reads back for whom, by whom and with which result its route was activated. */
  lemma RoutingActivationRoundTrip(client: u16, server: u16, code: byte)
    ensures var m := MakeRoutingActivationResponse(client, server, code);
      && m.PayloadType() == ROUTING_ACTIVATION_RESPONSE
      && m.SourceAddress() == Some(client)
      && |m.Payload()| == 9
      && ReadU16(m.Payload(), 2) == server
      && m.Payload()[4..] == [code, 0, 0, 0, 0]
  {
    var body := U16(client) + U16(server) + [code] + [0, 0, 0, 0];
    BuiltFields(ROUTING_ACTIVATION_RESPONSE, body);
    ReadBackAddresses(client, server, [code] + [0, 0, 0, 0]);
    assert body == U16(client) + U16(server) + ([code] + [0, 0, 0, 0]);
  }

  /** The verdict survives the wire: two acknowledgements are the same bytes only if they say the same thing. */
  lemma DiagnosticResponseInjective(sa: u16, ta: u16, a: DiagnosticAck, sa': u16, ta': u16, b: DiagnosticAck)
    requires MakeDiagnosticResponse(sa, ta, a) == MakeDiagnosticResponse(sa', ta', b)
    ensures sa == sa' && ta == ta' && a == b
  {
    AckFields(sa, ta, a);
    AckFields(sa', ta', b);
  }

  lemma AckFields(sa: u16, ta: u16, ack: DiagnosticAck)
    ensures var m := MakeDiagnosticResponse(sa, ta, ack);
      && m.PayloadType() == (if ack.None? then DIAGNOSTIC_MESSAGE_ACK else DIAGNOSTIC_MESSAGE_NEGATIVE_ACK)
      && |m.Payload()| == 5
      && ReadU16(m.Payload(), 0) == sa && ReadU16(m.Payload(), 2) == ta
      && m.Payload()[4] == if ack.None? then 0 else ack.value.Code()
  {
    var code := if ack.None? then 0 else ack.value.Code();
    BuiltFields(DIAGNOSTIC_MESSAGE_ACK, U16(sa) + U16(ta) + [code]);
    BuiltFields(DIAGNOSTIC_MESSAGE_NEGATIVE_ACK, U16(sa) + U16(ta) + [code]);
    ReadBackAddresses(sa, ta, [code]);
  }
}
