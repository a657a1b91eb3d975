/** The payload types of inc/DoIPPayloadType.h, and what the receiver takes in. */
module PayloadTypes {
  import opened Options
  import opened Bytes
  import opened Message
  import opened Transport

  datatype DoIPPayloadType =
    | NegativeAck
    | VehicleIdentificationRequest
    | VehicleIdentificationRequestWithEid
    | VehicleIdentificationRequestWithVin
    | VehicleIdentificationResponse
    | RoutingActivationRequest
    | RoutingActivationResponse
    | AliveCheckRequest
    | AliveCheckResponse
    | EntityStatusRequest
    | EntityStatusResponse
    | DiagnosticPowerModeRequest
    | DiagnosticPowerModeResponse
    | DiagnosticMessage
    | DiagnosticMessageAck
    | DiagnosticMessageNegativeAck
    | PeriodicDiagnosticMessage
  {
    function Code(): u16 {
      match this
      case NegativeAck => 0x0000
      case VehicleIdentificationRequest => 0x0001
      case VehicleIdentificationRequestWithEid => 0x0002
      case VehicleIdentificationRequestWithVin => 0x0003
      case VehicleIdentificationResponse => 0x0004
      case RoutingActivationRequest => 0x0005
      case RoutingActivationResponse => 0x0006
      case AliveCheckRequest => 0x0007
      case AliveCheckResponse => 0x0008
      case EntityStatusRequest => 0x4001
      case EntityStatusResponse => 0x4002
      case DiagnosticPowerModeRequest => 0x4003
      case DiagnosticPowerModeResponse => 0x4004
      case DiagnosticMessage => 0x8001
      case DiagnosticMessageAck => 0x8002
      case DiagnosticMessageNegativeAck => 0x8003
      case PeriodicDiagnosticMessage => 0x8004
    }
  }

  /** The code of one of the seventeen types. */
  ghost predicate IsCode(t: u16) {
    exists payloadType: DoIPPayloadType :: payloadType.Code() == t
  }

  /** The switch lists exactly the codes of the enumeration. */
  lemma ValidTypesAreTheCodes(t: u16)
    ensures IsValidPayloadType(t) <==> IsCode(t)
  {
    if IsValidPayloadType(t) {
      var payloadType :=
        if t == 0 then NegativeAck
        else if t == 1 then VehicleIdentificationRequest
        else if t == 2 then VehicleIdentificationRequestWithEid
        else if t == 3 then VehicleIdentificationRequestWithVin
        else if t == 4 then VehicleIdentificationResponse
        else if t == 5 then RoutingActivationRequest
        else if t == 6 then RoutingActivationResponse
        else if t == 7 then AliveCheckRequest
        else if t == 8 then AliveCheckResponse
        else if t == 0x4001 then EntityStatusRequest
        else if t == 0x4002 then EntityStatusResponse
        else if t == 0x4003 then DiagnosticPowerModeRequest
        else if t == 0x4004 then DiagnosticPowerModeResponse
        else if t == 0x8001 then DiagnosticMessage
        else if t == 0x8002 then DiagnosticMessageAck
        else if t == 0x8003 then DiagnosticMessageNegativeAck
        else PeriodicDiagnosticMessage;
      assert payloadType.Code() == t;
    }
  }

  /** A frame with any version byte and any second byte. */
  function Header(version: byte, inverse: byte, t: u16, length: u32): seq<byte> {
    [version, inverse] + U16(t) + U32(length)
  }

  lemma HeaderFields(version: byte, inverse: byte, t: u16, length: u32, rest: seq<byte>)
    ensures var d := Header(version, inverse, t, length) + rest;
      && |d| == 8 + |rest| && d[0] == version && d[1] == inverse
      && ReadU16(d, 2) == t && ReadU32(d, 4) == length && d[8..] == rest
  {
    var head := [version, inverse];
    var d := Header(version, inverse, t, length) + rest;
    assert d == head + U16(t) + (U32(length) + rest);
    ReadBackU16(head, t, U32(length) + rest);
    assert d == (head + U16(t)) + U32(length) + rest;
    ReadBackU32(head + U16(t), length, rest);
  }

  /** Whatever stands in the header and behind it: a message is received exactly if the version is 1 to 4, its
      complement follows, the type is a code of the enumeration, the length is at most 4095 and that many bytes are
      there. */
  lemma ReceivedExactly(version: byte, inverse: byte, t: u16, length: u32, rest: seq<byte>)
    ensures var d := Header(version, inverse, t, length) + rest;
      Receive(d).Some? <==>
        1 <= version <= 4 && inverse == 255 - version && IsCode(t) && length <= 4095 && length <= |rest|
  {
    var d := Header(version, inverse, t, length) + rest;
    HeaderFields(version, inverse, t, length, rest);
    var head := d[..HEADER_SIZE];
    assert ReadU16(head, 2) == ReadU16(d, 2) && ReadU32(head, 4) == ReadU32(d, 4);
    ValidTypesAreTheCodes(t);
  }

  /** The parser has no limit on the length. */
  lemma ParsedExactly(version: byte, inverse: byte, t: u16, length: u32, rest: seq<byte>)
    ensures var d := Header(version, inverse, t, length) + rest;
      TryParse(d).Some? <==>
        1 <= version <= 4 && inverse == 255 - version && IsCode(t) && length <= |rest|
  {
    HeaderFields(version, inverse, t, length, rest);
    ValidTypesAreTheCodes(t);
  }

  lemma WireIsHeader(version: byte, t: u16, payload: seq<byte>, tail: seq<byte>)
    requires |payload| < U32_RANGE
    ensures Wire(version, t, payload) + tail == Header(version, 255 - version, t, |payload|) + (payload + tail)
  {
    assert |payload| % U32_RANGE == |payload|;
    Associative(Header(version, 255 - version, t, |payload|), payload, tail);
  }

  /** For every version from 1 to 4, every payload up to the size of the receive buffer and every tail, the type alone
      decides. */
  lemma TypeDecides(version: byte, t: u16, payload: seq<byte>, tail: seq<byte>)
    requires 1 <= version <= 4 && |payload| <= 4095
    ensures Receive(Wire(version, t, payload) + tail).Some? <==> IsCode(t)
    ensures TryParse(Wire(version, t, payload) + tail).Some? <==> IsCode(t)
  {
    WireIsHeader(version, t, payload, tail);
    ReceivedExactly(version, 255 - version, t, |payload|, payload + tail);
    ParsedExactly(version, 255 - version, t, |payload|, payload + tail);
  }

  // ---------------------------------------------------------------- what a tester sends

  datatype TesterMessage =
    | Activation(client: u16, rest: seq<byte>)
    | Request(client: u16, target: u16, data: seq<byte>)
    | AliveAnswer(client: u16)
  {
    predicate Fits() {
      match this
      case Activation(_, rest) => |rest| <= 4093
      case Request(_, _, data) => |data| <= 4091
      case AliveAnswer(_) => true
    }

    /** Its bytes, by ISO 13400-2. */
    function Bytes(): seq<byte> {
      match this
      case Activation(client, rest) => Header(3, 252, 0x0005, (|rest| + 2) % U32_RANGE) + (U16(client) + rest)
      case Request(client, target, data) =>
        Header(3, 252, 0x8001, (|data| + 4) % U32_RANGE) + (U16(client) + U16(target) + data)
      case AliveAnswer(client) => Header(3, 252, 0x0008, 2) + U16(client)
    }

    /** The message as the server sees it. */
    function Message(): DoIPMessage {
      DoIPMessage(Bytes())
    }
  }

  /** A tester's message is received as it was sent, whatever follows, and shows type, addresses and data. */
  lemma TesterMessageIsReceived(m: TesterMessage, tail: seq<byte>)
    requires m.Fits()
    ensures Receive(m.Bytes() + tail) == Some((m.Message(), tail))
    ensures m.Message().SourceAddress() == Some(m.client)
    ensures match m
      case Activation(_, _) => m.Message().PayloadType() == ROUTING_ACTIVATION_REQUEST
      case Request(_, target, data) =>
        && m.Message().PayloadType() == DIAGNOSTIC_MESSAGE
        && m.Message().TargetAddress() == Some(target) && m.Message().DiagnosticPayload() == data
      case AliveAnswer(_) => m.Message().PayloadType() == ALIVE_CHECK_RESPONSE
  {
    match m {
      case Activation(client, rest) =>
        BuiltIsReceived(ROUTING_ACTIVATION_REQUEST, U16(client) + rest, tail);
        SourceOfBuilt(ROUTING_ACTIVATION_REQUEST, client, rest);
      case Request(client, target, data) =>
        BuiltIsReceived(DIAGNOSTIC_MESSAGE, U16(client) + U16(target) + data, tail);
        DiagnosticRoundTrip(client, target, data);
      case AliveAnswer(client) =>
        BuiltIsReceived(ALIVE_CHECK_RESPONSE, U16(client), tail);
        assert U16(client) + [] == U16(client);
        SourceOfBuilt(ALIVE_CHECK_RESPONSE, client, []);
    }
  }

  lemma BuiltIsReceived(t: u16, payload: seq<byte>, tail: seq<byte>)
    requires IsValidPayloadType(t) && |payload| <= 4095
    ensures Header(3, 252, t, |payload|) + payload == Build(t, payload).data
    ensures Receive(Build(t, payload).data + tail) == Some((Build(t, payload), tail))
    ensures Build(t, payload).PayloadType() == t
  {
    ReceiveOne(Frame(3, t, payload), tail);
    BuiltFields(t, payload);
  }

  /** The four types that carry a source address, and no other. */
  lemma SourceOfBuilt(t: u16, address: u16, rest: seq<byte>)
    ensures Build(t, U16(address) + rest).SourceAddress() ==
      if t == 0x8001 || t == 0x0005 || t == 0x0006 || t == 0x0008 then Some(address) else None
  {
    BuiltFields(t, U16(address) + rest);
    ReadBackU16([], address, rest);
    assert [] + U16(address) + rest == U16(address) + rest;
  }

  /** Fewer than two bytes hold no address, fewer than four no second one. */
  lemma ShortPayloads(t: u16, payload: seq<byte>)
    ensures |payload| < 2 ==> Build(t, payload).SourceAddress() == None
    ensures Build(t, payload).TargetAddress().Some? <==> t == 0x8001 && |payload| >= 4
  {
    BuiltFields(t, payload);
  }

  /** Bytes that are no complete header have the type, payload and addresses of an empty negative acknowledgement. */
  lemma ShortMessages(data: seq<byte>)
    requires |data| < 8
    ensures var m := DoIPMessage(data);
      && m.PayloadType() == 0 && m.Payload() == [] && m.DiagnosticPayload() == []
      && m.SourceAddress() == None && m.TargetAddress() == None && !m.IsValid()
  {
  }

  function TesterBytes(ms: seq<TesterMessage>): seq<byte> {
    if ms == [] then [] else ms[0].Bytes() + TesterBytes(ms[1..])
  }

  function TesterMessages(ms: seq<TesterMessage>): seq<DoIPMessage> {
    if ms == [] then [] else [ms[0].Message()] + TesterMessages(ms[1..])
  }

  /** Any number of them, in order, then what the tail yields. */
  lemma {:induction false} TesterIsReceived(ms: seq<TesterMessage>, tail: seq<byte>)
    requires forall m :: m in ms ==> m.Fits()
    ensures Frames(TesterBytes(ms) + tail) == TesterMessages(ms) + Frames(tail)
  {
    if ms == [] {
      assert [] + tail == tail;
    } else {
      var rest := TesterBytes(ms[1..]) + tail;
      TesterMessageIsReceived(ms[0], rest);
      TesterIsReceived(ms[1..], tail);
      Associative(ms[0].Bytes(), TesterBytes(ms[1..]), tail);
      assert Frames(ms[0].Bytes() + rest) == [ms[0].Message()] + Frames(rest);
      Associative([ms[0].Message()], TesterMessages(ms[1..]), Frames(tail));
    }
  }
}
