/** The UDS responder behind the gateway: src/uds/UdsMock.cpp, inc/uds/UdsMock.h, inc/uds/UdsServices.h. */
module Uds {
  import opened Options
  import opened Bytes

  const OK: byte := 0x00
  const SERVICE_NOT_SUPPORTED: byte := 0x11
  const INCORRECT_LENGTH: byte := 0x13
  const GENERAL_PROGRAMMING_FAILURE: byte := 0x72
  const NEGATIVE_RESPONSE: byte := 0x7F
  const POSITIVE_RESPONSE_OFFSET: byte := 0x40
  const MAX_LENGTH: nat := 4095

  datatype ServiceDescriptor =
    ServiceDescriptor(minReqLength: nat, maxReqLength: nat, minRspLength: nat, maxRspLength: nat)
  {
    predicate AcceptsRequest(n: nat) {
      minReqLength <= n <= maxReqLength
    }
    predicate AcceptsResponse(n: nat) {
      minRspLength <= n <= maxRspLength
    }
  }

  /** UDS_SERVICE_DESCRIPTORS and its lookup. */
  function FindServiceDescriptor(sid: byte): Option<ServiceDescriptor> {
    match sid
    case 0x10 => Some(ServiceDescriptor(2, 2, 6, 6))
    case 0x11 => Some(ServiceDescriptor(2, 2, 2, 2))
    case 0x27 => Some(ServiceDescriptor(2, MAX_LENGTH, 3, MAX_LENGTH))
    case 0x28 => Some(ServiceDescriptor(2, MAX_LENGTH, 3, MAX_LENGTH))
    case 0x3E => Some(ServiceDescriptor(2, 2, 2, 2))
    case 0x83 => Some(ServiceDescriptor(2, MAX_LENGTH, 3, MAX_LENGTH))
    case 0x84 => Some(ServiceDescriptor(2, MAX_LENGTH, 3, MAX_LENGTH))
    case 0x85 => Some(ServiceDescriptor(2, MAX_LENGTH, 3, MAX_LENGTH))
    case 0x86 => Some(ServiceDescriptor(2, MAX_LENGTH, 3, MAX_LENGTH))
    case 0x87 => Some(ServiceDescriptor(2, MAX_LENGTH, 3, MAX_LENGTH))
    case 0x22 => Some(ServiceDescriptor(3, MAX_LENGTH, 4, MAX_LENGTH))
    case 0x23 => Some(ServiceDescriptor(4, MAX_LENGTH, 4, MAX_LENGTH))
    case 0x24 => Some(ServiceDescriptor(3, MAX_LENGTH, 3, MAX_LENGTH))
    case 0x2A => Some(ServiceDescriptor(3, MAX_LENGTH, 3, MAX_LENGTH))
    case 0x2C => Some(ServiceDescriptor(3, MAX_LENGTH, 3, MAX_LENGTH))
    case 0x2E => Some(ServiceDescriptor(4, MAX_LENGTH, 3, MAX_LENGTH))
    case 0x3D => Some(ServiceDescriptor(4, MAX_LENGTH, 3, MAX_LENGTH))
    case 0x14 => Some(ServiceDescriptor(3, MAX_LENGTH, 3, MAX_LENGTH))
    case 0x19 => Some(ServiceDescriptor(2, MAX_LENGTH, 3, MAX_LENGTH))
    case 0x34 => Some(ServiceDescriptor(6, MAX_LENGTH, 5, MAX_LENGTH))
    case 0x36 => Some(ServiceDescriptor(3, MAX_LENGTH, 3, MAX_LENGTH))
    case 0x37 => Some(ServiceDescriptor(2, 2, 2, 2))
    case _ => None
  }

  /** The table as it is laid out in the source. */
  const UDS_SERVICE_DESCRIPTORS: seq<(byte, ServiceDescriptor)> := [
    (0x10, ServiceDescriptor(2, 2, 6, 6)),
    (0x11, ServiceDescriptor(2, 2, 2, 2)),
    (0x27, ServiceDescriptor(2, 4095, 3, 4095)),
    (0x28, ServiceDescriptor(2, 4095, 3, 4095)),
    (0x3E, ServiceDescriptor(2, 2, 2, 2)),
    (0x83, ServiceDescriptor(2, 4095, 3, 4095)),
    (0x84, ServiceDescriptor(2, 4095, 3, 4095)),
    (0x85, ServiceDescriptor(2, 4095, 3, 4095)),
    (0x86, ServiceDescriptor(2, 4095, 3, 4095)),
    (0x87, ServiceDescriptor(2, 4095, 3, 4095)),
    (0x22, ServiceDescriptor(3, 4095, 4, 4095)),
    (0x23, ServiceDescriptor(4, 4095, 4, 4095)),
    (0x24, ServiceDescriptor(3, 4095, 3, 4095)),
    (0x2A, ServiceDescriptor(3, 4095, 3, 4095)),
    (0x2C, ServiceDescriptor(3, 4095, 3, 4095)),
    (0x2E, ServiceDescriptor(4, 4095, 3, 4095)),
    (0x3D, ServiceDescriptor(4, 4095, 3, 4095)),
    (0x14, ServiceDescriptor(3, 4095, 3, 4095)),
    (0x19, ServiceDescriptor(2, 4095, 3, 4095)),
    (0x34, ServiceDescriptor(6, 4095, 5, 4095)),
    (0x36, ServiceDescriptor(3, 4095, 3, 4095)),
    (0x37, ServiceDescriptor(2, 2, 2, 2))
  ]

  /** The search through it: the first entry for the service, if there is one, is its descriptor. */
  method SearchServiceDescriptor(sid: byte) returns (descriptor: Option<ServiceDescriptor>)
    ensures descriptor == FindServiceDescriptor(sid)
  {
    for i := 0 to |UDS_SERVICE_DESCRIPTORS|
      invariant forall j :: 0 <= j < i ==> UDS_SERVICE_DESCRIPTORS[j].0 != sid
    {
      if UDS_SERVICE_DESCRIPTORS[i].0 == sid {
        EntryIsFound(i);
        return Some(UDS_SERVICE_DESCRIPTORS[i].1);
      }
    }
    AbsentIsNotFound(sid);
    descriptor := None;
  }

  lemma EntryIsFound(i: nat)
    requires i < |UDS_SERVICE_DESCRIPTORS|
    ensures FindServiceDescriptor(UDS_SERVICE_DESCRIPTORS[i].0) == Some(UDS_SERVICE_DESCRIPTORS[i].1)
  {
  }

  lemma AbsentIsNotFound(sid: byte)
    requires forall j :: 0 <= j < |UDS_SERVICE_DESCRIPTORS| ==> UDS_SERVICE_DESCRIPTORS[j].0 != sid
    ensures FindServiceDescriptor(sid) == None
  {
    var t := UDS_SERVICE_DESCRIPTORS;
    assert t[0].0 != sid && t[1].0 != sid && t[2].0 != sid && t[3].0 != sid && t[4].0 != sid && t[5].0 != sid;
    assert t[6].0 != sid && t[7].0 != sid && t[8].0 != sid && t[9].0 != sid && t[10].0 != sid && t[11].0 != sid;
    assert t[12].0 != sid && t[13].0 != sid && t[14].0 != sid && t[15].0 != sid && t[16].0 != sid;
    assert t[17].0 != sid && t[18].0 != sid && t[19].0 != sid && t[20].0 != sid && t[21].0 != sid;
  }

  datatype UdsResponse = UdsResponse(code: byte, data: seq<byte>)

  /** A service handler; typed wrappers index into the request and are partial. */
  type Handler = seq<byte> --> UdsResponse

  /** Every handler can be called with every request the descriptor lets through. */
  ghost predicate Safe(handlers: map<byte, Handler>) {
    forall sid, request: seq<byte> ::
      sid in handlers && FindServiceDescriptor(sid).Some?
      && FindServiceDescriptor(sid).value.AcceptsRequest(|request|) && request[0] == sid
      ==> handlers[sid].requires(request)
  }

  function MakeResponse(sid: byte, code: byte, data: seq<byte>): seq<byte> {
    if code != OK then [NEGATIVE_RESPONSE, sid, code] else [(sid + POSITIVE_RESPONSE_OFFSET as int) % 0x100] + data
  }

  /** handleDiagnosticRequest */
  function Reply(handlers: map<byte, Handler>, request: seq<byte>): seq<byte>
    requires Safe(handlers)
  {
    if request == [] then [] else
    var sid := request[0];
    var descriptor := FindServiceDescriptor(sid);
    if descriptor.None? then MakeResponse(sid, SERVICE_NOT_SUPPORTED, [])
    else if !descriptor.value.AcceptsRequest(|request|) then MakeResponse(sid, INCORRECT_LENGTH, [])
    else if sid !in handlers then MakeResponse(sid, SERVICE_NOT_SUPPORTED, [])
    else
      var response := handlers[sid](request);
      if !descriptor.value.AcceptsResponse(|response.data| + 1) then MakeResponse(sid, GENERAL_PROGRAMMING_FAILURE, [])
      else MakeResponse(sid, response.code, response.data)
  }

  ghost predicate IsNegative(reply: seq<byte>, sid: byte) {
    |reply| == 3 && reply[0] == NEGATIVE_RESPONSE && reply[1] == sid && reply[2] != OK
  }

  ghost predicate IsPositive(reply: seq<byte>, sid: byte) {
    && reply != []
    && reply[0] == sid + POSITIVE_RESPONSE_OFFSET as int
    && FindServiceDescriptor(sid).Some?
    && FindServiceDescriptor(sid).value.AcceptsResponse(|reply|)
  }

  /** For every request and handler table: no reply to an empty request, otherwise either a three-byte negative reply or
      a positive one within the descriptor's bounds, and the first byte tells which. */
  lemma ReplyShape(handlers: map<byte, Handler>, request: seq<byte>)
    requires Safe(handlers)
    ensures var reply := Reply(handlers, request);
      && (reply == [] <==> request == [])
      && (request != [] ==>
          && (IsNegative(reply, request[0]) || IsPositive(reply, request[0]))
          && (reply[0] == NEGATIVE_RESPONSE <==> IsNegative(reply, request[0]))
          && (reply[0] != NEGATIVE_RESPONSE <==> IsPositive(reply, request[0])))
  {
  }

  /** When a handler is consulted at all. */
  predicate Reaches(handlers: map<byte, Handler>, request: seq<byte>) {
    && request != []
    && FindServiceDescriptor(request[0]).Some?
    && FindServiceDescriptor(request[0]).value.AcceptsRequest(|request|)
    && request[0] in handlers
  }

  /** What is refused without a handler, and with which code: IncorrectMessageLengthOrInvalidFormat exactly if the
      service is listed and the length out of its bounds, ServiceNotSupported otherwise. */
  lemma RefusalCodes(handlers: map<byte, Handler>, request: seq<byte>)
    requires Safe(handlers) && request != [] && !Reaches(handlers, request)
    ensures Reply(handlers, request) == [0x7F, request[0], RefusalCode(request)]
  {
  }

  function RefusalCode(request: seq<byte>): byte
    requires request != []
  {
    if IsListed(request[0]) && !FindServiceDescriptor(request[0]).value.AcceptsRequest(|request|) then 0x13 else 0x11
  }

  /** The services of the table, by their identifiers in ISO 14229-1. */
  predicate IsListed(sid: byte)
    ensures IsListed(sid) <==> FindServiceDescriptor(sid).Some?
  {
    || sid == 0x10 || sid == 0x11 || sid == 0x14 || sid == 0x19
    || 0x22 <= sid <= 0x24 || 0x27 <= sid <= 0x28 || sid == 0x2A || sid == 0x2C || sid == 0x2E
    || sid == 0x34 || 0x36 <= sid <= 0x37 || 0x3D <= sid <= 0x3E || 0x83 <= sid <= 0x87
  }

  /** What a handler's answer is turned into, byte by byte. */
  lemma AnsweredBytes(handlers: map<byte, Handler>, request: seq<byte>)
    requires Safe(handlers) && Reaches(handlers, request)
    ensures var sid, answer := request[0], handlers[request[0]](request);
      var bounds := FindServiceDescriptor(sid).value;
      Reply(handlers, request) ==
        if |answer.data| + 1 < bounds.minRspLength || |answer.data| + 1 > bounds.maxRspLength then [0x7F, sid, 0x72]
        else if answer.code == 0 then [sid + 0x40] + answer.data
        else [0x7F, sid, answer.code]
  {
  }

  /** A handler's own answer reaches the client exactly if its length, counting the service id, is within the response
      bounds of the service; that holds for negative answers too, whose data is normally empty. */
  lemma HandlerAnswerSurvives(handlers: map<byte, Handler>, request: seq<byte>)
    requires Safe(handlers) && Reaches(handlers, request)
    ensures var sid := request[0];
      var answer := handlers[sid](request);
      Reply(handlers, request) == MakeResponse(sid, answer.code, answer.data) <==>
        || FindServiceDescriptor(sid).value.AcceptsResponse(|answer.data| + 1)
        || answer.code == GENERAL_PROGRAMMING_FAILURE
  {
    var answer := handlers[request[0]](request);
    if answer.code == OK {
      assert MakeResponse(request[0], OK, answer.data)[0] != NEGATIVE_RESPONSE;
    } else {
      assert MakeResponse(request[0], answer.code, answer.data)[2] == answer.code;
    }
  }

  /** No service admits a one-byte response, so a negative code without data never gets through. */
  lemma BareNegativeIsReplaced(handlers: map<byte, Handler>, request: seq<byte>)
    requires Safe(handlers) && Reaches(handlers, request)
    requires handlers[request[0]](request).data == []
    ensures Reply(handlers, request) == [NEGATIVE_RESPONSE, request[0], GENERAL_PROGRAMMING_FAILURE]
  {
  }

  // ---------------------------------------------------------------- typed wrappers

  function OnSubFunction(h: byte -> UdsResponse): Handler {
    (request: seq<byte>) requires |request| >= 2 => h(request[1])
  }

  function OnIdentifier(h: u16 -> UdsResponse): Handler {
    (request: seq<byte>) requires |request| >= 3 => h(ReadU16(request, 1))
  }

  function OnIdentifierAndData(h: (u16, seq<byte>) -> UdsResponse): Handler {
    (request: seq<byte>) requires |request| >= 3 => h(ReadU16(request, 1), request[3..])
  }

  function OnAddressAndLength(h: (u32, u32) -> UdsResponse): Handler {
    (request: seq<byte>) =>
      if |request| < 10 then UdsResponse(INCORRECT_LENGTH, []) else h(ReadU32(request, 1), ReadU32(request, 5))
  }

  function OnBlock(h: (byte, seq<byte>) -> UdsResponse): Handler {
    (request: seq<byte>) requires |request| >= 2 => h(request[1], request[2..])
  }

  function OnNothing(h: () -> UdsResponse): Handler {
    (request: seq<byte>) => h()
  }

  function NotSupported(): Handler {
    (request: seq<byte>) => UdsResponse(SERVICE_NOT_SUPPORTED, [])
  }

  /** The wrappers undo the encodings of the requests they stand for. */
  lemma TypedRequestsAreDecoded(id: u16, address: u32, length: u32, counter: byte, data: seq<byte>)
    ensures forall h: byte -> UdsResponse :: OnSubFunction(h)([0x3E, counter]) == h(counter)
    ensures forall h: () -> UdsResponse :: OnNothing(h)([0x37, counter]) == h()
    ensures forall h: u16 -> UdsResponse :: OnIdentifier(h)([0x22] + U16(id) + data) == h(id)
    ensures forall h: (u16, seq<byte>) -> UdsResponse :: OnIdentifierAndData(h)([0x2E] + U16(id) + data) == h(id, data)
    ensures forall h: (byte, seq<byte>) -> UdsResponse :: OnBlock(h)([0x36, counter] + data) == h(counter, data)
    ensures forall h: (u32, u32) -> UdsResponse :: data != [] ==>
      OnAddressAndLength(h)([0x34] + U32(address) + U32(length) + data) == h(address, length)
  {
    ReadBackU16([0x22], id, data);
    ReadBackU16([0x2E], id, data);
    assert ([0x2E] + U16(id) + data)[3..] == data;
    assert ([0x36, counter] + data)[2..] == data;
    ReadBackU32([0x34], address, U32(length) + data);
    assert [0x34] + U32(address) + U32(length) + data == [0x34] + U32(address) + (U32(length) + data);
    ReadBackU32([0x34] + U32(address), length, data);
  }

  /** Two codes that the sources write and no client sees: the length error of the download wrapper, and the
      ServiceNotSupported of the default services. Both come out as GeneralProgrammingFailure. */
  lemma HiddenCodes(handlers: map<byte, Handler>, h: (u32, u32) -> UdsResponse, request: seq<byte>)
    requires Safe(handlers) && Reaches(handlers, request)
    requires
      || (request[0] == 0x34 && handlers[0x34] == OnAddressAndLength(h) && |request| < 10)
      || handlers[request[0]] == NotSupported()
    ensures Reply(handlers, request) == [NEGATIVE_RESPONSE, request[0], GENERAL_PROGRAMMING_FAILURE]
  {
    BareNegativeIsReplaced(handlers, request);
  }

  class UdsMock {
    var handlers: map<byte, Handler>

    constructor ()
      ensures handlers == map[] && Safe(handlers)
    {
      handlers := map[];
    }

    method RegisterService(sid: byte, handler: Handler)
      requires Safe(handlers[sid := handler])
      modifies this
      ensures handlers == old(handlers)[sid := handler] && Safe(handlers)
    {
      handlers := handlers[sid := handler];
    }

    method UnregisterService(sid: byte)
      requires Safe(handlers)
      modifies this
      ensures handlers == old(handlers) - {sid} && Safe(handlers)
    {
      handlers := handlers - {sid};
    }

    /** The typed registrations: the descriptor's minimum request length makes each wrapper's indexing safe. */
    method RegisterDiagnosticSessionControlHandler(h: byte -> UdsResponse)
      requires Safe(handlers)
      modifies this
      ensures handlers == old(handlers)[0x10 := OnSubFunction(h)] && Safe(handlers)
    {
      RegisterService(0x10, OnSubFunction(h));
    }

    method RegisterEcuResetHandler(h: byte -> UdsResponse)
      requires Safe(handlers)
      modifies this
      ensures handlers == old(handlers)[0x11 := OnSubFunction(h)] && Safe(handlers)
    {
      RegisterService(0x11, OnSubFunction(h));
    }

    method RegisterReadDataByIdentifierHandler(h: u16 -> UdsResponse)
      requires Safe(handlers)
      modifies this
      ensures handlers == old(handlers)[0x22 := OnIdentifier(h)] && Safe(handlers)
    {
      RegisterService(0x22, OnIdentifier(h));
    }

    method RegisterWriteDataByIdentifierHandler(h: (u16, seq<byte>) -> UdsResponse)
      requires Safe(handlers)
      modifies this
      ensures handlers == old(handlers)[0x2E := OnIdentifierAndData(h)] && Safe(handlers)
    {
      RegisterService(0x2E, OnIdentifierAndData(h));
    }

    method RegisterTesterPresentHandler(h: byte -> UdsResponse)
      requires Safe(handlers)
      modifies this
      ensures handlers == old(handlers)[0x3E := OnSubFunction(h)] && Safe(handlers)
    {
      RegisterService(0x3E, OnSubFunction(h));
    }

    method RegisterRequestDownloadHandler(h: (u32, u32) -> UdsResponse)
      requires Safe(handlers)
      modifies this
      ensures handlers == old(handlers)[0x34 := OnAddressAndLength(h)] && Safe(handlers)
    {
      RegisterService(0x34, OnAddressAndLength(h));
    }

    method RegisterTransferDataHandler(h: (byte, seq<byte>) -> UdsResponse)
      requires Safe(handlers)
      modifies this
      ensures handlers == old(handlers)[0x36 := OnBlock(h)] && Safe(handlers)
    {
      RegisterService(0x36, OnBlock(h));
    }

    method RegisterRequestTransferExitHandler(h: () -> UdsResponse)
      requires Safe(handlers)
      modifies this
      ensures handlers == old(handlers)[0x37 := OnNothing(h)] && Safe(handlers)
    {
      RegisterService(0x37, OnNothing(h));
    }

    method RegisterDefaultServices()
      requires Safe(handlers)
      modifies this
      ensures Safe(handlers)
      ensures forall sid :: sid in DEFAULT_SERVICES ==> sid in handlers && handlers[sid] == NotSupported()
      ensures forall sid :: sid !in DEFAULT_SERVICES ==>
        (sid in handlers <==> sid in old(handlers)) && (sid in handlers ==> handlers[sid] == old(handlers)[sid])
    {
      for k := 0 to |DEFAULT_SERVICES|
        invariant Safe(handlers)
        invariant forall sid :: sid in DEFAULT_SERVICES[..k] ==> sid in handlers && handlers[sid] == NotSupported()
        invariant forall sid :: sid !in DEFAULT_SERVICES[..k] ==>
          (sid in handlers <==> sid in old(handlers)) && (sid in handlers ==> handlers[sid] == old(handlers)[sid])
      {
        RegisterService(DEFAULT_SERVICES[k], NotSupported());
        assert DEFAULT_SERVICES[..k + 1] == DEFAULT_SERVICES[..k] + [DEFAULT_SERVICES[k]];
      }
      assert DEFAULT_SERVICES[..|DEFAULT_SERVICES|] == DEFAULT_SERVICES;
    }

    method HandleDiagnosticRequest(request: seq<byte>) returns (reply: seq<byte>)
      requires Safe(handlers)
      ensures reply == Reply(handlers, request)
    {
      if request == [] {
        return [];
      }
      var sid := request[0];
      var descriptor := SearchServiceDescriptor(sid);
      if descriptor.None? {
        return MakeResponse(sid, SERVICE_NOT_SUPPORTED, []);
      }
      if !descriptor.value.AcceptsRequest(|request|) {
        return MakeResponse(sid, INCORRECT_LENGTH, []);
      }
      if sid !in handlers {
        return MakeResponse(sid, SERVICE_NOT_SUPPORTED, []);
      }
      var response := handlers[sid](request);
      if !descriptor.value.AcceptsResponse(|response.data| + 1) {
        return MakeResponse(sid, GENERAL_PROGRAMMING_FAILURE, []);
      }
      return MakeResponse(sid, response.code, response.data);
    }
  }

  const DEFAULT_SERVICES: seq<byte> :=
    [0x10, 0x11, 0x27, 0x28, 0x3E, 0x83, 0x84, 0x85, 0x86, 0x87,
     0x22, 0x23, 0x24, 0x2A, 0x2C, 0x2E, 0x3D, 0x14, 0x19]
}
