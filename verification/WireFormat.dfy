/** Byte by byte, everything the connection sends (inc/DoIPMessage.h, src/DoIPDefaultConnection.cpp). */
module WireFormat {
  import opened Options
  import opened Bytes
  import opened Message
  import opened ConnectionSpec
  import opened Runs
  import opened RoutingGate

  lemma ActivationResponseBytes(client: u16, server: u16)
    ensures MakeRoutingActivationResponse(client, server, ROUTE_ACTIVATED).data ==
      [3, 252, 0, 6, 0, 0, 0, 9,
       client / 256, client % 256, server / 256, server % 256, 0x10, 0, 0, 0, 0]
  {
  }

  lemma AliveCheckBytes()
    ensures MakeAliveCheckRequest().data == [3, 252, 0, 7, 0, 0, 0, 0]
  {
  }

  /** The code of a negative acknowledgement, by ISO 13400-2. */
  function NackByte(nack: NegativeDiagnosticAck): byte {
    if nack == InvalidSourceAddress then 2
    else if nack == UnknownTargetAddress then 3
    else if nack == DiagnosticMessageTooLarge then 4
    else if nack == OutOfMemory then 5
    else if nack == TargetUnreachable then 6
    else if nack == UnknownNetwork then 7
    else if nack == TransportProtocolError then 8
    else 9
  }

  lemma AckBytes(sa: u16, ta: u16, ack: DiagnosticAck)
    ensures MakeDiagnosticResponse(sa, ta, ack).data ==
      [3, 252, 0x80, if ack.None? then 2 else 3, 0, 0, 0, 5, sa / 256, sa % 256, ta / 256, ta % 256,
       if ack.None? then 0 else NackByte(ack.value)]
  {
  }

  lemma DiagnosticBytes(sa: u16, ta: u16, data: seq<byte>)
    requires |data| + 4 < 0x1_0000_0000
    ensures MakeDiagnosticMessage(sa, ta, data).data ==
      var n := |data| + 4;
      [3, 252, 0x80, 1, n / 0x100_0000, n / 0x1_0000 % 256, n / 256 % 256, n % 256,
       sa / 256, sa % 256, ta / 256, ta % 256] + data
  {
    var body := U16(sa) + U16(ta) + data;
    BuiltBytes(0x8001, body);
    assert body == [sa / 256, sa % 256, ta / 256, ta % 256] + data;
  }

  lemma BuiltBytes(t: u16, payload: seq<byte>)
    requires |payload| < 0x1_0000_0000
    ensures var n := |payload|;
      Build(t, payload).data ==
        [3, 252, t / 256, t % 256, n / 0x100_0000, n / 0x1_0000 % 256, n / 256 % 256, n % 256] + payload
  {
    ShiftsOfU32(|payload|);
    assert |payload| % U32_RANGE == |payload|;
  }

  /** What a message gets that the active route refuses: a foreign source code 2 to itself, an unsupported type code 8
      to address 0; both leave the state alone. */
  lemma RefusedOnTheWire(s: Sys, msg: DoIPMessage, app: AppReply, now: int)
    requires s.conn.phase.state == RoutingActivated && Enabled(s, Received(msg, app, now))
    requires msg.PayloadType() != 0x0008 && !FromClient(msg, s.conn.client)
    requires msg.PayloadType() == 0x8001 ==> msg.SourceAddress().Some?
    ensures var c := Step(s, Received(msg, app, now)).conn;
      var to, code :=
        if msg.PayloadType() == 0x8001 then msg.SourceAddress().value else 0,
        if msg.PayloadType() == 0x8001 then 2 else 8;
      var server := s.conn.site.server;
      && |c.log.outbox| == |s.conn.log.outbox| + 1 && c.phase == s.conn.phase
      && c.log.outbox[|s.conn.log.outbox|].data ==
         [3, 252, 0x80, 3, 0, 0, 0, 5, to / 256, to % 256, server / 256, server % 256, code]
  {
    AckBytes(0, s.conn.site.server, Some(TransportProtocolError));
    if msg.SourceAddress().Some? {
      AckBytes(msg.SourceAddress().value, s.conn.site.server, Some(InvalidSourceAddress));
    }
  }
}
