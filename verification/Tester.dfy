/** The tester of the example runs. */
module Tester {
  import opened Options
  import opened Bytes
  import opened Message

  const CLIENT: u16 := 0x0E80
  const SERVER: u16 := 0x0E00

  function ActivationRequest(): DoIPMessage {
    Build(ROUTING_ACTIVATION_REQUEST, U16(CLIENT) + [0, 0, 0, 0, 0])
  }

  function TesterPresent(): DoIPMessage {
    MakeDiagnosticMessage(CLIENT, SERVER, [0x3E, 0x00])
  }

  function AliveAnswer(): DoIPMessage {
    Build(ALIVE_CHECK_RESPONSE, U16(CLIENT))
  }

  lemma TesterFields()
    ensures ActivationRequest().PayloadType() == ROUTING_ACTIVATION_REQUEST
    ensures ActivationRequest().SourceAddress() == Some(CLIENT)
    ensures TesterPresent().PayloadType() == DIAGNOSTIC_MESSAGE
    ensures TesterPresent().SourceAddress() == Some(CLIENT)
    ensures TesterPresent().DiagnosticPayload() == [0x3E, 0x00]
    ensures AliveAnswer().PayloadType() == ALIVE_CHECK_RESPONSE
  {
    var payload := U16(CLIENT) + [0, 0, 0, 0, 0];
    BuiltFields(ROUTING_ACTIVATION_REQUEST, payload);
    assert payload[0] == 0x0E && payload[1] == 0x80;
    DiagnosticRoundTrip(CLIENT, SERVER, [0x3E, 0x00]);
    BuiltFields(ALIVE_CHECK_RESPONSE, U16(CLIENT));
  }
}
