/**
 * The WhatsApp webhook handler: the verification handshake, and the
 * extraction of the first supported call event from a webhook request.
 */
module WhatsApp {
  import opened Wrappers
  import opened PythonInt

  /** WebRTC session data carried by a connect event. */
  datatype CallSession = CallSession(sdp: string, sdpType: string)

  /** What distinguishes the two call payload models. */
  datatype CallDetails =
    | ConnectDetails(session: CallSession)
    | TerminateDetails(bizOpaqueCallbackData: Option<string>, status: Option<string>,
                       startTime: Option<string>, endTime: Option<string>, duration: Option<int>)

  /** A call entry; `event` is "connect" or "terminate" in practice, but any text is accepted. */
  datatype Call = Call(id: string, from: string, to: string, event: string, timestamp: string,
                       direction: Option<string>, details: CallDetails)

  datatype CallValue = CallValue(calls: seq<Call>)
  datatype Change = Change(value: CallValue, field: string)
  datatype Entry = Entry(id: string, changes: seq<Change>)
  datatype WebhookRequest = WebhookRequest(obj: string, entry: seq<Entry>)

  datatype CallEventType = NewCall | TerminateCall
  datatype CallEvent = CallEvent(callId: string, eventType: CallEventType)

  /** Both failures surface as `ValueError` in the handler. */
  datatype HandlerError = VerificationFailed | ChallengeNotAnInteger | NoSupportedEvent

  function Get(params: map<string, string>, key: string): Option<string>
  {
    if key in params then Some(params[key]) else None
  }

  /**
   * The verification handshake: the mode must be "subscribe", a non-empty
   * challenge must be present, and the token must equal the expected one
   * (two absent tokens are equal). The challenge is then parsed as an integer.
   */
  function HandleVerifyWebhookRequest(params: map<string, string>, expectedToken: Option<string>)
    : (r: Result<int, HandlerError>)
    ensures r.Ok? <==>
              && Get(params, "hub.mode") == Some("subscribe")
              && "hub.challenge" in params && params["hub.challenge"] != ""
              && Get(params, "hub.verify_token") == expectedToken
              && ParseInt(params["hub.challenge"]).Some?
    ensures r.Ok? ==> r.value == ParseInt(params["hub.challenge"]).value
    // The handshake checks come first; a bad challenge text is only reported once they pass.
    ensures r == Err(ChallengeNotAnInteger) ==>
              Get(params, "hub.mode") == Some("subscribe") && Get(params, "hub.verify_token") == expectedToken
    ensures r.Err? ==> r.error != NoSupportedEvent
  {
    var mode := Get(params, "hub.mode");
    var challenge := Get(params, "hub.challenge");
    var token := Get(params, "hub.verify_token");
    if mode != Some("subscribe") || challenge.None? || challenge.value == "" || token != expectedToken then
      Err(VerificationFailed)
    else
      match ParseInt(challenge.value)
      case Some(n) => Ok(n)
      case None => Err(ChallengeNotAnInteger)
  }

  /** A well-formed handshake echoes the challenge back as a number. */
  lemma HandshakeEchoesChallenge(params: map<string, string>, n: int, token: Option<string>)
    requires Get(params, "hub.mode") == Some("subscribe")
    requires Get(params, "hub.challenge") == Some(ToDecimal(n))
    requires Get(params, "hub.verify_token") == token
    ensures HandleVerifyWebhookRequest(params, token) == Ok(n)
  {
    ParseDecimal(n);
  }

  /** The event a call yields, when its event text is supported. */
  function EventFor(call: Call): (r: Option<CallEvent>)
    ensures call.event == "connect" <==> r == Some(CallEvent(call.id, NewCall))
    ensures call.event == "terminate" <==> r == Some(CallEvent(call.id, TerminateCall))
    ensures r.None? <==> call.event != "connect" && call.event != "terminate"
  {
    if call.event == "connect" then Some(CallEvent(call.id, NewCall))
    else if call.event == "terminate" then Some(CallEvent(call.id, TerminateCall))
    else None
  }

  // The handler's three nested loops, each returning on the first supported call.

  function FirstInCalls(calls: seq<Call>): Option<CallEvent>
  {
    if calls == [] then None
    else if EventFor(calls[0]).Some? then EventFor(calls[0])
    else FirstInCalls(calls[1..])
  }

  function FirstInChanges(changes: seq<Change>): Option<CallEvent>
  {
    if changes == [] then None
    else if FirstInCalls(changes[0].value.calls).Some? then FirstInCalls(changes[0].value.calls)
    else FirstInChanges(changes[1..])
  }

  function FirstInEntries(entries: seq<Entry>): Option<CallEvent>
  {
    if entries == [] then None
    else if FirstInChanges(entries[0].changes).Some? then FirstInChanges(entries[0].changes)
    else FirstInEntries(entries[1..])
  }

  function HandleWebhookRequest(request: WebhookRequest): Result<CallEvent, HandlerError>
  {
    match FirstInEntries(request.entry)
    case Some(e) => Ok(e)
    case None => Err(NoSupportedEvent)
  }

  // The reference definition: every call of the request in entry, change,
  // call order, and the first of them with a supported event.

  function CallsOfChanges(changes: seq<Change>): seq<Call>
  {
    if changes == [] then [] else changes[0].value.calls + CallsOfChanges(changes[1..])
  }

  function CallsOfEntries(entries: seq<Entry>): seq<Call>
  {
    if entries == [] then [] else CallsOfChanges(entries[0].changes) + CallsOfEntries(entries[1..])
  }

  /** The index of the first call with a supported event, or `|calls|` when there is none. */
  function FirstSupported(calls: seq<Call>): (k: nat)
    ensures k <= |calls|
    ensures forall j :: 0 <= j < k ==> EventFor(calls[j]).None?
    ensures k < |calls| ==> EventFor(calls[k]).Some?
  {
    if calls == [] then 0
    else if EventFor(calls[0]).Some? then 0
    else 1 + FirstSupported(calls[1..])
  }

  lemma {:induction false} FirstInCallsIsFirstSupported(calls: seq<Call>)
    ensures var k := FirstSupported(calls);
            FirstInCalls(calls) == if k < |calls| then EventFor(calls[k]) else None
  {
    if calls != [] && EventFor(calls[0]).None? {
      FirstInCallsIsFirstSupported(calls[1..]);
    }
  }

  /** Searching a concatenation: the first list's match wins, otherwise the second's. */
  lemma {:induction false} FirstInCallsAppend(a: seq<Call>, b: seq<Call>)
    ensures FirstInCalls(a + b) == if FirstInCalls(a).Some? then FirstInCalls(a) else FirstInCalls(b)
  {
    if a == [] {
      assert a + b == b;
    } else {
      assert (a + b)[0] == a[0];
      assert (a + b)[1..] == a[1..] + b;
      if EventFor(a[0]).None? {
        FirstInCallsAppend(a[1..], b);
      }
    }
  }

  lemma {:induction false} FirstInChangesFlat(changes: seq<Change>)
    ensures FirstInChanges(changes) == FirstInCalls(CallsOfChanges(changes))
  {
    if changes != [] {
      FirstInChangesFlat(changes[1..]);
      FirstInCallsAppend(changes[0].value.calls, CallsOfChanges(changes[1..]));
    }
  }

  lemma {:induction false} FirstInEntriesFlat(entries: seq<Entry>)
    ensures FirstInEntries(entries) == FirstInCalls(CallsOfEntries(entries))
  {
    if entries != [] {
      FirstInEntriesFlat(entries[1..]);
      FirstInChangesFlat(entries[0].changes);
      FirstInCallsAppend(CallsOfChanges(entries[0].changes), CallsOfEntries(entries[1..]));
    }
  }

  /**
   * The handler answers with the event of the first call, over all entries and
   * changes in order, whose event is "connect" or "terminate"; calls with other
   * events are skipped; with no such call, empty lists included, it fails.
   */
  lemma WebhookFirstMatch(request: WebhookRequest)
    ensures var calls := CallsOfEntries(request.entry);
            var k := FirstSupported(calls);
            && (k < |calls| ==> HandleWebhookRequest(request) == Ok(EventFor(calls[k]).value))
            && (k == |calls| ==> HandleWebhookRequest(request) == Err(NoSupportedEvent))
  {
    FirstInEntriesFlat(request.entry);
    FirstInCallsIsFirstSupported(CallsOfEntries(request.entry));
  }
}
