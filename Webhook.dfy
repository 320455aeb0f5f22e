/** The provider's webhook endpoint: the signature gate, the dispatch on the
    message type, and the four handlers, each folding a message into the
    store. The HMAC-SHA-256 digest (section 2 of RFC 2104) and the host's
    parsers are supplied by the caller. */
module Webhook {
  import opened Values
  import opened Fields
  import opened Records
  import opened CallLogUpdates
  import opened PatientMerge

  // ---------------------------------------------------------------------
  // Recovering the call id from the recording URL

  /** The regular-expression class `[a-f0-9-]`. */
  predicate IdChar(c: char) {
    ('a' <= c <= 'f') || ('0' <= c <= '9') || c == '-'
  }

  /** Thirty-six characters of the class start at position `i` of `s`. */
  predicate IdWindowAt(s: string, i: nat) {
    i + 36 <= |s| && forall k :: i <= k < i + 36 ==> IdChar(s[k])
  }

  /** The regular-expression engine's search for `([a-f0-9-]{36})`: the
      leftmost start at or after `from` of a window of the class, or -1
      when there is none. */
  function FirstIdWindow(s: string, from: nat): (i: int)
    decreases |s| - from
    ensures i == -1 || (from <= i && IdWindowAt(s, i))
    ensures i == -1 ==> forall j: nat :: from <= j ==> !IdWindowAt(s, j)
    ensures i >= 0 ==> forall j: nat :: from <= j < i ==> !IdWindowAt(s, j)
  {
    if from + 36 > |s| then -1
    else if IdWindowAt(s, from) then from
    else FirstIdWindow(s, from + 1)
  }

  /** `url.match(/([a-f0-9-]{36})/)?.[0]`: the leftmost run of 36 class
      characters, when the URL holds one. */
  function CallIdInUrl(url: string): (r: Option<string>)
    ensures r.None? ==> forall j: nat :: !IdWindowAt(url, j)
    ensures r.Some? ==> |r.value| == 36 && forall k :: 0 <= k < 36 ==> IdChar(r.value[k])
    ensures r.Some? ==> exists j: nat :: IdWindowAt(url, j) && url[j..j + 36] == r.value
                                       && forall j': nat :: j' < j ==> !IdWindowAt(url, j')
  {
    var i := FirstIdWindow(url, 0);
    if i == -1 then None
    else
      Some(url[i..i + 36])
  }

  /** `message.call?.id`, when non-empty. */
  function CallIdOf(m: WebhookMessage): Option<string> {
    if m.call.Some? && Truthy(m.call.value.id) then m.call.value.id else None
  }

  /** The end-of-call report's call id: `call.id`, and otherwise the id
      found in the combined recording URL. */
  function EndOfCallId(m: WebhookMessage): (r: Option<string>)
    ensures CallIdOf(m).Some? ==> r == CallIdOf(m)
    ensures CallIdOf(m).None? && m.recordingCombinedUrl.None? ==> r.None?
    ensures CallIdOf(m).None? && m.recordingCombinedUrl.Some? ==> r == CallIdInUrl(m.recordingCombinedUrl.value)
    ensures r.Some? ==> r.value != ""
  {
    if CallIdOf(m).Some? then CallIdOf(m)
    else if m.recordingCombinedUrl.Some? then CallIdInUrl(m.recordingCombinedUrl.value)
    else None
  }

  /** `message.analysis?.structuredData`. */
  function StructuredDataOf(m: WebhookMessage): Option<StructuredData> {
    if m.analysis.Some? then m.analysis.value.structuredData else None
  }

  // ---------------------------------------------------------------------
  // Handlers

  /** What a handler reports. The first two are the end-of-call report's
      `success: false` answers; `Acknowledged` is a bare `success: true`. */
  datatype HandlerResult =
    | NoCallId
    | CallLogNotFound(callId: string)
    | CallEndProcessed(callLogId: string, callId: string, patient: Option<PatientOutcome>)
    | Acknowledged
    | StatusUpdated(callId: string, newStatus: Option<string>, callLogId: string)
    | TranscriptUpdated(callId: string, callLogId: string, transcriptLength: nat)
    | FunctionCallAcknowledged(callId: string)
    | UnhandledType

  /** The `success` flag of a handler's answer. */
  predicate Succeeded(r: HandlerResult) {
    !(r.NoCallId? || r.CallLogNotFound?)
  }

  /** `handleCallEnd`: the call log found by the provider's call id gets the
      end-of-call update and, when the analysis carries structured data,
      the call's patient gets the merge. A missing id or an unknown call
      fails and changes nothing. */
  function CallEndOutcome(db: Store, m: WebhookMessage, ps: Parsers): (r: (HandlerResult, Store))
    ensures EndOfCallId(m).None? ==> r == (NoCallId, db)
    ensures EndOfCallId(m).Some? && FindByVapiCallId(db, EndOfCallId(m).value).None? ==>
              r == (CallLogNotFound(EndOfCallId(m).value), db)
    ensures EndOfCallId(m).Some? && FindByVapiCallId(db, EndOfCallId(m).value).Some? ==> r.0.CallEndProcessed?
    ensures Succeeded(r.0) <==> r.0.CallEndProcessed?
    ensures r.0.CallEndProcessed? ==> (r.0.patient.Some? <==> StructuredDataOf(m).Some?)
    ensures r.1.callIndex == db.callIndex
    ensures r.0.CallEndProcessed? ==>
      && EndOfCallId(m).Some? && FindByVapiCallId(db, EndOfCallId(m).value).Some?
      && var log := FindByVapiCallId(db, EndOfCallId(m).value).value;
         && r.0.callLogId == log.id && r.0.callId == EndOfCallId(m).value
         && r.1.calls == db.calls[log.id := ApplyCallLogUpdate(log, EndOfCallUpdate(log, m))]
         && r.1.patients == (if StructuredDataOf(m).Some? then MergeIntoPatients(db.patients, log.patientId, StructuredDataOf(m).value, ps).1 else db.patients)
         && (StructuredDataOf(m).Some? ==> r.0.patient == Some(MergeIntoPatients(db.patients, log.patientId, StructuredDataOf(m).value, ps).0))
  {
    var id := EndOfCallId(m);
    if id.None? then (NoCallId, db)
    else
      var found := FindByVapiCallId(db, id.value);
      if found.None? then (CallLogNotFound(id.value), db)
      else
        var log := found.value;
        var calls' := db.calls[log.id := ApplyCallLogUpdate(log, EndOfCallUpdate(log, m))];
        var data := StructuredDataOf(m);
        if data.None? then (CallEndProcessed(log.id, id.value, None), db.(calls := calls'))
        else
          var merged := MergeIntoPatients(db.patients, log.patientId, data.value, ps);
          (CallEndProcessed(log.id, id.value, Some(merged.0)), db.(calls := calls', patients := merged.1))
  }

  /** The end-of-call handler as the source runs it: look the call up,
      build and apply the call-log update, then merge the patient. */
  method HandleCallEnd(db: Store, m: WebhookMessage, ps: Parsers) returns (res: HandlerResult, db': Store)
    ensures (res, db') == CallEndOutcome(db, m, ps)
  {
    var callId := EndOfCallId(m);
    if callId.None? {
      return NoCallId, db;
    }
    var found := FindByVapiCallId(db, callId.value);
    if found.None? {
      return CallLogNotFound(callId.value), db;
    }
    var log := found.value;
    var update := BuildEndOfCallUpdate(log, m);
    db' := db.(calls := db.calls[log.id := ApplyCallLogUpdate(log, update)]);
    var patient := None;
    if m.analysis.Some? && m.analysis.value.structuredData.Some? {
      var outcome, patients' := UpdatePatientFromStructuredData(db.patients, log.patientId, m.analysis.value.structuredData.value, ps);
      db' := db'.(patients := patients');
      patient := Some(outcome);
    }
    res := CallEndProcessed(log.id, callId.value, patient);
  }

  /** `handleStatusUpdate`: a missing or unknown call id is acknowledged and
      changes nothing; otherwise the status update is applied to that call
      log alone. */
  function StatusOutcome(db: Store, m: WebhookMessage): (r: (HandlerResult, Store))
    ensures CallIdOf(m).None? ==> r == (Acknowledged, db)
    ensures CallIdOf(m).Some? && FindByVapiCallId(db, CallIdOf(m).value).None? ==> r == (Acknowledged, db)
    ensures Succeeded(r.0)
    ensures r.1.callIndex == db.callIndex && r.1.patients == db.patients
    ensures CallIdOf(m).Some? && FindByVapiCallId(db, CallIdOf(m).value).Some? ==>
      var log := FindByVapiCallId(db, CallIdOf(m).value).value;
      && r.0 == StatusUpdated(CallIdOf(m).value, if m.call.Some? then m.call.value.status else None, log.id)
      && r.1.calls == db.calls[log.id := ApplyCallLogUpdate(log, StatusUpdateFor(log, m))]
  {
    var id := CallIdOf(m);
    if id.None? then (Acknowledged, db)
    else
      var found := FindByVapiCallId(db, id.value);
      if found.None? then (Acknowledged, db)
      else
        var log := found.value;
        var newStatus := if m.call.Some? then m.call.value.status else None;
        (StatusUpdated(id.value, newStatus, log.id),
         db.(calls := db.calls[log.id := ApplyCallLogUpdate(log, StatusUpdateFor(log, m))]))
  }

  /** `handleTranscript`: a missing or unknown call id is acknowledged and
      changes nothing; otherwise the transcript update is applied to that
      call log alone. */
  function TranscriptOutcome(db: Store, m: WebhookMessage): (r: (HandlerResult, Store))
    ensures CallIdOf(m).None? ==> r == (Acknowledged, db)
    ensures CallIdOf(m).Some? && FindByVapiCallId(db, CallIdOf(m).value).None? ==> r == (Acknowledged, db)
    ensures Succeeded(r.0)
    ensures r.1.callIndex == db.callIndex && r.1.patients == db.patients
    ensures CallIdOf(m).Some? && FindByVapiCallId(db, CallIdOf(m).value).Some? ==>
      var log := FindByVapiCallId(db, CallIdOf(m).value).value;
      && r.0 == TranscriptUpdated(CallIdOf(m).value, log.id, TranscriptLength(m))
      && r.1.calls == db.calls[log.id := ApplyCallLogUpdate(log, TranscriptUpdateFor(m))]
  {
    var id := CallIdOf(m);
    if id.None? then (Acknowledged, db)
    else
      var found := FindByVapiCallId(db, id.value);
      if found.None? then (Acknowledged, db)
      else
        var log := found.value;
        (TranscriptUpdated(id.value, log.id, TranscriptLength(m)),
         db.(calls := db.calls[log.id := ApplyCallLogUpdate(log, TranscriptUpdateFor(m))]))
  }

  /** `handleFunctionCall`: acknowledged, naming the call when it has an id;
      nothing is stored. */
  function FunctionCallOutcome(m: WebhookMessage): (r: HandlerResult)
    ensures Succeeded(r)
    ensures r.Acknowledged? <==> CallIdOf(m).None?
    ensures r.FunctionCallAcknowledged? ==> Some(r.callId) == CallIdOf(m)
    ensures CallIdOf(m).Some? ==> r == FunctionCallAcknowledged(CallIdOf(m).value)
  {
    if CallIdOf(m).Some? then FunctionCallAcknowledged(CallIdOf(m).value) else Acknowledged
  }

  // ---------------------------------------------------------------------
  // Properties of the handlers

  /** In a valid store the lookup by provider call id finds the record
      stored under the index entry, carrying that call id. */
  lemma FoundRecord(db: Store, callId: string)
    requires Valid(db) && FindByVapiCallId(db, callId).Some?
    ensures var log := FindByVapiCallId(db, callId).value;
      && callId in db.callIndex && log.id == db.callIndex[callId]
      && log.id in db.calls && db.calls[log.id] == log && log.vapiCallId == Some(callId)
  {
  }

  /** The call log an end-of-call report names, when the store holds it. */
  function ReportedLog(db: Store, m: WebhookMessage): Option<CallRecord> {
    if EndOfCallId(m).Some? then FindByVapiCallId(db, EndOfCallId(m).value) else None
  }

  /** The end-of-call handler keeps the store valid: the call log it updates
      keeps its id and provider call id, and a merged patient keeps its id. */
  lemma {:induction false} CallEndKeepsValid(db: Store, m: WebhookMessage, ps: Parsers)
    requires Valid(db)
    ensures Valid(CallEndOutcome(db, m, ps).1)
  {
    if ReportedLog(db, m).Some? {
      var log := ReportedLog(db, m).value;
      FoundRecord(db, EndOfCallId(m).value);
      ReplaceCallKeepsValid(db, log.id, ApplyCallLogUpdate(log, EndOfCallUpdate(log, m)));
    }
  }

  /** The status and transcript handlers keep the store valid. */
  lemma {:induction false} CallUpdatesKeepValid(db: Store, m: WebhookMessage)
    requires Valid(db)
    ensures Valid(StatusOutcome(db, m).1)
    ensures Valid(TranscriptOutcome(db, m).1)
  {
    var id := CallIdOf(m);
    if id.Some? && FindByVapiCallId(db, id.value).Some? {
      var log := FindByVapiCallId(db, id.value).value;
      FoundRecord(db, id.value);
      ReplaceCallKeepsValid(db, log.id, ApplyCallLogUpdate(log, StatusUpdateFor(log, m)));
      ReplaceCallKeepsValid(db, log.id, ApplyCallLogUpdate(log, TranscriptUpdateFor(m)));
    }
  }

  /** An end-of-call report updates only the call log it names. */
  lemma {:induction false} CallEndTouchesOnlyItsCall(db: Store, m: WebhookMessage, ps: Parsers)
    requires Valid(db)
    ensures var db' := CallEndOutcome(db, m, ps).1;
      var log := ReportedLog(db, m);
      && db'.calls.Keys == db.calls.Keys
      && (forall k :: k in db.calls && (log.None? || k != log.value.id) ==> db'.calls[k] == db.calls[k])
  {
    if ReportedLog(db, m).Some? {
      FoundRecord(db, EndOfCallId(m).value);
    }
  }

  /** An end-of-call report changes at most the patient of the call it
      names. */
  lemma {:induction false} CallEndTouchesOnlyItsPatient(db: Store, m: WebhookMessage, ps: Parsers)
    ensures var db' := CallEndOutcome(db, m, ps).1;
      var log := ReportedLog(db, m);
      && db'.patients.Keys == db.patients.Keys
      && (forall k :: k in db.patients && (log.None? || k != log.value.patientId) ==> db'.patients[k] == db.patients[k])
  {
    var log := ReportedLog(db, m);
    if log.Some? && StructuredDataOf(m).Some? {
      var merged := MergeIntoPatients(db.patients, log.value.patientId, StructuredDataOf(m).value, ps);
      assert CallEndOutcome(db, m, ps).1.patients == merged.1;
    }
  }

  /** Delivering the same end-of-call report twice leaves the store as one
      delivery did: the call-log update and the patient merge are both
      replays of overwrites. */
  lemma {:induction false} CallEndReplay(db: Store, m: WebhookMessage, ps: Parsers)
    requires Valid(db)
    ensures var once := CallEndOutcome(db, m, ps).1;
      CallEndOutcome(once, m, ps).1 == once
  {
    var id := EndOfCallId(m);
    if id.Some? && FindByVapiCallId(db, id.value).Some? {
      var log := FindByVapiCallId(db, id.value).value;
      FoundRecord(db, id.value);
      var updated := ApplyCallLogUpdate(log, EndOfCallUpdate(log, m));
      var once := CallEndOutcome(db, m, ps).1;
      assert once.calls == db.calls[log.id := updated];
      assert FindByVapiCallId(once, id.value) == Some(updated);
      EndOfCallReplay(log, m);
      assert once.calls[log.id := ApplyCallLogUpdate(updated, EndOfCallUpdate(updated, m))] == once.calls;
      var data := StructuredDataOf(m);
      if data.Some? {
        MergeIntoPatientsReplay(db.patients, log.patientId, data.value, ps);
      }
    }
  }

  /** Delivering the same status update twice leaves the store as one
      delivery did. */
  lemma {:induction false} StatusReplay(db: Store, m: WebhookMessage)
    requires Valid(db)
    ensures var once := StatusOutcome(db, m).1;
      StatusOutcome(once, m).1 == once
  {
    var id := CallIdOf(m);
    if id.Some? && FindByVapiCallId(db, id.value).Some? {
      var log := FindByVapiCallId(db, id.value).value;
      FoundRecord(db, id.value);
      var updated := ApplyCallLogUpdate(log, StatusUpdateFor(log, m));
      var once := StatusOutcome(db, m).1;
      assert FindByVapiCallId(once, id.value) == Some(updated);
      assert ApplyCallLogUpdate(updated, StatusUpdateFor(updated, m)) == updated;
      assert once.calls[log.id := updated] == once.calls;
    }
  }

  // ---------------------------------------------------------------------
  // The endpoint

  /** The request body as `JSON.parse` sees it: not an object, or an
      object whose `message` may be missing. */
  datatype Parsed = Malformed | Envelope(message: Option<WebhookMessage>)

  datatype Request = Request(body: string, signature: Option<string>, parsed: Parsed)

  /** The endpoint's answers: 401, 500, a bare acknowledgement, or a
      handler's answer. */
  datatype Response = InvalidSignature | ProcessingFailed | Ack | Handled(result: HandlerResult)

  function HttpStatus(resp: Response): (code: int)
    ensures code == 401 <==> resp.InvalidSignature?
    ensures code == 500 <==> resp.ProcessingFailed?
    ensures code == 200 || code == 401 || code == 500
  {
    match resp
    case InvalidSignature => 401
    case ProcessingFailed => 500
    case _ => 200
  }

  /** The configured secret and the host's HMAC-SHA-256 hex digest of a
      body under a key. */
  datatype Host = Host(secret: Option<string>, hmacSha256Hex: (string, string) -> string, parsers: Parsers)

  /** The signature check runs only when both a secret and a signature
      header are present, and rejects a header that differs from the
      digest of the raw body. */
  predicate SignatureRejected(host: Host, req: Request) {
    Truthy(host.secret) && Truthy(req.signature) && req.signature.value != host.hmacSha256Hex(host.secret.value, req.body)
  }

  /** The message type the dispatch switches on, when it is non-empty. */
  function MessageType(p: Parsed): Option<string> {
    if p.Envelope? && p.message.Some? && Truthy(p.message.value.msgType) then p.message.value.msgType else None
  }

  /** `POST`: a body that does not parse fails with 500; then the signature
      gate; then an envelope without a message type is acknowledged; then
      the four known types go to their handlers and any other type is
      acknowledged as unhandled. Only a handler changes the store. */
  method Post(db: Store, req: Request, host: Host) returns (resp: Response, db': Store)
    ensures req.parsed.Malformed? ==> resp == ProcessingFailed && db' == db
    ensures resp == InvalidSignature <==> req.parsed.Envelope? && SignatureRejected(host, req)
    ensures resp == InvalidSignature ==> db' == db
    ensures req.parsed.Envelope? && !SignatureRejected(host, req) && MessageType(req.parsed).None? ==> resp == Ack && db' == db
    ensures MessageType(req.parsed).Some? && !SignatureRejected(host, req) ==>
      var m := req.parsed.message.value;
      match m.msgType.value
      case "end-of-call-report" => resp == Handled(CallEndOutcome(db, m, host.parsers).0) && db' == CallEndOutcome(db, m, host.parsers).1
      case "status-update" => resp == Handled(StatusOutcome(db, m).0) && db' == StatusOutcome(db, m).1
      case "transcript" => resp == Handled(TranscriptOutcome(db, m).0) && db' == TranscriptOutcome(db, m).1
      case "function-call" => resp == Handled(FunctionCallOutcome(m)) && db' == db
      case _ => resp == Handled(UnhandledType) && db' == db
    ensures Valid(db) ==> Valid(db')
  {
    if req.parsed.Malformed? {
      return ProcessingFailed, db;
    }
    if Truthy(host.secret) && Truthy(req.signature) {
      var expected := host.hmacSha256Hex(host.secret.value, req.body);
      if req.signature.value != expected {
        return InvalidSignature, db;
      }
    }
    var messageType := MessageType(req.parsed);
    if messageType.None? {
      return Ack, db;
    }
    var m := req.parsed.message.value;
    var result: HandlerResult;
    db' := db;
    if Valid(db) {
      CallUpdatesKeepValid(db, m);
    }
    match messageType.value {
      case "end-of-call-report" =>
        result, db' := HandleCallEnd(db, m, host.parsers);
        if Valid(db) {
          CallEndKeepsValid(db, m, host.parsers);
        }
      case "status-update" =>
        result, db' := StatusOutcome(db, m).0, StatusOutcome(db, m).1;
      case "transcript" =>
        result, db' := TranscriptOutcome(db, m).0, TranscriptOutcome(db, m).1;
      case "function-call" =>
        result := FunctionCallOutcome(m);
      case _ =>
        result := UnhandledType;
    }
    resp := Handled(result);
  }
}
