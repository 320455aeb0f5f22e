/** The partial updates the webhook handlers apply to a stored call log:
    the end-of-call report, the status update and the transcript update.
    Each handler stages an update document and hands it to
    `findByIdAndUpdate`, whose `$set` replaces the fields the document holds
    and leaves every other field alone. The wall-clock `updatedAt` is not
    modelled. */
module CallLogUpdates {
  import opened Values
  import opened Records

  /** A staged call-log update: a present field is written, an absent one
      is not (Mongoose drops keys whose value is `undefined`). */
  datatype CallLogUpdate = CallLogUpdate(
    status: Option<string>,
    duration: Option<real>,
    cost: Option<real>,
    startedAt: Option<int>,
    endedAt: Option<int>,
    transcript: Option<string>,
    summary: Option<string>,
    recordingUrl: Option<string>,
    costBreakdown: Option<CostBreakdown>,
    messages: Option<seq<ChatMessage>>,
    analysis: Option<Analysis>)

  const NoCallChange := CallLogUpdate(None, None, None, None, None, None, None, None, None, None, None)

  /** `findByIdAndUpdate(id, update)`: every field the update holds replaces
      the stored one; the identity of the record is never touched. */
  function ApplyCallLogUpdate(r: CallRecord, u: CallLogUpdate): (r': CallRecord)
    ensures r'.id == r.id && r'.patientId == r.patientId && r'.vapiCallId == r.vapiCallId
    ensures u == NoCallChange ==> r' == r
  {
    r.(status := Overwrite(r.status, u.status),
       duration := Overwrite(r.duration, u.duration),
       cost := Overwrite(r.cost, u.cost),
       startedAt := Overwrite(r.startedAt, u.startedAt),
       endedAt := Overwrite(r.endedAt, u.endedAt),
       transcript := Overwrite(r.transcript, u.transcript),
       summary := Overwrite(r.summary, u.summary),
       recordingUrl := Overwrite(r.recordingUrl, u.recordingUrl),
       costBreakdown := Overwrite(r.costBreakdown, u.costBreakdown),
       messages := Overwrite(r.messages, u.messages),
       analysis := Overwrite(r.analysis, u.analysis))
  }

  /** The stored cost breakdown built from a reported one: each sub-cost
      falls back to 0 when it is missing or zero, and the total falls back
      to the message's cost and then to 0. Every field of the result is
      present. */
  function DefaultedBreakdown(b: CostBreakdown, cost: Option<real>): (r: CostBreakdown)
    ensures r.transport.Some? && r.stt.Some? && r.llm.Some? && r.tts.Some? && r.vapi.Some? && r.total.Some?
    ensures TruthyNumber(b.transport) ==> r.transport == b.transport
    ensures !TruthyNumber(b.transport) ==> r.transport == Some(0.0)
    ensures TruthyNumber(b.stt) ==> r.stt == b.stt
    ensures !TruthyNumber(b.stt) ==> r.stt == Some(0.0)
    ensures TruthyNumber(b.llm) ==> r.llm == b.llm
    ensures !TruthyNumber(b.llm) ==> r.llm == Some(0.0)
    ensures TruthyNumber(b.tts) ==> r.tts == b.tts
    ensures !TruthyNumber(b.tts) ==> r.tts == Some(0.0)
    ensures TruthyNumber(b.vapi) ==> r.vapi == b.vapi
    ensures !TruthyNumber(b.vapi) ==> r.vapi == Some(0.0)
    ensures TruthyNumber(b.total) ==> r.total == b.total
    ensures !TruthyNumber(b.total) && TruthyNumber(cost) ==> r.total == cost
    ensures !TruthyNumber(b.total) && !TruthyNumber(cost) ==> r.total == Some(0.0)
  {
    CostBreakdown(
      Some(NumberOr(b.transport, 0.0)),
      Some(NumberOr(b.stt, 0.0)),
      Some(NumberOr(b.llm, 0.0)),
      Some(NumberOr(b.tts, 0.0)),
      Some(NumberOr(b.vapi, 0.0)),
      Some(NumberOr(b.total, NumberOr(cost, 0.0))))
  }

  /** The update an end-of-call report stages for a stored call log. */
  function EndOfCallUpdate(log: CallRecord, m: WebhookMessage): CallLogUpdate {
    CallLogUpdate(
      status := Some("ended"),
      duration := m.durationSeconds,
      cost := m.cost,
      startedAt := if log.startedAt.None? then m.startedAt else None,
      endedAt := m.endedAt,
      transcript := TruthyText(m.transcript),
      summary := TruthyText(m.summary),
      recordingUrl := TruthyText(m.recordingUrl),
      costBreakdown := if m.costBreakdown.Some? then Some(DefaultedBreakdown(m.costBreakdown.value, m.cost)) else None,
      messages := m.messages,
      analysis := if m.analysis.Some? then Some(Analysis(None, m.analysis.value.structuredData, m.analysis.value.successEvaluation)) else None)
  }

  /** The staging half of `updateCallLogFromWebhook`: each field of the
      update document is set only under its own guard, and `status` always. */
  method BuildEndOfCallUpdate(log: CallRecord, m: WebhookMessage) returns (u: CallLogUpdate)
    ensures u == EndOfCallUpdate(log, m)
  {
    var duration, cost, endedAt, startedAt := None, None, None, None;
    var transcript, summary, recordingUrl := None, None, None;
    var costBreakdown, messages, analysis := None, None, None;
    if m.durationSeconds.Some? {
      duration := m.durationSeconds;
    }
    if m.cost.Some? {
      cost := m.cost;
    }
    if m.endedAt.Some? {
      endedAt := m.endedAt;
    }
    if m.startedAt.Some? && log.startedAt.None? {
      startedAt := m.startedAt;
    }
    if Truthy(m.transcript) {
      transcript := m.transcript;
    }
    if Truthy(m.summary) {
      summary := m.summary;
    }
    if Truthy(m.recordingUrl) {
      recordingUrl := m.recordingUrl;
    }
    if m.costBreakdown.Some? {
      costBreakdown := Some(DefaultedBreakdown(m.costBreakdown.value, m.cost));
    }
    if m.messages.Some? {
      messages := m.messages;
    }
    if m.analysis.Some? {
      analysis := Some(Analysis(None, m.analysis.value.structuredData, m.analysis.value.successEvaluation));
    }
    u := CallLogUpdate(Some("ended"), duration, cost, startedAt, endedAt, transcript, summary, recordingUrl, costBreakdown, messages, analysis);
  }

  /** The record an end-of-call report leaves behind: the status is forced
      to `ended`, `startedAt` keeps a stored instant (first write wins),
      duration and cost are replaced whenever they are reported, the
      text fields only when non-empty, and the identity is untouched. */
  lemma EndOfCallEffect(log: CallRecord, m: WebhookMessage)
    ensures var r := ApplyCallLogUpdate(log, EndOfCallUpdate(log, m));
      && r.status == Some("ended")
      && r.startedAt == (if log.startedAt.Some? then log.startedAt else m.startedAt)
      && (m.endedAt.Some? ==> r.endedAt == m.endedAt) && (m.endedAt.None? ==> r.endedAt == log.endedAt)
      && (m.durationSeconds.Some? ==> r.duration == m.durationSeconds) && (m.durationSeconds.None? ==> r.duration == log.duration)
      && (m.cost.Some? ==> r.cost == m.cost) && (m.cost.None? ==> r.cost == log.cost)
      && (Truthy(m.transcript) ==> r.transcript == m.transcript) && (!Truthy(m.transcript) ==> r.transcript == log.transcript)
      && (Truthy(m.summary) ==> r.summary == m.summary) && (!Truthy(m.summary) ==> r.summary == log.summary)
      && (Truthy(m.recordingUrl) ==> r.recordingUrl == m.recordingUrl) && (!Truthy(m.recordingUrl) ==> r.recordingUrl == log.recordingUrl)
      && r.id == log.id && r.patientId == log.patientId && r.vapiCallId == log.vapiCallId
  {
  }

  /** A reported breakdown, message list or analysis replaces the stored one
      wholesale (nothing is appended); the stored analysis summary is
      dropped. Unreported ones stay as they were. */
  lemma EndOfCallReplaces(log: CallRecord, m: WebhookMessage)
    ensures var r := ApplyCallLogUpdate(log, EndOfCallUpdate(log, m));
      && (m.costBreakdown.Some? ==> r.costBreakdown == Some(DefaultedBreakdown(m.costBreakdown.value, m.cost)))
      && (m.costBreakdown.None? ==> r.costBreakdown == log.costBreakdown)
      && (m.messages.Some? ==> r.messages == m.messages)
      && (m.messages.None? ==> r.messages == log.messages)
      && (m.analysis.Some? ==>
            r.analysis == Some(Analysis(None, m.analysis.value.structuredData, m.analysis.value.successEvaluation)))
      && (m.analysis.None? ==> r.analysis == log.analysis)
  {
  }

  /** Delivering the same end-of-call report twice leaves the record as one
      delivery did. */
  lemma {:induction false} EndOfCallReplay(log: CallRecord, m: WebhookMessage)
    ensures var once := ApplyCallLogUpdate(log, EndOfCallUpdate(log, m));
      ApplyCallLogUpdate(once, EndOfCallUpdate(once, m)) == once
  {
    var once := ApplyCallLogUpdate(log, EndOfCallUpdate(log, m));
    assert m.startedAt.Some? ==> once.startedAt.Some?;
  }

  /** The status the status-update handler writes: the call's status when
      non-empty, otherwise `unknown`. */
  function ReportedStatus(m: WebhookMessage): (s: string)
    ensures m.call.Some? && Truthy(m.call.value.status) ==> s == m.call.value.status.value
    ensures !(m.call.Some? && Truthy(m.call.value.status)) ==> s == "unknown"
  {
    if m.call.Some? && Truthy(m.call.value.status) then m.call.value.status.value else "unknown"
  }

  /** The update a status-update message stages. */
  function StatusUpdateFor(log: CallRecord, m: WebhookMessage): CallLogUpdate {
    NoCallChange.(
      status := Some(ReportedStatus(m)),
      startedAt := if m.startedAt.Some? && log.startedAt.None? then m.startedAt else None)
  }

  /** A status update overwrites the status whatever it was (so `ended` can
      be replaced by an earlier state), sets `startedAt` only when none is
      stored, and changes nothing else. */
  lemma StatusUpdateEffect(log: CallRecord, m: WebhookMessage)
    ensures var r := ApplyCallLogUpdate(log, StatusUpdateFor(log, m));
      && r.status == Some(ReportedStatus(m))
      && r.startedAt == (if log.startedAt.Some? then log.startedAt else m.startedAt)
      && r == log.(status := r.status, startedAt := r.startedAt)
  {
  }

  /** The transcript the transcript handler writes, `call.transcript ||
      message.transcript`: `None` when neither is present, in which case the
      key is dropped and nothing is written. */
  function TranscriptOf(m: WebhookMessage): (t: Option<string>)
    ensures m.call.Some? && Truthy(m.call.value.transcript) ==> t == m.call.value.transcript
    ensures !(m.call.Some? && Truthy(m.call.value.transcript)) ==> t == m.transcript
  {
    if m.call.Some? && Truthy(m.call.value.transcript) then m.call.value.transcript else m.transcript
  }

  /** The update a transcript message stages. */
  function TranscriptUpdateFor(m: WebhookMessage): CallLogUpdate {
    NoCallChange.(transcript := TranscriptOf(m))
  }

  /** `(call.transcript || message.transcript || '').length`. */
  function TranscriptLength(m: WebhookMessage): (n: nat)
    ensures n == 0 <==> !Truthy(TranscriptOf(m))
    ensures Truthy(TranscriptOf(m)) ==> n == |TranscriptOf(m).value|
  {
    if Truthy(TranscriptOf(m)) then |TranscriptOf(m).value| else 0
  }

  /** A transcript message replaces only the transcript, and only when some
      transcript (possibly an empty message transcript) is present. */
  lemma TranscriptUpdateEffect(log: CallRecord, m: WebhookMessage)
    ensures var r := ApplyCallLogUpdate(log, TranscriptUpdateFor(m));
      && r == log.(transcript := r.transcript)
      && (TranscriptOf(m).Some? ==> r.transcript == TranscriptOf(m))
      && (TranscriptOf(m).None? ==> r == log)
  {
  }

  /** Once a start instant is stored, neither an end-of-call report nor a
      status update moves it. */
  lemma StartedAtStable(log: CallRecord, m: WebhookMessage)
    requires log.startedAt.Some?
    ensures ApplyCallLogUpdate(log, EndOfCallUpdate(log, m)).startedAt == log.startedAt
    ensures ApplyCallLogUpdate(log, StatusUpdateFor(log, m)).startedAt == log.startedAt
  {
  }
}
