/** The pull-based sync endpoint: the caller names a call log, the
    provider's current view of the call is fetched, and the stored document
    is overwritten field by field and saved. The fetch is supplied by the
    caller. */
module Sync {
  import opened Values
  import opened Records
  import opened CallLogUpdates

  /** The provider's view of a call, reduced to the fields the merge reads.
      The provider's timestamp strings arrive here already read as
      instants in milliseconds. */
  datatype CallSnapshot = CallSnapshot(
    status: Option<string>,
    startedAt: Option<int>,
    endedAt: Option<int>,
    cost: Option<real>,
    costBreakdown: Option<CostBreakdown>,
    transcript: Option<string>,
    summary: Option<string>,
    recordingUrl: Option<string>,
    messages: Option<seq<ChatMessage>>,
    analysis: Option<Analysis>)

  /** `Math.floor((endedAt - startedAt) / 1000)` on millisecond instants:
      the whole seconds between the two, rounded down (also when the end
      precedes the start). */
  function DurationSeconds(startedAt: int, endedAt: int): (d: int)
    ensures d * 1000 <= endedAt - startedAt < d * 1000 + 1000
    ensures startedAt <= endedAt ==> d >= 0
  {
    (endedAt - startedAt) / 1000
  }

  /** The record after a sync: the status is always replaced, the two
      timestamps whenever the provider has them, the remaining fields only
      when the provider's value is truthy; then the duration is derived
      from the timestamps when both are set. */
  function SyncMerge(r: CallRecord, s: CallSnapshot): (r': CallRecord)
    ensures r'.id == r.id && r'.patientId == r.patientId && r'.vapiCallId == r.vapiCallId
    ensures r'.status == s.status
    ensures s.startedAt.Some? ==> r'.startedAt == s.startedAt
    ensures s.startedAt.None? ==> r'.startedAt == r.startedAt
    ensures s.endedAt.Some? ==> r'.endedAt == s.endedAt
    ensures s.endedAt.None? ==> r'.endedAt == r.endedAt
    ensures r'.cost == (if TruthyNumber(s.cost) then s.cost else r.cost)
    ensures r'.transcript == (if Truthy(s.transcript) then s.transcript else r.transcript)
    ensures r'.summary == (if Truthy(s.summary) then s.summary else r.summary)
    ensures r'.recordingUrl == (if Truthy(s.recordingUrl) then s.recordingUrl else r.recordingUrl)
    ensures r'.costBreakdown == Overwrite(r.costBreakdown, s.costBreakdown)
    ensures r'.messages == Overwrite(r.messages, s.messages)
    ensures r'.analysis == Overwrite(r.analysis, s.analysis)
    ensures r'.startedAt.Some? && r'.endedAt.Some? ==>
              r'.duration == Some(DurationSeconds(r'.startedAt.value, r'.endedAt.value) as real)
    ensures !(r'.startedAt.Some? && r'.endedAt.Some?) ==> r'.duration == r.duration
  {
    var startedAt := Overwrite(r.startedAt, s.startedAt);
    var endedAt := Overwrite(r.endedAt, s.endedAt);
    r.(status := s.status,
       startedAt := startedAt,
       endedAt := endedAt,
       cost := if TruthyNumber(s.cost) then s.cost else r.cost,
       costBreakdown := Overwrite(r.costBreakdown, s.costBreakdown),
       transcript := if Truthy(s.transcript) then s.transcript else r.transcript,
       summary := if Truthy(s.summary) then s.summary else r.summary,
       recordingUrl := if Truthy(s.recordingUrl) then s.recordingUrl else r.recordingUrl,
       messages := Overwrite(r.messages, s.messages),
       analysis := Overwrite(r.analysis, s.analysis),
       duration :=
         if startedAt.Some? && endedAt.Some? then Some(DurationSeconds(startedAt.value, endedAt.value) as real)
         else r.duration)
  }

  /** The fetched call-log document, whose fields the sync assigns one
      after another before saving it. */
  class CallLogDocument {
    var id: string
    var patientId: string
    var vapiCallId: Option<string>
    var status: Option<string>
    var duration: Option<real>
    var cost: Option<real>
    var startedAt: Option<int>
    var endedAt: Option<int>
    var transcript: Option<string>
    var summary: Option<string>
    var recordingUrl: Option<string>
    var costBreakdown: Option<CostBreakdown>
    var messages: Option<seq<ChatMessage>>
    var analysis: Option<Analysis>

    /** The stored record the document holds. */
    function Record(): CallRecord
      reads this
    {
      CallRecord(id, patientId, vapiCallId, status, duration, cost, startedAt, endedAt,
                 transcript, summary, recordingUrl, costBreakdown, messages, analysis)
    }

    /** `findOne(...)`: the document loaded from a stored record. */
    constructor (r: CallRecord)
      ensures Record() == r
    {
      id, patientId, vapiCallId, status := r.id, r.patientId, r.vapiCallId, r.status;
      duration, cost, startedAt, endedAt := r.duration, r.cost, r.startedAt, r.endedAt;
      transcript, summary, recordingUrl := r.transcript, r.summary, r.recordingUrl;
      costBreakdown, messages, analysis := r.costBreakdown, r.messages, r.analysis;
    }

    /** The assignments of the sync, in the source's order, ending with the
        duration derived from the document's own timestamps. */
    method ApplySnapshot(s: CallSnapshot)
      modifies this
      ensures Record() == SyncMerge(old(Record()), s)
    {
      AssignStatusAndTimes(s);
      AssignCosts(s);
      AssignTexts(s);
      AssignConversation(s);
      DeriveDuration();
    }

    /** `status` always, `startedAt` and `endedAt` when the provider has them. */
    method AssignStatusAndTimes(s: CallSnapshot)
      modifies this
      ensures Record() == old(Record()).(status := s.status,
                                         startedAt := Overwrite(old(startedAt), s.startedAt),
                                         endedAt := Overwrite(old(endedAt), s.endedAt))
    {
      status := s.status;
      if s.startedAt.Some? {
        startedAt := s.startedAt;
      }
      if s.endedAt.Some? {
        endedAt := s.endedAt;
      }
    }

    /** The costs, copied only when the provider's value is truthy. */
    method AssignCosts(s: CallSnapshot)
      modifies this
      ensures Record() == old(Record()).(
        cost := if TruthyNumber(s.cost) then s.cost else old(cost),
        costBreakdown := Overwrite(old(costBreakdown), s.costBreakdown))
    {
      if TruthyNumber(s.cost) {
        cost := s.cost;
      }
      if s.costBreakdown.Some? {
        costBreakdown := s.costBreakdown;
      }
    }

    /** The texts, copied only when non-empty. */
    method AssignTexts(s: CallSnapshot)
      modifies this
      ensures Record() == old(Record()).(
        transcript := if Truthy(s.transcript) then s.transcript else old(transcript),
        summary := if Truthy(s.summary) then s.summary else old(summary),
        recordingUrl := if Truthy(s.recordingUrl) then s.recordingUrl else old(recordingUrl))
    {
      if Truthy(s.transcript) {
        transcript := s.transcript;
      }
      if Truthy(s.summary) {
        summary := s.summary;
      }
      if Truthy(s.recordingUrl) {
        recordingUrl := s.recordingUrl;
      }
    }

    /** The message list and the analysis, copied when present. */
    method AssignConversation(s: CallSnapshot)
      modifies this
      ensures Record() == old(Record()).(
        messages := Overwrite(old(messages), s.messages),
        analysis := Overwrite(old(analysis), s.analysis))
    {
      if s.messages.Some? {
        messages := s.messages;
      }
      if s.analysis.Some? {
        analysis := s.analysis;
      }
    }

    /** The duration, derived when both timestamps are set. */
    method DeriveDuration()
      modifies this
      ensures Record() == old(Record()).(duration :=
        if startedAt.Some? && endedAt.Some? then Some(DurationSeconds(startedAt.value, endedAt.value) as real)
        else old(duration))
    {
      if startedAt.Some? && endedAt.Some? {
        duration := Some(DurationSeconds(startedAt.value, endedAt.value) as real);
      }
    }
  }

  /** The endpoint's answers. */
  datatype SyncResponse =
    | MissingCallId
    | NotFound
    | NoProviderCallId
    | FetchFailed
    | SyncedCall(record: CallRecord, snapshot: CallSnapshot)

  function SyncHttpStatus(resp: SyncResponse): (code: int)
    ensures code == 400 <==> resp.MissingCallId? || resp.NoProviderCallId?
    ensures code == 404 <==> resp.NotFound?
    ensures code == 200 <==> resp.SyncedCall?
    ensures code == 500 <==> resp.FetchFailed?
  {
    match resp
    case MissingCallId => 400
    case NotFound => 404
    case NoProviderCallId => 400
    case FetchFailed => 500
    case SyncedCall(_, _) => 200
  }

  /** `findOne({ $or: [{ _id: callId }, { vapiCallId: callId }] })`: a log
      stored under that id, and otherwise the log carrying that provider
      call id. */
  function FindForSync(db: Store, callId: string): (r: Option<CallRecord>)
    ensures callId in db.calls ==> r == Some(db.calls[callId])
    ensures callId !in db.calls ==> r == FindByVapiCallId(db, callId)
  {
    if callId in db.calls then Some(db.calls[callId]) else FindByVapiCallId(db, callId)
  }

  /** `POST /api/calls/sync`: a missing id (400), an unknown log (404), a
      log without a provider call id (400) and a failed fetch (500) change
      nothing; otherwise the found log is replaced by its merge with the
      provider's view. */
  method SyncCall(db: Store, callId: Option<string>, fetch: string -> Option<CallSnapshot>)
    returns (resp: SyncResponse, db': Store)
    ensures !Truthy(callId) ==> resp == MissingCallId && db' == db
    ensures Truthy(callId) && FindForSync(db, callId.value).None? ==> resp == NotFound && db' == db
    ensures Truthy(callId) && FindForSync(db, callId.value).Some? && !Truthy(FindForSync(db, callId.value).value.vapiCallId) ==>
              resp == NoProviderCallId && db' == db
    ensures resp.FetchFailed? ==> db' == db
    ensures resp.SyncedCall? ==>
      && Truthy(callId) && FindForSync(db, callId.value).Some?
      && var log := FindForSync(db, callId.value).value;
         && Truthy(log.vapiCallId) && fetch(log.vapiCallId.value) == Some(resp.snapshot)
         && resp.record == SyncMerge(log, resp.snapshot)
         && db' == db.(calls := db.calls[log.id := resp.record])
    ensures resp.FetchFailed? || resp.SyncedCall? ==> Truthy(callId) && FindForSync(db, callId.value).Some?
    ensures resp.FetchFailed? <==>
      Truthy(callId) && FindForSync(db, callId.value).Some? && Truthy(FindForSync(db, callId.value).value.vapiCallId)
      && fetch(FindForSync(db, callId.value).value.vapiCallId.value).None?
    ensures resp.SyncedCall? <==>
      Truthy(callId) && FindForSync(db, callId.value).Some? && Truthy(FindForSync(db, callId.value).value.vapiCallId)
      && fetch(FindForSync(db, callId.value).value.vapiCallId.value).Some?
  {
    if !Truthy(callId) {
      return MissingCallId, db;
    }
    var found := FindForSync(db, callId.value);
    if found.None? {
      return NotFound, db;
    }
    var log := found.value;
    if !Truthy(log.vapiCallId) {
      return NoProviderCallId, db;
    }
    var snapshot := fetch(log.vapiCallId.value);
    if snapshot.None? {
      return FetchFailed, db;
    }
    var doc := new CallLogDocument(log);
    doc.ApplySnapshot(snapshot.value);
    var saved := doc.Record();
    resp, db' := SyncedCall(saved, snapshot.value), db.(calls := db.calls[log.id := saved]);
  }

  // ---------------------------------------------------------------------
  // Properties of the sync

  /** Syncing the same provider view twice leaves the record as syncing it
      once: every write is an overwrite, and the duration is recomputed
      from the same timestamps. */
  lemma {:induction false} SyncReplay(r: CallRecord, s: CallSnapshot)
    ensures SyncMerge(SyncMerge(r, s), s) == SyncMerge(r, s)
  {
    var once := SyncMerge(r, s);
    var twice := SyncMerge(once, s);
    assert twice.startedAt == once.startedAt && twice.endedAt == once.endedAt;
    assert twice.duration == once.duration;
  }

  /** Unlike the webhook's first-write-wins rule, a sync replaces a stored
      start instant with the provider's: for the same stored record and the
      same reported start, the end-of-call report keeps the stored instant
      and the sync takes the reported one. */
  lemma SyncOverridesStoredStart(r: CallRecord, s: CallSnapshot, m: WebhookMessage)
    requires r.startedAt.Some? && s.startedAt.Some? && m.startedAt == s.startedAt
    ensures SyncMerge(r, s).startedAt == s.startedAt
    ensures ApplyCallLogUpdate(r, EndOfCallUpdate(r, m)).startedAt == r.startedAt
  {
  }

  /** A provider cost of zero is falsy and leaves the stored cost as it was. */
  lemma ZeroCostKept(r: CallRecord, s: CallSnapshot)
    requires s.cost == Some(0.0)
    ensures SyncMerge(r, s).cost == r.cost
  {
  }

  /** A successful sync keeps the store valid: the replaced log keeps its id
      and provider call id. */
  lemma {:induction false} SyncKeepsValid(db: Store, callId: string, s: CallSnapshot)
    requires Valid(db) && FindForSync(db, callId).Some?
    ensures var log := FindForSync(db, callId).value;
      Valid(db.(calls := db.calls[log.id := SyncMerge(log, s)]))
  {
    var log := FindForSync(db, callId).value;
    assert log.id in db.calls && db.calls[log.id] == log;
    ReplaceCallKeepsValid(db, log.id, SyncMerge(log, s));
  }
}
