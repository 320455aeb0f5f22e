/** The stored records the webhook and the sync endpoint reconcile: the call
    log (`CallLogDocument`) and the patient (`PatientDocument`), and the store
    that holds them, keyed by internal id with a unique index on the
    provider's call id. Instants are milliseconds since the epoch. */
module Records {
  import opened Values
  import opened Fields

  /** One transcript turn as the provider reports it; stored verbatim. */
  datatype ChatMessage = ChatMessage(role: string, message: Option<string>, secondsFromStart: Option<real>)

  /** The named sub-costs of a call. */
  datatype CostBreakdown = CostBreakdown(
    transport: Option<real>, stt: Option<real>, llm: Option<real>,
    tts: Option<real>, vapi: Option<real>, total: Option<real>)

  /** The provider's post-call analysis. */
  datatype Analysis = Analysis(
    summary: Option<string>, structuredData: Option<StructuredData>, successEvaluation: Option<string>)

  datatype CallRecord = CallRecord(
    id: string,
    patientId: string,
    vapiCallId: Option<string>,
    status: Option<string>,
    duration: Option<real>,
    cost: Option<real>,
    startedAt: Option<int>,
    endedAt: Option<int>,
    transcript: Option<string>,
    summary: Option<string>,
    recordingUrl: Option<string>,
    costBreakdown: Option<CostBreakdown>,
    messages: Option<seq<ChatMessage>>,
    analysis: Option<Analysis>)

  datatype Address = Address(
    street: Option<string>, city: Option<string>, state: Option<string>,
    zipCode: Option<string>, country: Option<string>)

  datatype Insurance = Insurance(provider: Option<string>, policyNumber: Option<string>, groupNumber: Option<string>)

  datatype Income = Income(annualIncome: Option<real>, currency: Option<string>, verified: Option<bool>)

  datatype FamilyIncome = FamilyIncome(annualIncome: real, currency: string)

  datatype FamilyMember = FamilyMember(
    name: string, relationship: Option<string>, dateOfBirth: Option<int>, income: Option<FamilyIncome>)

  datatype Patient = Patient(
    id: string,
    name: string,
    phone: string,
    email: Option<string>,
    address: Option<Address>,
    dateOfBirth: Option<int>,
    mrn: Option<string>,
    insurance: Option<Insurance>,
    pregnancyStatus: Option<PregnancyStatus>,
    income: Option<Income>,
    usCitizenshipStatus: Option<CitizenshipStatus>,
    asyleeRefugeeStatus: Option<AsyleeRefugeeStatus>,
    familyMembers: Option<seq<FamilyMember>>)

  /** The `call` object of a webhook message: only the fields the handlers read. */
  datatype ProviderCall = ProviderCall(id: Option<string>, status: Option<string>, transcript: Option<string>)

  /** A webhook `message`, reduced to the fields the handlers read.
      `recordingCombinedUrl` is `artifact.recording.mono.combinedUrl`; the
      provider's `startedAt` / `endedAt` strings arrive here already read as
      instants, `None` standing for an absent or empty string. */
  datatype WebhookMessage = WebhookMessage(
    msgType: Option<string>,
    call: Option<ProviderCall>,
    recordingCombinedUrl: Option<string>,
    transcript: Option<string>,
    startedAt: Option<int>,
    endedAt: Option<int>,
    cost: Option<real>,
    costBreakdown: Option<CostBreakdown>,
    durationSeconds: Option<real>,
    summary: Option<string>,
    messages: Option<seq<ChatMessage>>,
    recordingUrl: Option<string>,
    analysis: Option<Analysis>)

  /** The two collections. `callIndex` is the unique, sparse index on
      `vapiCallId`: provider call id to the internal id of its call log. */
  datatype Store = Store(
    calls: map<string, CallRecord>,
    callIndex: map<string, string>,
    patients: map<string, Patient>)

  /** Every record sits under its own id, and the index holds exactly the
      provider call ids the records carry, each pointing at its record. */
  ghost predicate Valid(db: Store) {
    && (forall id :: id in db.calls ==> db.calls[id].id == id)
    && (forall v :: v in db.callIndex ==> db.callIndex[v] in db.calls && db.calls[db.callIndex[v]].vapiCallId == Some(v))
    && (forall id :: id in db.calls && db.calls[id].vapiCallId.Some? ==>
          db.calls[id].vapiCallId.value in db.callIndex && db.callIndex[db.calls[id].vapiCallId.value] == id)
    && (forall id :: id in db.patients ==> db.patients[id].id == id)
  }

  /** `CallLog.findOne({ vapiCallId: callId })`. */
  function FindByVapiCallId(db: Store, callId: string): Option<CallRecord> {
    if callId in db.callIndex && db.callIndex[callId] in db.calls then Some(db.calls[db.callIndex[callId]]) else None
  }

  /** In a valid store the index lookup finds a record exactly when one
      carries that provider call id, and then it finds that record. */
  lemma {:induction false} FindByVapiCallIdExact(db: Store, callId: string, r: CallRecord)
    requires Valid(db)
    ensures FindByVapiCallId(db, callId) == Some(r) <==> r in db.calls.Values && r.vapiCallId == Some(callId)
  {
    if r in db.calls.Values && r.vapiCallId == Some(callId) {
      var id :| id in db.calls && db.calls[id] == r;
      assert db.callIndex[callId] == id;
    }
  }

  /** Replacing a record by one with the same id and provider call id keeps
      the store valid. */
  lemma {:induction false} ReplaceCallKeepsValid(db: Store, id: string, r: CallRecord)
    requires Valid(db) && id in db.calls
    requires r.id == db.calls[id].id && r.vapiCallId == db.calls[id].vapiCallId
    ensures Valid(db.(calls := db.calls[id := r]))
  {
    var db' := db.(calls := db.calls[id := r]);
    forall v | v in db'.callIndex
      ensures db'.callIndex[v] in db'.calls && db'.calls[db'.callIndex[v]].vapiCallId == Some(v)
    {
      assert db.callIndex[v] in db.calls;
    }
  }
}
