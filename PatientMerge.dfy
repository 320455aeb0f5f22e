/** The patient merge engine behind the end-of-call report: the provider's
    structured data is normalised field by field into a staged patient
    update, which is written only when it holds something. */
module PatientMerge {
  import opened Values
  import opened Text
  import opened Fields
  import opened Records

  /** The host's parsers: `new Date(s)` followed by the `isNaN(getTime())`
      test, and `parseFloat(s)` followed by the `isNaN` test. `None` is the
      not-a-number outcome. */
  datatype Parsers = Parsers(parseDate: string -> Option<int>, parseNumber: string -> Option<real>)

  /** The patient fields the merge can stage, in the order it visits them. */
  datatype PatientField =
    | NameField | PhoneField | EmailField | AddressField | DateOfBirthField | MrnField
    | InsuranceField | PregnancyStatusField | IncomeField | UsCitizenshipStatusField
    | AsyleeRefugeeStatusField | FamilyMembersField

  /** A staged patient update; a present field replaces the stored one. */
  datatype PatientUpdate = PatientUpdate(
    name: Option<string>,
    phone: Option<string>,
    email: Option<string>,
    address: Option<Address>,
    dateOfBirth: Option<int>,
    mrn: Option<string>,
    insurance: Option<Insurance>,
    pregnancyStatus: Option<PregnancyStatus>,
    income: Option<Income>,
    usCitizenshipStatus: Option<CitizenshipStatus>,
    asyleeRefugeeStatus: Option<AsyleeRefugeeStatus>,
    familyMembers: Option<seq<FamilyMember>>)

  const NoPatientChange := PatientUpdate(None, None, None, None, None, None, None, None, None, None, None, None)

  /** Whether the staged update writes a given field. */
  predicate Written(u: PatientUpdate, f: PatientField) {
    match f
    case NameField => u.name.Some?
    case PhoneField => u.phone.Some?
    case EmailField => u.email.Some?
    case AddressField => u.address.Some?
    case DateOfBirthField => u.dateOfBirth.Some?
    case MrnField => u.mrn.Some?
    case InsuranceField => u.insurance.Some?
    case PregnancyStatusField => u.pregnancyStatus.Some?
    case IncomeField => u.income.Some?
    case UsCitizenshipStatusField => u.usCitizenshipStatus.Some?
    case AsyleeRefugeeStatusField => u.asyleeRefugeeStatus.Some?
    case FamilyMembersField => u.familyMembers.Some?
  }

  /** `findByIdAndUpdate(patientId, updateData)`: each staged field replaces
      the stored one and the identity of the patient is kept. */
  function ApplyPatientUpdate(p: Patient, u: PatientUpdate): (p': Patient)
    ensures p'.id == p.id
    ensures u == NoPatientChange ==> p' == p
    ensures u.name.Some? ==> p'.name == u.name.value
    ensures u.name.None? ==> p'.name == p.name
    ensures u.phone.Some? ==> p'.phone == u.phone.value
    ensures u.phone.None? ==> p'.phone == p.phone
    ensures p'.email == Overwrite(p.email, u.email)
    ensures p'.address == Overwrite(p.address, u.address)
    ensures p'.dateOfBirth == Overwrite(p.dateOfBirth, u.dateOfBirth)
    ensures p'.mrn == Overwrite(p.mrn, u.mrn)
    ensures p'.insurance == Overwrite(p.insurance, u.insurance)
    ensures p'.pregnancyStatus == Overwrite(p.pregnancyStatus, u.pregnancyStatus)
    ensures p'.income == Overwrite(p.income, u.income)
    ensures p'.usCitizenshipStatus == Overwrite(p.usCitizenshipStatus, u.usCitizenshipStatus)
    ensures p'.asyleeRefugeeStatus == Overwrite(p.asyleeRefugeeStatus, u.asyleeRefugeeStatus)
    ensures p'.familyMembers == Overwrite(p.familyMembers, u.familyMembers)
  {
    Patient(
      p.id,
      if u.name.Some? then u.name.value else p.name,
      if u.phone.Some? then u.phone.value else p.phone,
      Overwrite(p.email, u.email),
      Overwrite(p.address, u.address),
      Overwrite(p.dateOfBirth, u.dateOfBirth),
      Overwrite(p.mrn, u.mrn),
      Overwrite(p.insurance, u.insurance),
      Overwrite(p.pregnancyStatus, u.pregnancyStatus),
      Overwrite(p.income, u.income),
      Overwrite(p.usCitizenshipStatus, u.usCitizenshipStatus),
      Overwrite(p.asyleeRefugeeStatus, u.asyleeRefugeeStatus),
      Overwrite(p.familyMembers, u.familyMembers))
  }

  // ---------------------------------------------------------------------
  // Nested objects

  /** `{ ...patient.address, street }`: the street is replaced and every
      other stored sub-field is kept. */
  function WithStreet(stored: Option<Address>, street: string): (a: Address)
    ensures a.street == Some(street)
    ensures stored.Some? ==> a == stored.value.(street := Some(street))
    ensures stored.None? ==> a.city.None? && a.state.None? && a.zipCode.None? && a.country.None?
  {
    if stored.Some? then stored.value.(street := Some(street)) else Address(Some(street), None, None, None, None)
  }

  /** `{ ...patient.insurance, provider }`: the provider is replaced and the
      stored policy and group numbers are kept. */
  function WithProvider(stored: Option<Insurance>, provider: string): (i: Insurance)
    ensures i.provider == Some(provider)
    ensures stored.Some? ==> i.policyNumber == stored.value.policyNumber && i.groupNumber == stored.value.groupNumber
    ensures stored.None? ==> i.policyNumber.None? && i.groupNumber.None?
  {
    if stored.Some? then stored.value.(provider := Some(provider)) else Insurance(Some(provider), None, None)
  }

  /** `{ ...patient.income, annualIncome, currency: 'USD', verified: true }`:
      the three stored sub-fields are all overwritten. */
  function VerifiedIncome(amount: real): (i: Income)
    ensures i.annualIncome == Some(amount) && i.currency == Some("USD") && i.verified == Some(true)
  {
    Income(Some(amount), Some("USD"), Some(true))
  }

  // ---------------------------------------------------------------------
  // Field normalisation

  /** The date of birth staged from `date_of_birth`: the value is trimmed,
      a "D M YYYY" literal is rewritten to `YYYY-MM-DD`, and the host's date
      parser decides; an unparseable date stages nothing. */
  function DateOfBirthFor(data: StructuredData, ps: Parsers): (d: Option<int>)
    ensures FieldValue(data, "date_of_birth").None? ==> d.None?
  {
    var v := FieldValue(data, "date_of_birth");
    if v.Some? then ps.parseDate(RewriteDayMonthYear(Trim(v.value))) else None
  }

  /** The insurance provider staged from `insurance`: a value that is blank
      after trimming, or whose untrimmed lower-case form is exactly "no",
      stages nothing. */
  function InsuranceProviderFor(data: StructuredData): (r: Option<string>)
    ensures r.Some? ==> FieldValue(data, "insurance").Some? && ToLower(FieldValue(data, "insurance").value) != "no"
    ensures r.Some? ==> r == TrimmedText(FieldValue(data, "insurance"))
    ensures FieldValue(data, "insurance").Some? && ToLower(FieldValue(data, "insurance").value) != "no" ==>
              r == TrimmedText(FieldValue(data, "insurance"))
  {
    var v := FieldValue(data, "insurance");
    if TrimmedText(v).Some? && ToLower(v.value) != "no" then TrimmedText(v) else None
  }

  /** An amount staged from an income key: the parsed value when it is a
      positive number. */
  function AmountFor(data: StructuredData, key: string, ps: Parsers): (r: Option<real>)
    ensures r.Some? ==> r.value > 0.0
    ensures FieldValue(data, key).None? ==> r.None?
    ensures FieldValue(data, key).Some? ==> r == PositiveAmount(ps.parseNumber(FieldValue(data, key).value))
  {
    var v := FieldValue(data, key);
    if v.Some? then PositiveAmount(ps.parseNumber(v.value)) else None
  }

  // ---------------------------------------------------------------------
  // Family members

  /** Two names denote the same family member when they agree after
      lower-casing. */
  predicate SameName(a: string, b: string) {
    ToLower(a) == ToLower(b)
  }

  /** `findIndex` by case-insensitive name: the first position whose name
      matches, or -1 when none does. */
  function FirstMatch(members: seq<FamilyMember>, name: string): (i: int)
    ensures -1 <= i < |members|
    ensures i >= 0 ==> SameName(members[i].name, name)
    ensures i >= 0 ==> forall j :: 0 <= j < i ==> !SameName(members[j].name, name)
    ensures i == -1 ==> forall j :: 0 <= j < |members| ==> !SameName(members[j].name, name)
  {
    if members == [] then -1
    else if SameName(members[0].name, name) then 0
    else
      var k := FirstMatch(members[1..], name);
      if k == -1 then -1 else k + 1
  }

  /** The index search, as the source runs it: a scan from the front that
      stops at the first matching name. */
  method FindMemberIndex(members: seq<FamilyMember>, name: string) returns (index: int)
    ensures index == FirstMatch(members, name)
  {
    var k := 0;
    while k < |members|
      invariant 0 <= k <= |members|
      invariant forall j :: 0 <= j < k ==> !SameName(members[j].name, name)
    {
      if ToLower(members[k].name) == ToLower(name) {
        index := k;
        FirstMatchUnique(members, name, k);
        return;
      }
      k := k + 1;
    }
    index := -1;
    FirstMatchUnique(members, name, -1);
  }

  /** The contract of `FirstMatch` pins down its value. */
  lemma FirstMatchUnique(members: seq<FamilyMember>, name: string, i: int)
    requires -1 <= i < |members|
    requires i >= 0 ==> SameName(members[i].name, name) && forall j :: 0 <= j < i ==> !SameName(members[j].name, name)
    requires i == -1 ==> forall j :: 0 <= j < |members| ==> !SameName(members[j].name, name)
    ensures FirstMatch(members, name) == i
  {
  }

  /** `{ ...existing, ...candidate }`: the candidate's name always wins (so
      the stored casing is replaced), its other fields win where present. */
  function Overlay(existing: FamilyMember, candidate: FamilyMember): (r: FamilyMember)
    ensures r.name == candidate.name
    ensures r.relationship == (if candidate.relationship.Some? then candidate.relationship else existing.relationship)
    ensures r.dateOfBirth == (if candidate.dateOfBirth.Some? then candidate.dateOfBirth else existing.dateOfBirth)
    ensures r.income == (if candidate.income.Some? then candidate.income else existing.income)
  {
    FamilyMember(
      candidate.name,
      Overwrite(existing.relationship, candidate.relationship),
      Overwrite(existing.dateOfBirth, candidate.dateOfBirth),
      Overwrite(existing.income, candidate.income))
  }

  /** The family list after merging a candidate: appended when no name
      matches, otherwise overlaid on the first match. */
  function MergedMembers(existing: seq<FamilyMember>, candidate: FamilyMember): seq<FamilyMember> {
    var i := FirstMatch(existing, candidate.name);
    if i == -1 then existing + [candidate] else existing[i := Overlay(existing[i], candidate)]
  }

  /** With no matching name the list grows by exactly the candidate; with
      one, the length is kept, the first match becomes the overlay, and
      every other entry is untouched. */
  lemma MergeShape(existing: seq<FamilyMember>, candidate: FamilyMember)
    ensures var r := MergedMembers(existing, candidate);
      && (FirstMatch(existing, candidate.name) == -1 ==>
            |r| == |existing| + 1 && r[..|existing|] == existing && r[|existing|] == candidate)
      && (FirstMatch(existing, candidate.name) >= 0 ==>
            |r| == |existing|
            && r[FirstMatch(existing, candidate.name)] == Overlay(existing[FirstMatch(existing, candidate.name)], candidate)
            && forall j :: 0 <= j < |r| && j != FirstMatch(existing, candidate.name) ==> r[j] == existing[j])
  {
  }

  /** Merging the same candidate twice leaves the list as merging it once. */
  lemma {:induction false} MergeIdempotent(existing: seq<FamilyMember>, candidate: FamilyMember)
    ensures MergedMembers(MergedMembers(existing, candidate), candidate) == MergedMembers(existing, candidate)
  {
    var i := FirstMatch(existing, candidate.name);
    var r := MergedMembers(existing, candidate);
    if i == -1 {
      assert r == existing + [candidate];
      assert r[|existing|] == candidate;
      FirstMatchUnique(r, candidate.name, |existing|);
      assert r[|existing| := Overlay(r[|existing|], candidate)] == r;
    } else {
      assert r == existing[i := Overlay(existing[i], candidate)];
      FirstMatchUnique(r, candidate.name, i);
      assert Overlay(r[i], candidate) == r[i];
    }
  }

  /** The candidate built from `family_member_name` and its companions, when
      the name is not blank: the relationship is lower-cased and trimmed,
      the date of birth goes to the host parser untrimmed and without the
      "D M YYYY" rewrite, and an income is kept only when positive. */
  function CandidateFor(data: StructuredData, ps: Parsers): (c: Option<FamilyMember>)
    ensures c.Some? <==> TrimmedText(FieldValue(data, "family_member_name")).Some?
    ensures c.Some? ==> c.value.name == TrimmedText(FieldValue(data, "family_member_name")).value
    ensures c.Some? && c.value.income.Some? ==> c.value.income.value.annualIncome > 0.0 && c.value.income.value.currency == "USD"
    ensures c.Some? ==> (c.value.income.Some? <==> AmountFor(data, "family_member_income", ps).Some?)
    ensures c.Some? && c.value.income.Some? ==>
              c.value.income.value == FamilyIncome(AmountFor(data, "family_member_income", ps).value, "USD")
    ensures c.Some? ==> (c.value.relationship.Some? <==> TrimmedText(FieldValue(data, "relationship")).Some?)
    ensures c.Some? && c.value.relationship.Some? ==> c.value.relationship.value == Trim(ToLower(FieldValue(data, "relationship").value))
    ensures c.Some? ==> (c.value.dateOfBirth.Some? ==> FieldValue(data, "family_member_dob").Some?)
    ensures c.Some? && FieldValue(data, "family_member_dob").Some? ==>
              c.value.dateOfBirth == ps.parseDate(FieldValue(data, "family_member_dob").value)
  {
    var name := TrimmedText(FieldValue(data, "family_member_name"));
    if name.None? then None
    else
      var rel := FieldValue(data, "relationship");
      var dob := FieldValue(data, "family_member_dob");
      var amount := AmountFor(data, "family_member_income", ps);
      Some(FamilyMember(
        name.value,
        if TrimmedText(rel).Some? then Some(Trim(ToLower(rel.value))) else None,
        if dob.Some? then ps.parseDate(dob.value) else None,
        if amount.Some? then Some(FamilyIncome(amount.value, "USD")) else None))
  }

  // ---------------------------------------------------------------------
  // The staged update

  /** The update the merge stages for a stored patient. */
  function PatientUpdateFor(p: Patient, data: StructuredData, ps: Parsers): PatientUpdate {
    var street := TrimmedText(FieldValue(data, "address"));
    var provider := InsuranceProviderFor(data);
    var pregnancy := FieldValue(data, "is_pregnant");
    var amount := AmountFor(data, "income", ps);
    var citizen := FieldValue(data, "is_us_citizen");
    var asylee := FieldValue(data, "is_asylee_or_refugee");
    var candidate := CandidateFor(data, ps);
    PatientUpdate(
      name := TrimmedText(FieldValue(data, "patient_name")),
      phone := TrimmedText(FieldValue(data, "patient_phone")),
      email := TrimmedText(FieldValue(data, "email")),
      address := if street.Some? then Some(WithStreet(p.address, street.value)) else None,
      dateOfBirth := DateOfBirthFor(data, ps),
      mrn := TrimmedText(FieldValue(data, "mrn")),
      insurance := if provider.Some? then Some(WithProvider(p.insurance, provider.value)) else None,
      pregnancyStatus := if pregnancy.Some? then Some(PregnancyFromAnswer(pregnancy.value)) else None,
      income := if amount.Some? then Some(VerifiedIncome(amount.value)) else None,
      usCitizenshipStatus := if citizen.Some? then CitizenshipFromAnswer(citizen.value) else None,
      asyleeRefugeeStatus := if asylee.Some? then AsyleeFromAnswer(asylee.value) else None,
      familyMembers :=
        if candidate.Some? then Some(MergedMembers(if p.familyMembers.Some? then p.familyMembers.value else [], candidate.value))
        else None)
  }

  /** `if (cond) fields.push(x)`. */
  function PushIf(xs: seq<PatientField>, cond: bool, x: PatientField): (r: seq<PatientField>)
    ensures cond ==> r == xs + [x]
    ensures !cond ==> r == xs
    ensures forall f :: f in r <==> f in xs || (cond && f == x)
  {
    if cond then xs + [x] else xs
  }

  /** `fieldsProcessed`: the fields the update writes, in visiting order,
      except that the yes/no answers are listed whenever an answer was
      given, even one that maps to no status. */
  function ProcessedFields(u: PatientUpdate, citizenAnswered: bool, asyleeAnswered: bool): seq<PatientField> {
    var s := PushIf([], u.name.Some?, NameField);
    var s := PushIf(s, u.phone.Some?, PhoneField);
    var s := PushIf(s, u.email.Some?, EmailField);
    var s := PushIf(s, u.address.Some?, AddressField);
    var s := PushIf(s, u.dateOfBirth.Some?, DateOfBirthField);
    var s := PushIf(s, u.mrn.Some?, MrnField);
    var s := PushIf(s, u.insurance.Some?, InsuranceField);
    var s := PushIf(s, u.pregnancyStatus.Some?, PregnancyStatusField);
    var s := PushIf(s, u.income.Some?, IncomeField);
    var s := PushIf(s, citizenAnswered, UsCitizenshipStatusField);
    var s := PushIf(s, asyleeAnswered, AsyleeRefugeeStatusField);
    PushIf(s, u.familyMembers.Some?, FamilyMembersField)
  }

  /** The `value?.trim()` guard followed by staging the trimmed value. */
  method StageTrimmed(data: StructuredData, key: string) returns (v: Option<string>)
    ensures v == TrimmedText(FieldValue(data, key))
  {
    v := None;
    var raw := FieldValue(data, key);
    if raw.Some? && Trim(raw.value) != "" {
      v := Some(Trim(raw.value));
    }
  }

  /** The date-of-birth block: trim, rewrite a "D M YYYY" literal, parse,
      and stage only a valid date. */
  method StageDateOfBirth(data: StructuredData, ps: Parsers) returns (d: Option<int>)
    ensures d == DateOfBirthFor(data, ps)
  {
    d := None;
    var dob := FieldValue(data, "date_of_birth");
    if dob.Some? {
      var dateStr := Trim(dob.value);
      var parts := MatchDayMonthYear(dateStr);
      if parts.Some? {
        dateStr := IsoDate(parts.value.0, parts.value.1, parts.value.2);
      }
      var parsed := ps.parseDate(dateStr);
      if parsed.Some? {
        d := parsed;
      }
    }
  }

  /** The insurance block's guard: a non-blank value whose untrimmed
      lower-case form is not "no" stages its trimmed form. */
  method StageInsuranceProvider(data: StructuredData) returns (provider: Option<string>)
    ensures provider == InsuranceProviderFor(data)
  {
    provider := None;
    var plan := FieldValue(data, "insurance");
    if plan.Some? && Trim(plan.value) != "" && ToLower(plan.value) != "no" {
      provider := Some(Trim(plan.value));
    }
  }

  /** The income blocks' guard: `parseFloat`, then stage only a positive
      number. */
  method StagePositiveAmount(data: StructuredData, key: string, ps: Parsers) returns (amount: Option<real>)
    ensures amount == AmountFor(data, key, ps)
  {
    amount := None;
    var raw := FieldValue(data, key);
    if raw.Some? {
      var value := ps.parseNumber(raw.value);
      if value.Some? && value.value > 0.0 {
        amount := value;
      }
    }
  }

  /** The identity and contact half of the staging: name, phone, e-mail,
      street address, date of birth and record number. */
  method StageContact(p: Patient, data: StructuredData, ps: Parsers)
    returns (name: Option<string>, phone: Option<string>, email: Option<string>,
             address: Option<Address>, dateOfBirth: Option<int>, mrn: Option<string>)
    ensures var w := PatientUpdateFor(p, data, ps);
      && name == w.name && phone == w.phone && email == w.email
      && address == w.address && dateOfBirth == w.dateOfBirth && mrn == w.mrn
  {
    name := StageTrimmed(data, "patient_name");
    phone := StageTrimmed(data, "patient_phone");
    email := StageTrimmed(data, "email");
    var street := StageTrimmed(data, "address");
    address := None;
    if street.Some? {
      address := Some(WithStreet(p.address, street.value));
    }
    dateOfBirth := StageDateOfBirth(data, ps);
    mrn := StageTrimmed(data, "mrn");
  }

  /** The eligibility half of the staging: insurance provider, pregnancy,
      income, citizenship and asylee or refugee status. */
  method StageEligibility(p: Patient, data: StructuredData, ps: Parsers)
    returns (insurance: Option<Insurance>, pregnancyStatus: Option<PregnancyStatus>, income: Option<Income>,
             citizenship: Option<CitizenshipStatus>, asylee: Option<AsyleeRefugeeStatus>)
    ensures var w := PatientUpdateFor(p, data, ps);
      && insurance == w.insurance && pregnancyStatus == w.pregnancyStatus && income == w.income
      && citizenship == w.usCitizenshipStatus && asylee == w.asyleeRefugeeStatus
  {
    insurance, pregnancyStatus, income, citizenship, asylee := None, None, None, None, None;
    var provider := StageInsuranceProvider(data);
    if provider.Some? {
      insurance := Some(WithProvider(p.insurance, provider.value));
    }
    var isPregnant := FieldValue(data, "is_pregnant");
    if isPregnant.Some? {
      pregnancyStatus := Some(PregnancyFromAnswer(isPregnant.value));
    }
    var amount := StagePositiveAmount(data, "income", ps);
    if amount.Some? {
      income := Some(VerifiedIncome(amount.value));
    }
    var isUsCitizen := FieldValue(data, "is_us_citizen");
    if isUsCitizen.Some? {
      citizenship := CitizenshipFromAnswer(isUsCitizen.value);
    }
    var isAsylee := FieldValue(data, "is_asylee_or_refugee");
    if isAsylee.Some? {
      asylee := AsyleeFromAnswer(isAsylee.value);
    }
  }

  /** The staging half of `updatePatientFromStructuredData`: each field the
      extracted data supplies is normalised under its own guard, and the
      fields processed are listed in the order they are looked at. */
  method StagePatientUpdate(p: Patient, data: StructuredData, ps: Parsers) returns (u: PatientUpdate, processed: seq<PatientField>)
    ensures u == PatientUpdateFor(p, data, ps)
    ensures processed == ProcessedFields(u, FieldValue(data, "is_us_citizen").Some?, FieldValue(data, "is_asylee_or_refugee").Some?)
  {
    var name, phone, email, address, dateOfBirth, mrn := StageContact(p, data, ps);
    var insurance, pregnancyStatus, income, citizenship, asylee := StageEligibility(p, data, ps);
    var existing := if p.familyMembers.Some? then p.familyMembers.value else [];
    var familyMembers := StageFamilyMember(existing, data, ps);
    u := PatientUpdate(name, phone, email, address, dateOfBirth, mrn, insurance,
                       pregnancyStatus, income, citizenship, asylee, familyMembers);

    processed := [];
    processed := PushIf(processed, name.Some?, NameField);
    processed := PushIf(processed, phone.Some?, PhoneField);
    processed := PushIf(processed, email.Some?, EmailField);
    processed := PushIf(processed, address.Some?, AddressField);
    processed := PushIf(processed, dateOfBirth.Some?, DateOfBirthField);
    processed := PushIf(processed, mrn.Some?, MrnField);
    processed := PushIf(processed, insurance.Some?, InsuranceField);
    processed := PushIf(processed, pregnancyStatus.Some?, PregnancyStatusField);
    processed := PushIf(processed, income.Some?, IncomeField);
    processed := PushIf(processed, FieldValue(data, "is_us_citizen").Some?, UsCitizenshipStatusField);
    processed := PushIf(processed, FieldValue(data, "is_asylee_or_refugee").Some?, AsyleeRefugeeStatusField);
    processed := PushIf(processed, familyMembers.Some?, FamilyMembersField);
  }

  /** The family-member half of the staging: a candidate is built from the
      family fields and merged into the stored list by name. */
  method StageFamilyMember(existing: seq<FamilyMember>, data: StructuredData, ps: Parsers) returns (members: Option<seq<FamilyMember>>)
    ensures CandidateFor(data, ps).None? ==> members.None?
    ensures CandidateFor(data, ps).Some? ==> members == Some(MergedMembers(existing, CandidateFor(data, ps).value))
  {
    members := None;
    var memberName := FieldValue(data, "family_member_name");
    if memberName.Some? && Trim(memberName.value) != "" {
      var member := FamilyMember(Trim(memberName.value), None, None, None);
      var relationship := FieldValue(data, "relationship");
      if relationship.Some? && Trim(relationship.value) != "" {
        member := member.(relationship := Some(Trim(ToLower(relationship.value))));
      }
      var memberDob := FieldValue(data, "family_member_dob");
      if memberDob.Some? {
        var parsed := ps.parseDate(memberDob.value);
        if parsed.Some? {
          member := member.(dateOfBirth := parsed);
        }
      }
      var amount := StagePositiveAmount(data, "family_member_income", ps);
      if amount.Some? {
        member := member.(income := Some(FamilyIncome(amount.value, "USD")));
      }
      var index := FindMemberIndex(existing, member.name);
      if index == -1 {
        members := Some(existing + [member]);
      } else {
        var updated := existing;
        updated := updated[index := Overlay(updated[index], member)];
        members := Some(updated);
      }
    }
  }

  // ---------------------------------------------------------------------
  // The write

  /** What the merge reports back to the end-of-call handler. */
  datatype PatientOutcome =
    | PatientNotFound
    | NoValidData(processed: seq<PatientField>)
    | PatientUpdated(processed: seq<PatientField>, patient: Patient)

  /** The outcome of folding structured data into the patient collection,
      and the collection afterwards: an unknown patient and an update that
      stages nothing leave the collection as it was; otherwise exactly that
      patient is replaced, under the same id. */
  function MergeIntoPatients(patients: map<string, Patient>, patientId: string, data: StructuredData, ps: Parsers)
    : (r: (PatientOutcome, map<string, Patient>))
    ensures patientId !in patients <==> r.0 == PatientNotFound
    ensures r.0.PatientNotFound? || r.0.NoValidData? ==> r.1 == patients
    ensures r.0.PatientUpdated? ==> patientId in patients && r.1 == patients[patientId := r.0.patient]
    ensures r.0.PatientUpdated? ==> r.0.patient.id == patients[patientId].id
    ensures r.0.PatientUpdated? ==>
      r.0.patient == ApplyPatientUpdate(patients[patientId], PatientUpdateFor(patients[patientId], data, ps))
    ensures patientId in patients ==> (r.0.NoValidData? <==> PatientUpdateFor(patients[patientId], data, ps) == NoPatientChange)
    ensures !r.0.PatientNotFound? ==>
      r.0.processed == ProcessedFields(PatientUpdateFor(patients[patientId], data, ps),
                                       FieldValue(data, "is_us_citizen").Some?, FieldValue(data, "is_asylee_or_refugee").Some?)
  {
    if patientId !in patients then (PatientNotFound, patients)
    else
      var u := PatientUpdateFor(patients[patientId], data, ps);
      var processed := ProcessedFields(u, FieldValue(data, "is_us_citizen").Some?, FieldValue(data, "is_asylee_or_refugee").Some?);
      if u == NoPatientChange then (NoValidData(processed), patients)
      else
        var p' := ApplyPatientUpdate(patients[patientId], u);
        (PatientUpdated(processed, p'), patients[patientId := p'])
  }

  /** `updatePatientFromStructuredData`: looks the patient up, stages the
      update, and writes it only when it stages at least one field. */
  method UpdatePatientFromStructuredData(patients: map<string, Patient>, patientId: string, data: StructuredData, ps: Parsers)
    returns (outcome: PatientOutcome, patients': map<string, Patient>)
    ensures (outcome, patients') == MergeIntoPatients(patients, patientId, data, ps)
  {
    if patientId !in patients {
      return PatientNotFound, patients;
    }
    var patient := patients[patientId];
    var u, processed := StagePatientUpdate(patient, data, ps);
    if u != NoPatientChange {
      var updated := ApplyPatientUpdate(patient, u);
      outcome, patients' := PatientUpdated(processed, updated), patients[patientId := updated];
    } else {
      outcome, patients' := NoValidData(processed), patients;
    }
  }

  // ---------------------------------------------------------------------
  // Properties of the merge

  /** The write is skipped exactly when no field is staged. */
  lemma {:induction false} NoChangeIffNothingWritten(u: PatientUpdate)
    ensures u == NoPatientChange <==> forall f :: !Written(u, f)
  {
    if forall f :: !Written(u, f) {
      assert !Written(u, NameField) && !Written(u, PhoneField) && !Written(u, EmailField);
      assert !Written(u, AddressField) && !Written(u, DateOfBirthField) && !Written(u, MrnField);
      assert !Written(u, InsuranceField) && !Written(u, PregnancyStatusField) && !Written(u, IncomeField);
      assert !Written(u, UsCitizenshipStatusField) && !Written(u, AsyleeRefugeeStatusField);
      assert !Written(u, FamilyMembersField);
    }
  }

  /** A field is listed as processed exactly when it is written, except
      citizenship and asylee status, which are listed whenever they are
      answered at all. */
  lemma {:induction false} ProcessedListsWritten(u: PatientUpdate, citizenAnswered: bool, asyleeAnswered: bool, f: PatientField)
    ensures f in ProcessedFields(u, citizenAnswered, asyleeAnswered) <==>
      if f == UsCitizenshipStatusField then citizenAnswered
      else if f == AsyleeRefugeeStatusField then asyleeAnswered
      else Written(u, f)
  {
    match f
    case NameField =>
    case PhoneField =>
    case EmailField =>
    case AddressField =>
    case DateOfBirthField =>
    case MrnField =>
    case InsuranceField =>
    case PregnancyStatusField =>
    case IncomeField =>
    case UsCitizenshipStatusField =>
    case AsyleeRefugeeStatusField =>
    case FamilyMembersField =>
  }

  /** The staged fields of a stored patient, looked at together with the
      processed list: citizenship and asylee status are written only when
      answered, and an answer other than yes or no is listed but writes
      nothing. */
  lemma {:induction false} UnmappedAnswersListedNotWritten(p: Patient, data: StructuredData, ps: Parsers)
    ensures var u := PatientUpdateFor(p, data, ps);
      var c := FieldValue(data, "is_us_citizen");
      var a := FieldValue(data, "is_asylee_or_refugee");
      && (u.usCitizenshipStatus.Some? ==> c.Some?)
      && (u.asyleeRefugeeStatus.Some? ==> a.Some?)
      && (c.Some? && ToLower(c.value) != "yes" && ToLower(c.value) != "no" ==>
            u.usCitizenshipStatus.None? && UsCitizenshipStatusField in ProcessedFields(u, c.Some?, a.Some?))
      && (a.Some? && ToLower(a.value) != "yes" && ToLower(a.value) != "no" ==>
            u.asyleeRefugeeStatus.None? && AsyleeRefugeeStatusField in ProcessedFields(u, c.Some?, a.Some?))
  {
    var u := PatientUpdateFor(p, data, ps);
    ProcessedListsWritten(u, FieldValue(data, "is_us_citizen").Some?, FieldValue(data, "is_asylee_or_refugee").Some?, UsCitizenshipStatusField);
    ProcessedListsWritten(u, FieldValue(data, "is_us_citizen").Some?, FieldValue(data, "is_asylee_or_refugee").Some?, AsyleeRefugeeStatusField);
  }

  /** An insurance answer that lower-cases to exactly "no" is not written;
      the address, insurance and income writes keep the stored sub-fields
      they do not name. */
  lemma {:induction false} NestedFieldsPreserved(p: Patient, data: StructuredData, ps: Parsers)
    ensures var u := PatientUpdateFor(p, data, ps);
      var ins := FieldValue(data, "insurance");
      && (ins.Some? && ToLower(ins.value) == "no" ==> u.insurance.None?)
      && (u.address.Some? && p.address.Some? ==> u.address.value == p.address.value.(street := u.address.value.street))
      && (u.insurance.Some? && p.insurance.Some? ==>
            u.insurance.value == p.insurance.value.(provider := u.insurance.value.provider))
      && (u.income.Some? ==> u.income.value.annualIncome.value > 0.0 && u.income.value.verified == Some(true))
  {
  }

  /** The "D M YYYY" rewrite is applied before the host parser sees the
      trimmed date of birth, and an unparseable date stages nothing. */
  lemma {:induction false} DateOfBirthRewritten(p: Patient, data: StructuredData, ps: Parsers, v: string)
    requires FieldValue(data, "date_of_birth") == Some(v)
    ensures var u := PatientUpdateFor(p, data, ps);
      && (MatchDayMonthYear(Trim(v)).Some? ==>
            var (d, m, y) := MatchDayMonthYear(Trim(v)).value;
            u.dateOfBirth == ps.parseDate(IsoDate(d, m, y)) && FullDateShape(IsoDate(d, m, y)))
      && (MatchDayMonthYear(Trim(v)).None? ==> u.dateOfBirth == ps.parseDate(Trim(v)))
  {
    if MatchDayMonthYear(Trim(v)).Some? {
      RewriteIsFullDate(Trim(v));
    }
  }

  /** Folding the same structured data into the patient it produced
      changes nothing: every staged field is an overwrite, the nested
      objects keep what they kept, and the family merge is idempotent. */
  lemma {:induction false} MergeReplayIdempotent(p: Patient, data: StructuredData, ps: Parsers)
    ensures var once := ApplyPatientUpdate(p, PatientUpdateFor(p, data, ps));
      ApplyPatientUpdate(once, PatientUpdateFor(once, data, ps)) == once
  {
    var u := PatientUpdateFor(p, data, ps);
    var once := ApplyPatientUpdate(p, u);
    RestagedUpdateUnchanged(p, data, ps);
    ApplyTwice(p, u);
  }

  /** The merged patient stages the same update as the patient it came
      from: only the nested objects and the family list depend on the
      stored patient, and each already holds what it would be given. */
  lemma {:induction false} RestagedUpdateUnchanged(p: Patient, data: StructuredData, ps: Parsers)
    ensures var u := PatientUpdateFor(p, data, ps);
      PatientUpdateFor(ApplyPatientUpdate(p, u), data, ps) == u
  {
    var u := PatientUpdateFor(p, data, ps);
    var once := ApplyPatientUpdate(p, u);
    var u2 := PatientUpdateFor(once, data, ps);
    assert u2.address == u.address;
    assert u2.insurance == u.insurance;
    var c := CandidateFor(data, ps);
    if c.Some? {
      MergeIdempotent(if p.familyMembers.Some? then p.familyMembers.value else [], c.value);
    }
    assert u2.familyMembers == u.familyMembers;
  }

  /** Applying the same update twice is applying it once. */
  lemma ApplyTwice(p: Patient, u: PatientUpdate)
    ensures ApplyPatientUpdate(ApplyPatientUpdate(p, u), u) == ApplyPatientUpdate(p, u)
  {
  }

  /** A patient the merge leaves as it is leaves the whole collection as
      it is. */
  lemma MergeFixpoint(patients: map<string, Patient>, patientId: string, data: StructuredData, ps: Parsers)
    requires patientId in patients
    requires ApplyPatientUpdate(patients[patientId], PatientUpdateFor(patients[patientId], data, ps)) == patients[patientId]
    ensures MergeIntoPatients(patients, patientId, data, ps).1 == patients
  {
  }

  /** Folding the same structured data into the collection twice leaves it
      as folding it once. */
  lemma {:induction false} MergeIntoPatientsReplay(patients: map<string, Patient>, patientId: string, data: StructuredData, ps: Parsers)
    ensures var once := MergeIntoPatients(patients, patientId, data, ps).1;
      MergeIntoPatients(once, patientId, data, ps).1 == once
  {
    if patientId in patients {
      var p := patients[patientId];
      var once := MergeIntoPatients(patients, patientId, data, ps).1;
      MergeReplayIdempotent(p, data, ps);
      var p1 := ApplyPatientUpdate(p, PatientUpdateFor(p, data, ps));
      assert once == patients[patientId := p1];
      MergeFixpoint(once, patientId, data, ps);
    }
  }
}
