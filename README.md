# Voice-call webhook and call sync, modelled in Dafny

This project models the server core of a clinic's voice-agent integration. A telephony provider places calls to patients and posts webhook messages about each call. The messages are an end-of-call report, status updates, transcript updates and function calls. The webhook endpoint checks an optional HMAC-SHA-256 signature and dispatches on the message type. It folds each message into two stored collections: the call logs and the patients.

The end-of-call report does two things. It overwrites the call log with the final status, timing, cost, transcript, recording and analysis. It also runs a field-by-field merge of the provider's extracted "structured data" into the patient record. That merge:

- trims values;
- rewrites "D M YYYY" dates to ISO form;
- maps yes/no answers to status enums;
- keeps positive incomes only;
- merges family members by case-insensitive name.

A second, pull-based endpoint (`POST /api/calls/sync`) fetches the provider's current view of a call and overwrites the stored call log field by field.

Modules:

- `Values`: optional values and the JavaScript truthiness tests (`if (s)`, `x || fallback`).
- `Text`: `trim()` with the ECMAScript white-space set, `\d`, ASCII `toLowerCase()`, `padStart(2, '0')`.
- `Fields`: the tolerant key lookup (`key`, then `key + "\t"`), the "D M YYYY" recogniser and rewrite, the answer mappings and the positive-amount guard.
- `Records`: call logs, patients, webhook messages, and the store with its unique index on the provider call id.
- `CallLogUpdates`: the partial updates the three call-log handlers stage, and `$set` application.
- `PatientMerge`: the staging of a patient update and the family-member merge. Each is an imperative method proved equal to a specification function. The module also holds the outcome of `updatePatientFromStructuredData`.
- `Webhook`: the call-id recovery from the recording URL, the four handlers, and `POST` with its signature gate and dispatch.
- `Sync`: the call-log document as a class whose fields the sync assigns in place, and the sync endpoint.

Notable behaviour of the code, which the model follows:

- A body that is not JSON makes the webhook answer 500 (the whole handler is one `try`), not a client error.
- A failed end-of-call report still answers HTTP 200, with `success: false` in the body.
- The webhook never derives a duration. It stores the reported `durationSeconds` as given.
- "First write wins" holds only for `startedAt`. A status update overwrites the status unconditionally, even after `ended`.
- The insurance "no" test is made on the untrimmed, lower-cased value.
- An answer other than yes/no to `is_us_citizen` or `is_asylee_or_refugee` is listed as processed but writes nothing.

## Model

| member | source | states |
|---|---|---|
| Values.TruthyText | src/app/api/vapi/webhook/route.ts:770-780 | a text field is kept exactly when it is present and non-empty |
| Values.NumberOr | src/app/api/vapi/webhook/route.ts:785-790 | `x \|\| fallback`: a missing or zero number falls back, any other is kept |
| Values.Overwrite | src/app/api/vapi/webhook/route.ts:807 | a supplied field replaces the stored one; an absent one leaves it |
| Text.TrimStart | src/app/api/vapi/webhook/route.ts:854 | the result is a suffix not starting with white space, and only white space was dropped |
| Text.TrimEnd | src/app/api/vapi/webhook/route.ts:854 | the result is a prefix not ending with white space, and only white space was dropped |
| Text.Trim | src/app/api/vapi/webhook/route.ts:854-855 | the result is the slice of the input between a white-space prefix and a white-space suffix, has no outer white space itself, and is empty exactly when the input is all white space |
| Text.TrimIsSlice | src/app/api/vapi/webhook/route.ts:854-855 | the leading trim followed by the trailing trim cuts only white space off both ends and leaves a slice of the input |
| Text.TrimFixesTrimmed | src/app/api/vapi/webhook/route.ts:854-855 | text with no outer white space is its own trim |
| Text.ToLower | src/app/api/vapi/webhook/route.ts:924 | same length; every character is lower-cased individually |
| Text.ToLowerIdempotent | src/app/api/vapi/webhook/route.ts:1011-1013 | lower-casing twice equals lower-casing once |
| Text.PadStart2 | src/app/api/vapi/webhook/route.ts:889 | texts of two or more characters are unchanged; shorter ones become two characters ending in the original and led by zeros |
| Fields.FieldValue | src/app/api/vapi/webhook/route.ts:839-843 | the non-empty value under the key wins, else the non-empty value under key plus tab, else nothing; a result is never empty |
| Fields.TabKeyEquivalent | src/app/api/vapi/webhook/route.ts:839-843 | a value stored under a tab-suffixed key is found exactly as under the plain key |
| Fields.TrimmedText | src/app/api/vapi/webhook/route.ts:853-857 | present exactly when the value is not all white space, and then it is the trim of the value: non-empty, with no outer white space |
| Fields.TrimmedTextStable | src/app/api/vapi/webhook/route.ts:853-857 | a staged text is its own trim, so staging it again gives the same text |
| Fields.DigitRun | src/app/api/vapi/webhook/route.ts:887 | the leading digit run is no longer than the text |
| Fields.SpaceRun | src/app/api/vapi/webhook/route.ts:887 | the leading white-space run is no longer than the text |
| Fields.DigitRunIsMaximal | src/app/api/vapi/webhook/route.ts:887 | the run is all digits and is followed by a non-digit or the end |
| Fields.YearTailShape | src/app/api/vapi/webhook/route.ts:887 | a recognised year tail yields four digits that close the text |
| Fields.MonthYearTailShape | src/app/api/vapi/webhook/route.ts:887 | a recognised month-and-year tail yields a 1–2 digit month and a closing four-digit year |
| Fields.MatchShape | src/app/api/vapi/webhook/route.ts:887-888 | whatever `^\d{1,2}\s+\d{1,2}\s+\d{4}$` accepts splits into a 1–2 digit day opening the text, a 1–2 digit month and a 4-digit year closing it |
| Fields.SpaceRunIsWhite | src/app/api/vapi/webhook/route.ts:887 | the leading white-space run is all white space |
| Fields.YearTailSplit | src/app/api/vapi/webhook/route.ts:887 | a recognised year tail is non-empty white space followed by the year |
| Fields.MonthYearTailSplit | src/app/api/vapi/webhook/route.ts:887 | a recognised month-and-year tail is non-empty white space, the month, non-empty white space and the year |
| Fields.MatchSplit | src/app/api/vapi/webhook/route.ts:887-888 | an accepted string is exactly its day, non-empty white space, its month, non-empty white space and its year; with MatchComposed this is the if-and-only-if with `^\d{1,2}\s+\d{1,2}\s+\d{4}$` |
| Fields.MatchComposed | src/app/api/vapi/webhook/route.ts:887-888 | conversely, every day–spaces–month–spaces–year string is accepted and split back into exactly its parts |
| Fields.RewriteDayMonthYear | src/app/api/vapi/webhook/route.ts:884-890 | text that is not a "D M YYYY" literal is passed on unchanged |
| Fields.IsoDateShape | src/app/api/vapi/webhook/route.ts:889 | the rewrite of digit parts has the RFC 3339 full-date shape: year, padded month, padded day, each ending in the original part |
| Fields.RewriteIsFullDate | src/app/api/vapi/webhook/route.ts:886-890 | every recognised literal is rewritten to the full-date shape |
| Fields.RewriteComposed | src/app/api/vapi/webhook/route.ts:886-889 | a composed literal is rewritten to the ISO date of its own parts |
| Fields.MatchExample | src/app/api/vapi/webhook/route.ts:883-888 | "23 11 2004" splits into day 23, month 11, year 2004 |
| Fields.MatchPaddingExample | src/app/api/vapi/webhook/route.ts:887-888 | "3  7 1999" (two spaces) splits into day 3, month 7, year 1999 |
| Fields.IsoDateExample | src/app/api/vapi/webhook/route.ts:889 | day 23, month 11, year 2004 join to "2004-11-23" |
| Fields.IsoDatePaddingExample | src/app/api/vapi/webhook/route.ts:889 | day 3, month 7, year 1999 join to "1999-07-03" |
| Fields.RewriteExample | src/app/api/vapi/webhook/route.ts:886-889 | the worked case: "23 11 2004" becomes "2004-11-23" |
| Fields.RewritePaddingExample | src/app/api/vapi/webhook/route.ts:889 | one-digit day and month are zero-padded: "3  7 1999" becomes "1999-07-03" |
| Fields.RewriteLeavesOtherText | src/app/api/vapi/webhook/route.ts:887-892 | free text and an ISO date reach the date parser unchanged |
| Fields.PregnancyFromAnswer | src/app/api/vapi/webhook/route.ts:922-933 | pregnant iff the answer lower-cases to "yes", not pregnant iff "no", unknown otherwise |
| Fields.CitizenshipFromAnswer | src/app/api/vapi/webhook/route.ts:950-960 | citizen iff "yes", non-resident iff "no" (any case), no status otherwise |
| Fields.AsyleeFromAnswer | src/app/api/vapi/webhook/route.ts:962-972 | asylee iff "yes", neither iff "no" (any case), no status otherwise |
| Fields.AnswersIgnoreCase | src/app/api/vapi/webhook/route.ts:922-972 | answers equal up to letter case map to the same statuses |
| Fields.PositiveAmount | src/app/api/vapi/webhook/route.ts:937-939 | a parsed amount is kept exactly when it is a number above zero |
| Records.FindByVapiCallIdExact | src/app/api/vapi/webhook/route.ts:700 | in a consistent store the lookup by provider call id finds a record iff that record carries the id |
| Records.ReplaceCallKeepsValid | src/app/api/vapi/webhook/route.ts:807 | replacing a call log by one with the same id and provider call id keeps the store and its index consistent |
| CallLogUpdates.ApplyCallLogUpdate | src/app/api/vapi/webhook/route.ts:807 | `findByIdAndUpdate` never changes the log's id, patient or provider call id; an empty update changes nothing |
| CallLogUpdates.DefaultedBreakdown | src/app/api/vapi/webhook/route.ts:783-792 | every stored sub-cost is present: a reported non-zero value, else 0; the total falls back to the message cost, then 0 |
| CallLogUpdates.BuildEndOfCallUpdate | src/app/api/vapi/webhook/route.ts:746-805 | the staged document equals the end-of-call update: status `ended` always, every other field under its own guard |
| CallLogUpdates.EndOfCallEffect | src/app/api/vapi/webhook/route.ts:748-780 | after a report: status is `ended`; a stored `startedAt` is kept (first write wins); duration, cost and end are replaced when reported; texts only when non-empty; the identity is untouched |
| CallLogUpdates.EndOfCallReplaces | src/app/api/vapi/webhook/route.ts:782-805 | a reported breakdown, message list or analysis replaces the stored one wholesale (the analysis summary is dropped); unreported ones stay |
| CallLogUpdates.EndOfCallReplay | src/app/api/vapi/webhook/route.ts:746-807 | applying the same report to its own result changes nothing |
| CallLogUpdates.ReportedStatus | src/app/api/vapi/webhook/route.ts:1092-1093 | the call's non-empty status, otherwise `unknown` |
| CallLogUpdates.StatusUpdateEffect | src/app/api/vapi/webhook/route.ts:1092-1101 | a status update overwrites the status, sets `startedAt` only when none is stored, and changes nothing else |
| CallLogUpdates.TranscriptOf | src/app/api/vapi/webhook/route.ts:1132-1135 | the call's non-empty transcript, otherwise the message's transcript as it is |
| CallLogUpdates.TranscriptLength | src/app/api/vapi/webhook/route.ts:1144 | the length of the found non-empty transcript, and zero exactly when there is none |
| CallLogUpdates.TranscriptUpdateEffect | src/app/api/vapi/webhook/route.ts:1132-1137 | only the transcript changes, and only when a transcript is present |
| CallLogUpdates.StartedAtStable | src/app/api/vapi/webhook/route.ts:766-768 | once stored, `startedAt` is moved neither by an end-of-call report nor by a status update (lines 1097-1099) |
| PatientMerge.ApplyPatientUpdate | src/app/api/vapi/webhook/route.ts:1028-1035 | the patient keeps its id; an empty update changes nothing; every staged field (name, phone and, through `Overwrite`, the other ten) replaces the stored one and every unstaged field is kept |
| PatientMerge.ApplyTwice | src/app/api/vapi/webhook/route.ts:1032-1035 | writing the same update twice is writing it once |
| PatientMerge.WithStreet | src/app/api/vapi/webhook/route.ts:871-878 | the street is replaced and every other stored address field kept; with no stored address the others are empty |
| PatientMerge.WithProvider | src/app/api/vapi/webhook/route.ts:911-919 | the provider is replaced and the stored policy and group numbers kept |
| PatientMerge.VerifiedIncome | src/app/api/vapi/webhook/route.ts:940-945 | the income holds the amount, currency USD and verified true |
| PatientMerge.DateOfBirthFor | src/app/api/vapi/webhook/route.ts:880-903 | no date-of-birth answer stages no date |
| PatientMerge.InsuranceProviderFor | src/app/api/vapi/webhook/route.ts:912-913 | a provider is staged iff the answer is non-blank and does not lower-case to "no", and then it is the trimmed answer |
| PatientMerge.AmountFor | src/app/api/vapi/webhook/route.ts:936-939 | no answer stages nothing; an answer stages its parsed value exactly when that is a number above zero |
| PatientMerge.FirstMatch | src/app/api/vapi/webhook/route.ts:1010-1013 | the first index whose name matches case-insensitively, or -1 when none matches |
| PatientMerge.FindMemberIndex | src/app/api/vapi/webhook/route.ts:1011-1013 | the front-to-back scan returns the first case-insensitive match |
| PatientMerge.FirstMatchUnique | src/app/api/vapi/webhook/route.ts:1011-1013 | any index meeting the first-match conditions is the one the search returns |
| PatientMerge.Overlay | src/app/api/vapi/webhook/route.ts:1019-1022 | the new name wins; every other member field is the new value when present, else the stored one |
| PatientMerge.MergeShape | src/app/api/vapi/webhook/route.ts:1015-1024 | with no name match the list grows by exactly the candidate; with a match only that position changes, to the overlay |
| PatientMerge.MergeIdempotent | src/app/api/vapi/webhook/route.ts:1009-1024 | merging the same family member twice gives the list merging it once gave (no duplicates by name) |
| PatientMerge.CandidateFor | src/app/api/vapi/webhook/route.ts:975-1007 | a family member is built iff the name is non-blank, under the trimmed name; a relationship is set iff answered non-blank, lower-cased then trimmed; the date of birth is the host parse of the raw answer (untrimmed, no "D M YYYY" rewrite); an income is set iff the parsed amount is positive, and is then exactly that amount in USD |
| PatientMerge.PushIf | src/app/api/vapi/webhook/route.ts:856 | appends the field exactly when the guard holds; membership follows |
| PatientMerge.StageTrimmed | src/app/api/vapi/webhook/route.ts:853-857 | stages the trimmed value of the looked-up field, or nothing when it is blank |
| PatientMerge.StageDateOfBirth | src/app/api/vapi/webhook/route.ts:880-903 | the staged date is the date-of-birth specification's |
| PatientMerge.StageInsuranceProvider | src/app/api/vapi/webhook/route.ts:912-913 | the staged provider is the insurance specification's |
| PatientMerge.StagePositiveAmount | src/app/api/vapi/webhook/route.ts:936-939 | the staged amount is the positive-amount specification's |
| PatientMerge.StageContact | src/app/api/vapi/webhook/route.ts:852-909 | name, phone, e-mail, address, date of birth and MRN equal the specified update's |
| PatientMerge.StageEligibility | src/app/api/vapi/webhook/route.ts:911-972 | insurance, pregnancy, income, citizenship and asylee status equal the specified update's |
| PatientMerge.StagePatientUpdate | src/app/api/vapi/webhook/route.ts:845-1026 | the staged update is the specified one, and `fieldsProcessed` is the ordered list of processed fields |
| PatientMerge.StageFamilyMember | src/app/api/vapi/webhook/route.ts:974-1026 | no candidate stages no list; a candidate stages the merged list |
| PatientMerge.MergeIntoPatients | src/app/api/vapi/webhook/route.ts:824-1062 | not found iff the patient is missing; no write iff the staged update is empty; otherwise only that patient is replaced, by the stored patient with the staged update written over it; the processed list is reported in every found case |
| PatientMerge.UpdatePatientFromStructuredData | src/app/api/vapi/webhook/route.ts:824-1062 | the method's outcome and new collection are those of the merge specification |
| PatientMerge.NoChangeIffNothingWritten | src/app/api/vapi/webhook/route.ts:1028-1031 | the update is skipped exactly when no field is staged |
| PatientMerge.ProcessedListsWritten | src/app/api/vapi/webhook/route.ts:850-1026 | a field is listed as processed iff it is written, except citizenship and asylee status, listed iff answered |
| PatientMerge.UnmappedAnswersListedNotWritten | src/app/api/vapi/webhook/route.ts:950-972 | citizenship and asylee statuses are written only when answered; an answer other than yes/no is listed but writes nothing |
| PatientMerge.NestedFieldsPreserved | src/app/api/vapi/webhook/route.ts:871-946 | "no" insurance is not written; address and insurance writes keep the stored sub-fields they do not name; a written income is positive and verified |
| PatientMerge.DateOfBirthRewritten | src/app/api/vapi/webhook/route.ts:880-896 | the host parser receives the ISO rewrite of a trimmed "D M YYYY" literal (which has the full-date shape), and the trimmed text otherwise |
| PatientMerge.RestagedUpdateUnchanged | src/app/api/vapi/webhook/route.ts:845-1026 | the merged patient stages the same update as the patient it came from |
| PatientMerge.MergeReplayIdempotent | src/app/api/vapi/webhook/route.ts:845-1035 | merging the same structured data into the patient it produced changes nothing |
| PatientMerge.MergeFixpoint | src/app/api/vapi/webhook/route.ts:1028-1035 | a patient that the merge leaves unchanged leaves the whole collection unchanged |
| PatientMerge.MergeIntoPatientsReplay | src/app/api/vapi/webhook/route.ts:824-1062 | merging the same structured data into the collection twice equals merging it once |
| Webhook.FirstIdWindow | src/app/api/vapi/webhook/route.ts:689 | the leftmost position from which 36 characters of `[a-f0-9-]` start, or -1 when there is none |
| Webhook.CallIdInUrl | src/app/api/vapi/webhook/route.ts:689 | nothing when no 36-character window exists; otherwise 36 class characters taken from the leftmost window |
| Webhook.EndOfCallId | src/app/api/vapi/webhook/route.ts:689-695 | `call.id` wins when present; otherwise the id found in the recording URL; with neither there is no id; an id is never empty |
| Webhook.CallEndOutcome | src/app/api/vapi/webhook/route.ts:684-744 | a missing id or an unknown call fails and changes nothing; a found log is always processed: it gets the end-of-call update, and with structured data the log's patient gets the merge, whose outcome is reported; success iff processed; the index is untouched |
| Webhook.HandleCallEnd | src/app/api/vapi/webhook/route.ts:684-744 | the handler's result and new store are those of the end-of-call specification |
| Webhook.StatusOutcome | src/app/api/vapi/webhook/route.ts:1077-1115 | a missing or unknown id is acknowledged with no change; otherwise the found log gets the status update and the reported status and log id are answered; always successful; patients and index untouched |
| Webhook.TranscriptOutcome | src/app/api/vapi/webhook/route.ts:1117-1152 | a missing or unknown id is acknowledged with no change; otherwise the found log gets the transcript update and the transcript length is answered; always successful; patients and index untouched |
| Webhook.FunctionCallOutcome | src/app/api/vapi/webhook/route.ts:1154-1176 | always successful; a call with an id is answered `FunctionCallAcknowledged` naming it, one without an id a plain acknowledgement |
| Webhook.FoundRecord | src/app/api/vapi/webhook/route.ts:700 | a found log is the stored record under the index entry and carries the call id |
| Webhook.CallEndKeepsValid | src/app/api/vapi/webhook/route.ts:700-723 | an end-of-call report keeps the store and its index consistent |
| Webhook.CallUpdatesKeepValid | src/app/api/vapi/webhook/route.ts:1077-1152 | status and transcript updates keep the store and its index consistent |
| Webhook.CallEndTouchesOnlyItsCall | src/app/api/vapi/webhook/route.ts:700-716 | no call log other than the reported one changes, and none appears or vanishes |
| Webhook.CallEndTouchesOnlyItsPatient | src/app/api/vapi/webhook/route.ts:719-727 | no patient other than the reported call's patient changes, and none appears or vanishes |
| Webhook.CallEndReplay | src/app/api/vapi/webhook/route.ts:684-744 | a redelivered end-of-call report leaves the store as one delivery did |
| Webhook.StatusReplay | src/app/api/vapi/webhook/route.ts:1077-1115 | a redelivered status update leaves the store as one delivery did |
| Webhook.HttpStatus | src/app/api/vapi/webhook/route.ts:546-608 | 401 iff the signature is rejected, 500 iff processing failed, 200 otherwise |
| Webhook.Post | src/app/api/vapi/webhook/route.ts:507-610 | malformed body gives 500; 401 iff a configured secret and given signature differ from the body's digest; no type is acknowledged; the four types go to their handlers, others are acknowledged unhandled; only handlers change the store, which stays consistent |
| Sync.DurationSeconds | src/app/api/calls/sync/route.ts:57-62 | the floor of the millisecond difference over 1000, non-negative when the end is not before the start |
| Sync.SyncMerge | src/app/api/calls/sync/route.ts:45-62 | the identity stays; the status is replaced; timestamps replaced when given; cost and texts only when truthy; breakdown, messages and analysis when present; duration derived when both timestamps are set |
| Sync.CallLogDocument.constructor | src/app/api/calls/sync/route.ts:21-26 | the loaded document holds the stored record |
| Sync.CallLogDocument.ApplySnapshot | src/app/api/calls/sync/route.ts:45-62 | the assignments leave the document holding the merge of its old record with the provider's view |
| Sync.CallLogDocument.AssignStatusAndTimes | src/app/api/calls/sync/route.ts:46-48 | status always assigned, start and end when given; nothing else changes |
| Sync.CallLogDocument.AssignCosts | src/app/api/calls/sync/route.ts:49-50 | cost and breakdown assigned only when truthy; nothing else changes |
| Sync.CallLogDocument.AssignTexts | src/app/api/calls/sync/route.ts:51-53 | transcript, summary and recording URL assigned only when non-empty; nothing else changes |
| Sync.CallLogDocument.AssignConversation | src/app/api/calls/sync/route.ts:54-55 | messages and analysis assigned when present; nothing else changes |
| Sync.CallLogDocument.DeriveDuration | src/app/api/calls/sync/route.ts:57-62 | the duration is recomputed only when both timestamps are set |
| Sync.SyncHttpStatus | src/app/api/calls/sync/route.ts:13-77 | 400 iff the id is missing or the log has no provider call id, 404 iff not found, 500 iff the fetch failed, 200 iff synced |
| Sync.FindForSync | src/app/api/calls/sync/route.ts:21-26 | a log stored under the id is found first, otherwise the log carrying that provider call id |
| Sync.SyncCall | src/app/api/calls/sync/route.ts:13-77 | the 400, 404, 400 and fetch-failure answers change nothing; a log with a provider call id whose fetch succeeds is always synced, and the sync replaces exactly the found log with its merge with the fetched view of that log's provider call |
| Sync.SyncReplay | src/app/api/calls/sync/route.ts:45-62 | syncing the same provider view twice equals syncing it once |
| Sync.SyncOverridesStoredStart | src/app/api/calls/sync/route.ts:47 | unlike the webhook's first-write-wins rule (webhook route lines 766-768), a sync replaces a stored start time |
| Sync.ZeroCostKept | src/app/api/calls/sync/route.ts:49 | a provider cost of zero is falsy and leaves the stored cost |
| Sync.SyncKeepsValid | src/app/api/calls/sync/route.ts:45-64 | a successful sync keeps the store and its index consistent |

## Left out

- The HMAC-SHA-256 digest, `JSON.parse`, `new Date(...)` and `parseFloat` are host functions passed in as parameters. The model states how they are used, not what they compute.
- Provider timestamps (`startedAt`, `endedAt` of a message or a fetched call) arrive as already-read instants. An unparseable timestamp string (an Invalid Date in the source) is not modelled.
- The wall-clock `updatedAt` on every write, the ISO `timestamp` in the transcript and function-call answers, all logging (`WebhookLogger`, console), and the `GET` handler.
- The database connection and I/O failures. Of the `catch` branches, the model keeps two. For the webhook `POST`, a body that does not parse answers 500; a `null` JSON body is treated as not parsing. For the sync endpoint, a failed provider fetch answers 500. Other thrown errors are left out: in `POST` and sync they would answer 500, and in the handlers `success: true` or `success: false`. The sync endpoint's own body is taken as parsed; its optional `callId` covers a missing id.
- The `fieldsUpdated` key lists (`Object.keys(updateData)`) and the `structuredDataReceived` key list are not computed. The patient outcome carries `fieldsProcessed` and the updated patient instead.
- Mongoose schema behaviour: strict-mode filtering of fields the schema does not declare, enum validation (`runValidators`), and `ObjectId` cast errors on `_id` lookups. Every staged field is taken as stored.
- Text.ToLower: `toLowerCase()` is modelled for ASCII letters only; Unicode case mapping is left out. This is exact for the yes/no answers. It differs in PatientMerge.FirstMatch: two family-member names that differ only in non-ASCII letter case ("JOSÉ", "josé") are different members in the model, so the model appends a duplicate member where the source merges them.
- PatientMerge.CandidateFor: the relationship is lower-cased with the same ASCII-only `Text.ToLower`.
- CallLogUpdates.TranscriptLength: the length is counted in characters (code points), while JavaScript's `.length` counts UTF-16 code units. The two differ on transcripts with characters outside the Basic Multilingual Plane, such as emoji.
- Structured-data values are strings. A non-string JSON value, on which `.trim()` would throw, is left out.
- Sync.FindForSync: `$or` matches either clause with no guaranteed order; the model prefers the `_id` match.
- Concurrency between overlapping webhook deliveries and syncs: each request is modelled as one atomic step on the store.
- The response body of a successful sync (`callLog.toObject()` and the raw provider call) is reduced to the merged record and the snapshot.
