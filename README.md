# carify.app — a verified model of the call and benefits core

carify.app places automated calls to insurance providers to retrieve a
patient's benefits. A browser front end keeps the call's progress in a
store. It reads telephony credentials from local storage, asks a call API
to place the call, and shows the call history and benefit records. A
server-side relay (the `voice-agent` function) registers the patient with
a voice-memory provider and places the call with a telephony provider. It
also records the provider's status callbacks in an in-memory table, and
answers status queries and end requests from that table.

This project models that core in Dafny:

- `js.dfy` (module `Js`) holds the JavaScript value semantics the
  others share. It covers optional values, results, thrown values and
  their messages, truthiness of strings, and `a || b`.
- `decimal.dfy` (module `Decimal`) covers decimal rendering and reading of
  natural numbers, and `padStart(2, '0')`.
- `call_lifecycle.dfy` (module `CallLifecycle`) covers the call store:
  start a call, poll its status until it ends, update, cancel and reset.
  It is a class whose poll runs by a recursive method, one call per poll,
  as the poll reschedules itself with `setTimeout`. Each method is
  proved against a pure function of the previous snapshot. A ghost trace
  records every published snapshot and every relay request.
- `voice_agent.dfy` (module `VoiceAgent`) covers the relay:
  - string split and join;
  - the patient's name split;
  - placing a call;
  - the status callback and its duration format;
  - status query, end call, routing, and the CORS headers on every
    response;
  - the `activeCalls` table as a class.
- `settings.dfy` (module `Settings`) covers the settings slot: the
  top-level merge over the defaults, saving, and the "configured" test.
- `call_client.dfy` (module `CallClient`) covers the client call: the
  configuration guard, the request record, the success result and the
  error messages.
- `call_history.dfy` (module `CallHistoryFilter`) covers the call-history
  filter: the status filter followed by a case-insensitive search.
- `benefits_store.dfy` (module `BenefitsStore`) covers the benefits store:
  list and detail fetches, the save with its update of the list in place,
  and clearing the record or the error.

External services are parameters: the relay, the telephony and
voice-memory providers, the benefits service, and the HTTP exchange of
the client. What each one answers is passed in. What is sent to it is
returned, or recorded in a ghost trace. The process environment and the
call API's base URL are parameters too.

When `cancelCall`'s request to end the call fails, the store keeps the
call's status and id and sets only `error`
(`src/store/callStore.ts:151-156`). The model follows the code here, not
a description in which every cancel returns the store to idle.

## Model

| member | source | states |
|---|---|---|
| Js.MessageOr | src/store/callStore.ts:126 | an `Error` yields its own message, and any other thrown value yields the fallback |
| Js.Or | src/services/api/callService.ts:64 | `a \|\| b` on optional strings: the first operand when it is non-empty, else the second; the result is truthy iff either operand is |
| Js.OrElse | src/store/callStore.ts:135 | `a \|\| fallback`: the value when it is a non-empty string, the fallback otherwise |
| Decimal.NatToString | supabase/functions/voice-agent/index.ts:152 | `toString()` of a natural number: non-empty, decimal digits only, no leading zero unless the number is 0 |
| Decimal.ParseNatToString | supabase/functions/voice-agent/index.ts:152 | reading the rendered digits back gives the number |
| Decimal.PadStart2 | supabase/functions/voice-agent/index.ts:152 | `padStart(2, '0')`: at least two characters, the original at its end, zeros in front |
| Decimal.PadStart2Value | supabase/functions/voice-agent/index.ts:152 | a number below 100, rendered and padded, is exactly two digits that read back as the number |
| CallLifecycle.InitiateEffect | src/store/callStore.ts:47-130 | first `initiating` with the call data and the error cleared, then `testing`, then the relay request; on success the call id is the relay's and the status is `calling`, and polling starts; on failure the status is `failed`, the error is the thrown message or 'Failed to initiate call', and the call id is untouched |
| CallLifecycle.StopsPolling | src/store/callStore.ts:85-106 | the statuses after which polling stops: 'completed', 'failed', 'busy' and 'no-answer'; every other status polls again (`PollEffectMapping`) |
| CallLifecycle.FailureStatus | src/store/callStore.ts:98-106 | the statuses that end the call as `failed`: 'failed', 'busy' and 'no-answer' (`PollEffectMapping`, `PollRunStopsAtTerminal`) |
| CallLifecycle.PollEffect | src/store/callStore.ts:79-118 | a poll never changes the tracked call id or the call data; another poll is scheduled only when there is a call id, and then the error is untouched; a poll that stops with a call id leaves the call `completed` or `failed` |
| CallLifecycle.PollEffectMapping | src/store/callStore.ts:79-118 | a poll without a call id does nothing; otherwise it queries the status; 'in-progress' becomes `retrieving` and continues; 'completed' becomes `completed` and stops; 'failed', 'busy' and 'no-answer' become `failed` with 'Call ended with status: X' and stop; other statuses change nothing and continue; a failed request becomes `failed` with 'Failed to get call status' and stops |
| CallLifecycle.PollRun | src/store/callStore.ts:79-121 | the self-rescheduling poll loop runs at most one poll per outcome, and at least one when there is an outcome |
| CallLifecycle.PollRunKeepsCall | src/store/callStore.ts:79-118 | polling never changes the call id or the call data |
| CallLifecycle.PollRunHaltsWithoutSid | src/store/callStore.ts:80 | with no call id the first poll returns at once: no change, no query, no further poll |
| CallLifecycle.PollRunStopReason | src/store/callStore.ts:85-117 | when polling stops early, every earlier poll saw a status that keeps polling, and the last one saw 'completed', a failure status or a failed request |
| CallLifecycle.PollRunThroughActiveStatuses | src/store/callStore.ts:85-110 | over statuses that keep polling, every poll runs, the error and the call id stay the same, and the status ends `retrieving` or as it was |
| CallLifecycle.PollRunFromRetrieving | src/store/callStore.ts:86-91 | once `retrieving`, statuses that keep polling leave the store `retrieving` |
| CallLifecycle.PollRunStopsAtTerminal | src/store/callStore.ts:92-117 | the first poll that sees a stopping status, or whose request fails, is the last one run; the store ends `completed` after 'completed' and `failed` otherwise, with error 'Call ended with status: ' and the status after 'failed', 'busy' or 'no-answer', and 'Failed to get call status' after a failed request; the call id is kept |
| CallLifecycle.UpdateStatusEffect | src/store/callStore.ts:132-137 | the status is set; a missing or empty message keeps the previous status message; nothing else changes |
| CallLifecycle.CancelEffect | src/store/callStore.ts:139-157 | without a call id, or when ending the call succeeds: `idle`, no call id, true; when ending the call fails: only the error changes, to the thrown message or 'Failed to cancel call', and the result is false; the end request is sent exactly when there is a call id |
| CallLifecycle.CancelStopsPolling | src/store/callStore.ts:139-157 | after a successful cancel, polling changes nothing and queries nothing |
| CallLifecycle.CancelFailureKeepsPolling | src/store/callStore.ts:151-156 | after a failed cancel the call id and status are kept, so the next poll still queries the call |
| CallLifecycle.CallStore.constructor | src/store/callStore.ts:41-45 | the store starts with no call id, `idle`, an empty message, no error and no call data |
| CallLifecycle.CallStore.InitiateCall | src/store/callStore.ts:47-130 | the new state, the trace and the number of polls are those of `InitiateEffect` followed, when it starts polling, by `PollRun` |
| CallLifecycle.CallStore.PollStep | src/store/callStore.ts:79-118 | one poll changes the state and trace as `PollEffect` says and returns whether another poll is scheduled |
| CallLifecycle.CallStore.StartCall | src/store/callStore.ts:47-77 | the start of a call (preparing, testing, connecting, the relay request) reaches the state and trace of `InitiateEffect`, and says whether polling begins |
| CallLifecycle.CallStore.RunPolls | src/store/callStore.ts:79-121 | the self-rescheduling status poll, one round per outcome, reaches the final state, trace and poll count of `PollRun` |
| CallLifecycle.CallStore.UpdateCallStatus | src/store/callStore.ts:132-137 | the state becomes `UpdateStatusEffect` of the old state, published once |
| CallLifecycle.CallStore.CancelCall | src/store/callStore.ts:139-157 | state, result and trace as `CancelEffect` says |
| CallLifecycle.CallStore.ResetCallState | src/store/callStore.ts:159-167 | the state becomes exactly the initial state |
| CallLifecycle.HappyPathScenario | src/store/callStore.ts:47-121 | accepted call, then 'ringing', 'in-progress', 'completed': initiating, testing, calling, and after exactly three polls `completed`, with the relay's call id |
| VoiceAgent.Split | supabase/functions/voice-agent/index.ts:32 | `split` on one character gives at least one piece |
| VoiceAgent.SplitPiecesLackSeparator | supabase/functions/voice-agent/index.ts:32 | no piece of a split contains the separator |
| VoiceAgent.Join | supabase/functions/voice-agent/index.ts:33 | computes `join(c)`; it undoes `Split` (`JoinSplit`) |
| VoiceAgent.JoinSplit | supabase/functions/voice-agent/index.ts:32-33 | joining the pieces of a split with the same character gives the string back |
| VoiceAgent.NameParts | supabase/functions/voice-agent/index.ts:32-33 | computes first and last name from the split; what they are is stated by `NamePartsSpec` and carried into the memory by `MemoryFor` |
| VoiceAgent.NamePartsSpec | supabase/functions/voice-agent/index.ts:32-33 | the first name has no space; with a space in the name, first name + ' ' + last name is the name; without one, the last name is empty |
| VoiceAgent.MemoryFor | supabase/functions/voice-agent/index.ts:32-45 | first and last name are the patient name's split: the first name has no space, and first name, a space and last name give the name back when it has a space (otherwise the last name is empty); date of birth, NPI, tax id, clinic name and address, member id and insurance provider are copied from the request |
| VoiceAgent.CreateCallFor | supabase/functions/voice-agent/index.ts:81-88 | by construction, the `client.calls.create` arguments: to the patient's number, from the configured number, the memory's webhook, the status-callback URL, the four events, POST; `InitiateEffect` states that this is the record sent |
| VoiceAgent.InitiateEffect | supabase/functions/voice-agent/index.ts:65-109 | the memory is posted first; if that fails, no call is placed, the table is unchanged and the error is 'Failed to initiate call: Failed to update agent memory'; otherwise the call goes to the patient's number from the configured one, via the memory's webhook, with the status callback URL; success exactly when both steps succeed, storing the provider status, '0:00' and the conversation id under the call's id and returning that id and status; a failed placement leaves the table and reports 'Failed to initiate call: ' and the message or 'Unknown error' |
| VoiceAgent.FormatDuration | supabase/functions/voice-agent/index.ts:152 | computes the `m:ss` text of a number of seconds; its meaning is stated by `FormatDurationRoundTrip` |
| VoiceAgent.DurationText | supabase/functions/voice-agent/index.ts:152 | a callback without a duration gives '0:00', one with a duration its `FormatDuration` text; used by `ApplyCallback`, whose contract states the stored duration |
| VoiceAgent.FormatDurationRoundTrip | supabase/functions/voice-agent/index.ts:152 | the duration text is the minutes in decimal without leading zeros, ':' and exactly two digits of seconds below 60; minutes × 60 + seconds read back gives the duration |
| VoiceAgent.ApplyCallback | supabase/functions/voice-agent/index.ts:148-154 | the set of calls is unchanged; only an existing entry named by a non-empty call id changes, in status and duration only (a missing duration gives '0:00'); conversation ids are kept |
| VoiceAgent.CallbackLastWriteWins | supabase/functions/voice-agent/index.ts:148-154 | a later callback for the same call overrides an earlier one, and delivering a callback twice equals delivering it once |
| VoiceAgent.StatusLookup | supabase/functions/voice-agent/index.ts:160-189 | an unknown call gets 404 'Call not found', a known one 200 with its stored status, duration and conversation id; both carry the CORS headers |
| VoiceAgent.QueryAfterInitiate | supabase/functions/voice-agent/index.ts:94-98 | right after a successful initiate, a query for the new call answers the provider's status, '0:00' and the conversation id |
| VoiceAgent.InternalError | supabase/functions/voice-agent/index.ts:224-236 | status 500 with the JSON and CORS headers, and the body `{ error }` holding the error's message, or 'Internal server error' when it is missing or empty |
| VoiceAgent.EndEffect | supabase/functions/voice-agent/index.ts:193-212 | the provider is asked to complete the call; only if that succeeds is the entry removed and 200 returned with `{ success: true }`; otherwise the table is kept and 500 returned with the error's message |
| VoiceAgent.Segments | supabase/functions/voice-agent/index.ts:118 | computes `split('/').filter(Boolean)`; its pieces are characterised by `SegmentsWellFormed` and `SegmentsOfPath` |
| VoiceAgent.NonEmpty | supabase/functions/voice-agent/index.ts:118 | computes `filter(Boolean)`; characterised by `NonEmptySpec`, `NonEmptyMembership` and `NonEmptyConcat` |
| VoiceAgent.NonEmptySpec | supabase/functions/voice-agent/index.ts:118 | `filter(Boolean)` keeps only non-empty pieces taken from the input |
| VoiceAgent.NonEmptyMembership | supabase/functions/voice-agent/index.ts:118 | a piece is kept iff it is in the input and non-empty, so every non-empty piece is kept |
| VoiceAgent.NonEmptyConcat | supabase/functions/voice-agent/index.ts:118 | filtering keeps order: the filter of a concatenation is the concatenation of the filters, and one piece is kept exactly when non-empty |
| VoiceAgent.SegmentsWellFormed | supabase/functions/voice-agent/index.ts:118 | path segments are non-empty and contain no '/' |
| VoiceAgent.SegmentsOfPath | supabase/functions/voice-agent/index.ts:118 | a path built from a function name and pieces splits back into exactly those segments |
| VoiceAgent.SplitOfPath | supabase/functions/voice-agent/index.ts:118 | splitting such a path at '/' gives an empty piece, the name and the pieces |
| VoiceAgent.RouteOf | supabase/functions/voice-agent/index.ts:113-215 | OPTIONS is the preflight; POST with one segment initiates; POST with second segment `status` is a callback; GET of `status/{sid}` with a non-empty sid queries; POST of `end/{sid}` with a non-empty sid ends; each branch is taken exactly when its own condition holds, and the sid is the third segment |
| VoiceAgent.ClientRequestsRoute | supabase/functions/voice-agent/index.ts:122-193 | with the `/functions/v1` prefix stripped by the hosting platform, the four requests made of the function (initiate, status callback, status query, end) reach, in order, the initiate, callback, query and end branches, the last two with the call id |
| VoiceAgent.CallbackPathRoute | supabase/functions/voice-agent/index.ts:140 | POST to `.../status` is the callback branch |
| VoiceAgent.QueryPathRoute | supabase/functions/voice-agent/index.ts:160 | GET of `.../status/{sid}` is the query branch for that id |
| VoiceAgent.EndPathRoute | supabase/functions/voice-agent/index.ts:193 | POST to `.../end/{sid}` is the end branch for that id |
| VoiceAgent.UnstrippedRequestsRefused | supabase/functions/voice-agent/index.ts:118-215 | on a path that still carries the `/functions/v1` prefix, every request other than a preflight (initiate, status callback, status query and end included) falls through to the 405 branch |
| VoiceAgent.Serve | supabase/functions/voice-agent/index.ts:111-237 | every response carries the CORS headers |
| VoiceAgent.Dispatch | supabase/functions/voice-agent/index.ts:113-236 | whatever branch is taken, its response carries the CORS headers |
| VoiceAgent.ServeTableChanges | supabase/functions/voice-agent/index.ts:111-237 | only initiate, callback and end requests change the table; a parsed callback is answered 200; a query answers the lookup |
| VoiceAgent.ServePreflightAndRefused | supabase/functions/voice-agent/index.ts:113-115 | OPTIONS comes first and answers 200 with no body; a request matching no branch answers 405 'Method not allowed'; neither changes the table or calls a provider |
| VoiceAgent.MemoryFailureAnswer | supabase/functions/voice-agent/index.ts:224-236 | a failed memory step answers 500 with 'Failed to initiate call: Failed to update agent memory', places no call and keeps the table |
| VoiceAgent.CallTable.constructor | supabase/functions/voice-agent/index.ts:24-28 | the table starts empty |
| VoiceAgent.CallTable.InitiateCall | supabase/functions/voice-agent/index.ts:65-109 | table, result and provider requests as `InitiateEffect` says |
| VoiceAgent.CallTable.RecordStatus | supabase/functions/voice-agent/index.ts:148-154 | the table becomes `ApplyCallback` of the old one |
| VoiceAgent.CallTable.EndCall | supabase/functions/voice-agent/index.ts:193-212 | table, response and provider request as `EndEffect` says |
| VoiceAgent.CallTable.Handle | supabase/functions/voice-agent/index.ts:111-237 | table, response and provider requests as `Serve` says, with CORS headers on the response |
| Settings.TwilioOf | src/services/settingsService.ts:40-42 | reads the credentials out of the stored `twilio` value; stated by `StoredTwilioReplacesDefault` and `DefaultsNotConfigured` |
| Settings.Load | src/services/settingsService.ts:16-27 | always has a `twilio` key; nothing stored or unreadable gives the defaults; a stored object keeps all its keys and values, adds `twilio` from the defaults only when missing, and adds nothing else |
| Settings.Configured | src/services/settingsService.ts:54-57 | the configuration test on given credentials; stated by `ConfiguredIgnoresVoiceUrl` |
| Settings.ConfiguredIgnoresVoiceUrl | src/services/settingsService.ts:54-57 | configured iff account id, token and phone number are all non-empty; the voice URL plays no part |
| Settings.DefaultsNotConfigured | src/services/settingsService.ts:5-27 | nothing stored or unreadable reads as empty credentials, which are not configured |
| Settings.StoredTwilioReplacesDefault | src/services/settingsService.ts:21 | the merge is shallow: a stored `twilio` object is read back as it is |
| Settings.WithTwilio | src/services/settingsService.ts:46-50 | the saved record has the current keys plus `twilio`, every other key with its current value |
| Settings.LoadAfterSave | src/services/settingsService.ts:16-37 | loading a saved record that has `twilio` gives exactly that record |
| Settings.SaveTwilioRoundTrip | src/services/settingsService.ts:40-51 | after saving credentials, reading them gives them back, and the other keys keep their values |
| Settings.SettingsStore.constructor | src/services/settingsService.ts:18 | the store holds the given slot |
| Settings.SettingsStore.GetSettings | src/services/settingsService.ts:16-27 | `getSettings()` on the stored slot, which is `Load` of it; its properties are those of `Load` |
| Settings.SettingsStore.GetTwilioSettings | src/services/settingsService.ts:40-42 | `getTwilioSettings()` on the stored slot; after a save it reads back the saved credentials (`SaveTwilioSettings`) |
| Settings.SettingsStore.IsTwilioConfigured | src/services/settingsService.ts:54-57 | `isTwilioConfigured()` on the stored slot, which is `Configured` of the stored credentials |
| Settings.SettingsStore.SaveSettings | src/services/settingsService.ts:30-37 | the slot holds the record, or on a write failure is unchanged and the error is 'Failed to save settings' |
| Settings.SettingsStore.SaveTwilioSettings | src/services/settingsService.ts:45-51 | the slot holds the current record with the new credentials, which read back as given; a write failure changes nothing |
| CallClient.BuildRequest | src/services/api/callService.ts:31-41 | to the patient's number, from the stored number, with the stored credentials, the stored voice URL or the API base + '/incoming' when it is empty, and the patient's fields |
| CallClient.FailureDetail | src/services/api/callService.ts:75-77 | computes the `||` chain of the failure detail; stated by `ErrorMessageClassification` |
| CallClient.ErrorMessage | src/services/api/callService.ts:70-82 | computes the `catch` block's message; stated by `ErrorMessageClassification` |
| CallClient.ErrorMessageClassification | src/services/api/callService.ts:70-79 | an axios error reports a refused connection iff its code is ECONNREFUSED; otherwise 'Failed to initiate call: ' and the first non-empty of the answer's error, the answer's message and the error's message |
| CallClient.Accepted | src/services/api/callService.ts:62-66 | a success with `callSid`, else `call_sid`, and the answer's message, else 'Call initiated successfully' |
| CallClient.InitiateCall | src/services/api/callService.ts:19-83 | `callService.initiateCall` as written; stated by `InitiateCallOutcome` and `NotConfiguredMessageSwallowed` |
| CallClient.InitiateCallOutcome | src/services/api/callService.ts:19-83 | without complete credentials nothing is sent and the caller sees 'Failed to initiate call. Please try again.', never the configuration message; with them the built request is sent, an answer gives the success result, and a failed request gives the `catch` block's `ErrorMessage`, which for a non-axios error is 'Failed to initiate call. Please try again.' |
| CallClient.InitiateCallIntended | src/services/api/callService.ts:27-29 | the corrected client; stated by `InitiateCallIntendedOutcome` |
| CallClient.InitiateCallIntendedOutcome | src/services/api/callService.ts:27-29 | corrected client: the configuration message is reported iff the credentials are incomplete, nothing is sent then, and otherwise it behaves as written |
| CallClient.NotConfiguredMessageSwallowed | src/services/api/callService.ts:27-29 | with nothing stored, the as-written client reports the generic failure and the corrected one the configuration message |
| CallHistoryFilter.Keep | src/pages/CallHistory.tsx:126-139 | `filter` returns no more elements than it was given, each passing the predicate |
| CallHistoryFilter.KeepIsSubsequence | src/pages/CallHistory.tsx:126-139 | `filter` returns a subsequence, in the original order |
| CallHistoryFilter.KeepMembership | src/pages/CallHistory.tsx:126-139 | an element is kept iff it is in the list and passes |
| CallHistoryFilter.KeepAllPass | src/pages/CallHistory.tsx:126-139 | filtering a list whose elements all pass returns the list |
| CallHistoryFilter.KeepConcat | src/pages/CallHistory.tsx:126-139 | `filter` acts element by element: the filter of a concatenation is the concatenation of the filters, and one element is kept exactly when it passes, so every passing occurrence is kept, repeats included |
| CallHistoryFilter.Lower | src/pages/CallHistory.tsx:132 | `toLowerCase` keeps the length and lowercases each character |
| CallHistoryFilter.Includes | src/pages/CallHistory.tsx:134-136 | computes `includes`; stated by `IncludesSpec` |
| CallHistoryFilter.IncludesSpec | src/pages/CallHistory.tsx:134-136 | `includes` holds iff the term occurs at some position |
| CallHistoryFilter.PassesStatus | src/pages/CallHistory.tsx:127-130 | the status filter of `filteredCalls`; stated by `FilteredMembership` and `FilteredHasStatus` |
| CallHistoryFilter.PassesSearch | src/pages/CallHistory.tsx:131-139 | the search filter of `filteredCalls`; stated by `FilteredMembership` |
| CallHistoryFilter.FilteredCalls | src/pages/CallHistory.tsx:126-139 | `filteredCalls`; stated by `FilteredMembership`, `FilteredIsSubsequence`, `FilteredShowsAll` and `FilteredIdempotent` |
| CallHistoryFilter.FilteredIsSubsequence | src/pages/CallHistory.tsx:126-139 | the shown calls are an order-preserving subsequence of all calls |
| CallHistoryFilter.ShownCountAtMostTotal | src/pages/CallHistory.tsx:205 | the shown count never exceeds the total |
| CallHistoryFilter.FilteredConcat | src/pages/CallHistory.tsx:126-139 | the shown calls of a concatenation are those of each part, concatenated, and one call is shown exactly when it passes both filters, so a passing call listed twice is shown twice |
| CallHistoryFilter.FilteredShowsAll | src/pages/CallHistory.tsx:127-131 | status 'all' with an empty search shows every call |
| CallHistoryFilter.FilteredMembership | src/pages/CallHistory.tsx:126-139 | a call is shown iff it is in the list, passes the status filter and, for a non-empty term, the lowercased term occurs in its lowercased provider, phone number or patient name |
| CallHistoryFilter.FilteredHasStatus | src/pages/CallHistory.tsx:127-128 | with a status other than 'all', every shown call has that status |
| CallHistoryFilter.FilteredIdempotent | src/pages/CallHistory.tsx:126-139 | filtering the shown calls again with the same settings changes nothing |
| BenefitsStore.Loading | src/store/benefitsStore.ts:26 | every request starts by setting loading and clearing the error, leaving the list and the viewed record as they were |
| BenefitsStore.FetchListEffect | src/store/benefitsStore.ts:24-35 | loading on and error cleared first, then the request; success stores the list; failure keeps it and records the message or 'Failed to fetch benefits list'; loading ends either way and the viewed record is untouched |
| BenefitsStore.FetchDetailEffect | src/store/benefitsStore.ts:37-48 | the same for the viewed record, with 'Failed to fetch benefits details', leaving the list untouched |
| BenefitsStore.UpdateItem | src/store/benefitsStore.ts:61-66 | the per-item update of the `.map`; stated by `ApplyUpdateSpec` and `ApplyUpdateIdempotent` |
| BenefitsStore.ApplyUpdate | src/store/benefitsStore.ts:59-68 | the list keeps its length, and each item is updated only when its id matches |
| BenefitsStore.ApplyUpdateSpec | src/store/benefitsStore.ts:59-67 | items with another id are unchanged; a matching item keeps its id and every other field, and takes the new patient name and insurance provider only where they are non-empty |
| BenefitsStore.ApplyUpdateNoMatch | src/store/benefitsStore.ts:59-68 | an id that names no item leaves the list as it was |
| BenefitsStore.ApplyUpdateIdempotent | src/store/benefitsStore.ts:59-68 | applying the same update twice equals applying it once |
| BenefitsStore.SaveEffect | src/store/benefitsStore.ts:50-84 | loading on, then the save request; on failure loading ends, the error is recorded and rethrown, and nothing else changes; with an id the list is updated in place; without one the list is refetched; the service's id is returned either way; loading always ends |
| BenefitsStore.SaveFailureRestores | src/store/benefitsStore.ts:77-83 | a failed save keeps the list and the viewed record, ends loading, records the message or 'Failed to save benefits information', rethrows the same error and does not refetch |
| BenefitsStore.SaveNewRecordRefetches | src/store/benefitsStore.ts:71-76 | saving without an id refetches the list and returns the service's id; a failed refetch only records its message |
| BenefitsStore.SaveExistingEditsInPlace | src/store/benefitsStore.ts:56-70 | saving with an id edits the list in place, keeps its length, does not refetch and returns the id |
| BenefitsStore.RequestsSettle | src/store/benefitsStore.ts:24-48 | every fetch ends with loading off, and with no error iff it succeeded |
| BenefitsStore.Store.constructor | src/store/benefitsStore.ts:18-22 | empty list, no viewed record, not loading, no error |
| BenefitsStore.Store.FetchBenefitsList | src/store/benefitsStore.ts:24-35 | state and trace as `FetchListEffect` says |
| BenefitsStore.Store.FetchBenefitsDetail | src/store/benefitsStore.ts:37-48 | state and trace as `FetchDetailEffect` says |
| BenefitsStore.Store.SaveBenefits | src/store/benefitsStore.ts:50-84 | state, result and trace as `SaveEffect` says |
| BenefitsStore.Store.ClearCurrentBenefits | src/store/benefitsStore.ts:86-88 | only the viewed record is cleared |
| BenefitsStore.Store.ClearError | src/store/benefitsStore.ts:90-92 | only the error is cleared |

## Left out

- UI rendering, routing and styling of the pages and components: they hold no logic beyond markup, and what the navigation reads is `Settings.SettingsStore.IsTwilioConfigured`.
- `src/pages/NewCall.tsx` is not part of this model: it calls the vendor APIs from the browser, and its name split repeats the relay's, which is modelled.
- The internals of `src/services/api/twilioService.ts`, `elevenLabsService.ts` and `benefitsService.ts` are not part of this model. They are HTTP wrappers or timed mocks, and their outcomes are parameters. `supabase/functions/twilio/index.ts` is one provider call plus a markup template, and is not part of this model either.
- Timers and concurrency: the 5-second poll delay is not modelled, and each poll sees its answer before any other action runs. A poll already in flight when a cancel succeeds can still publish its result in the program. In the model, the cancel and the poll do not interleave. Callbacks interleaving with queries are not modelled either.
- CallClient.InitiateCall: the 10-second request timeout itself is not modelled, only how the resulting axios error is classified.
- VoiceAgent.ClientRequestsRoute: the client and the provider address the relay as `/functions/v1/voice-agent/...`. The lemma and `PathOf` assume the hosting platform strips the `/functions/v1` prefix, so that the handler's `url.pathname` starts at the function name. That platform behaviour is not modelled. On an unstripped path `path[1]` is `v1`, so each of the four requests is answered 405 (`UnstrippedRequestsRefused`).
- JSON parsing and serialisation, local storage, the process environment, the provider SDKs and URL parsing are outside the model. A body that does not parse is a `Failure` with the parser's message.
- Settings.Load: a stored JSON value that is not an object adds no keys to the defaults. That holds for `null`, numbers and booleans. In the program, a stored string or array spread into the defaults adds one key per character or element: `"ab"` adds keys `"0"` and `"1"`. The model does not capture those keys.
- Settings.TwilioOf: a stored `twilio` value that is not an object reads as empty credentials. That matches the program for strings, numbers, booleans and arrays, whose credential fields read as `undefined`. For `twilio: null` it does not: reading `accountSid` of `null` in `isTwilioConfigured` throws a `TypeError` instead of returning false. The model does not capture that throw.
- VoiceAgent.FormatDuration: durations are unbounded natural numbers. In the program they are JavaScript numbers (doubles). Above 2^53 seconds, `parseInt`, the division and `toString` lose precision, and from 10^21 `toString` prints exponent notation. The model captures neither.
- VoiceAgent.ApplyCallback: durations are natural numbers of seconds. A non-numeric `CallDuration` (where `parseInt` gives NaN) is not modelled, and a missing `CallStatus` field is the empty string rather than `null`.
- `undefined` and `''` are not told apart in string fields. Both are falsy under `||` and `!!`, and the model reads them only through `||` and truthiness. The program also calls string methods on some of these fields, such as `data.patientName.split(' ')` in the relay and `toLowerCase()` in the call history. Those calls throw on `undefined`, and the throw is not modelled.
- CallHistoryFilter.Lower: lowercasing is ASCII only. Unicode case mapping is not modelled.
- Of the partial record passed to `saveBenefits`, only the id, patient name and insurance provider are modelled. The store reads no other field; the rest is passed to the service unread.
- Logging (`console.log` and `console.error`) is not modelled.

## Findings

| source | as written | input that shows it | evidently intended | confidence | as-written member | corrected member |
|---|---|---|---|---|---|---|
| src/services/api/callService.ts:27-29 | the configuration guard throws inside the `try`; the `catch` treats the guard's error as a non-axios error and replaces it with 'Failed to initiate call. Please try again.' | nothing stored under the settings key (empty credentials) | the caller sees 'Twilio is not configured. Please go to Settings to configure your Twilio credentials.' | not executed | CallClient.NotConfiguredMessageSwallowed | CallClient.InitiateCallIntendedOutcome |
