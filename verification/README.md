# Heel, verified

Heel reviews a product's surface for abuse: it imports an OpenAPI document, compares product models, runs
rehearsals inside signed scopes, keeps a tamper-evident log, and synchronizes a minimized projection of its
findings. This project models the parts of Heel where a mistake would be quiet, and proves what they are for.

- **Credentials** (`Rotation`, `Client`, `Fleet`). Many CLI and MCP processes share one rotating refresh token
  (section 6 of RFC 6749; the login before it is section 3.4 of RFC 8628). `Rotation` is the protocol as a step
  relation over any number of processes, one durable cell, one lock and a server that may answer, refuse or lose
  a reply. `Client` is the client code against an arbitrary world; every call leaves a trace that follows the
  protocol, and `Fleet` shows that any interleaving of such traces, with processes dying and starting again at any
  point, is a run of `Rotation`. So the guarantee, that no refresh token is presented twice, holds of the code and
  not only of a drawing of it. The durability assumption (the cleanup delete completes, nobody dies between send and
  save or delete) is shown to be exactly what is needed: a replay is reachable if and only if it was broken. `Client`
  also proves the time bound of a findings transmission, and says from the answers of clock, server and store alone
  when a call rotates, transmits and succeeds.
- **Audit log and run gate** (`AuditLog`, `Framing`, `RunGate`). Log objects cache their tail, so interleaved
  writers matter. Verification succeeds if and only if no append was stale; one stale append is fatal forever;
  the server's sequential tool calls never make one. A log that verifies has the content of a prefix of the
  honest history.
- **Bounded and canonical JSON** (`Nesting`, `Decoder`, `Encodings`, `Worklist`, `JsonText`, `Canonical`,
  `Normalization`, `Records`, `Envelope`). The flat byte scanner and the explicit stacks are proved equal to recursive definitions; the
  canonical printer is inverted by a strict parser; envelopes are content-addressed.
- **OpenAPI references and guided answers** (`Pointer`, `References`, `Paths`, `OpenApi`, `Answers`, `AnswerEffects`,
  `AnswerOutcome`, `Declaring`, `AnswerFindings`, `AnswerReview`, `ImportedModel`). From the paths of a document
  through its answers, when they apply and what they record, to the gate of the second review.
- **Static review and its projection** (`StaticReview`, `RiskRules`, `Disabling`, `Composition`, `ImportedDiffs`, `NestedOrder`, `FindingsSync`,
  `SyncRequest`, `Tags`, `SyncSizes`, `Bounds`, `SyncProjection`).
- **Rank statistics** (`Ranks`, `Correlation`) and **the MCP session** (`Session`).

HMAC, SHA-256, Unicode normalization, Ed25519 and Python's text conversions are function parameters; each lemma
states as a `requires` what it needs of them. Collision freedom is only ever asked of the finitely many texts that
occur in a statement, since no function into digests has it everywhere. That the assumptions can be met together is
proved as well: `Tags.CollisionFreeTagsExist`, `ImportedModel.ConversionsExist`, `AuditLog.SchemesExist`.

## Where the code and its documentation part

- `verify_chain` says it detects a removed tail (heel/containment.py:51-52). It does not: every prefix of an honest
  log verifies. `AuditLog.VerifiesExactlyPrefixes` states both directions.
- A second 401 is meant to clear the stored credentials (heel/cloud_client.py:552-561). The cleanup is skipped when
  the 401's body is not a recognised error document, because `_failure` raises first. `Client.CloudClient.Conclude`
  states exactly when it happens.
- Diffs need not compose. `Composition.DiffsComposeExactly` gives the exact condition on the second and third model,
  and `NestedOrder.NestedOrderBreaksComposition` two models that fail it: a nested mapping's order, invisible to the
  diff and visible to the scope rule. Models whose mappings are in order wherever a rule might read them always
  compose, imported ones among them (`ImportedDiffs.ImportedDiffsCompose`).
- Importer and answers mean the same operations exactly when no method is spelled in two ways along the references of
  a path item (`References.ResolversAgreeExactly`). With `get` and `GET` the importer lists two operations and the
  answers see one.
- `_nesting_within_limit` says it rejects deeply nested JSON before the recursive decoder sees it
  (heel/mcp_server.py:348-349). `handle_line` scans bytes and hands the same bytes to `json.loads`, which also reads
  UTF-16 and UTF-32. There one byte of U+2200 is that of a quote, and a list of this character as a string and of
  nested lists passes as one level, however deep: `Encodings.WideTextHidesNesting`. The guard holds exactly when the
  first bytes select UTF-8 (`Encodings.GuardsExactlyUtf8`); the other three callers scan the UTF-8 form of the text
  they decode.

## Model

| member | source | states |
|---|---|---|
| Rotation.NoTokenPresentedTwice | heel/cloud_client.py:460-562 | in every interleaving of refresh, device login, logout and 401 cleanup, with any reply lost or refused, no refresh token is presented twice; a durable spent token is always in the window of the lock holder |
| Rotation.StrandedExactlyByHazard | heel/cloud_client.py:474-509 | from a clean state one action strands a spent token if and only if it is a death or failed delete inside the window while that token is durable |
| Rotation.ReplayReachableExactlyWhenStranded | heel/cloud_client.py:474-509 | in any reachable state, hazards included, a second presentation is reachable if and only if a spent token is stranded |
| Rotation.SoundStep | heel/cloud_auth.py:653-701 | every action keeps mutual exclusion, freshness of minted tokens and their separation from all tokens already read |
| Rotation.CleanRun | heel/cloud_client.py:474-509 | every hazard-free run keeps the full invariant |
| Rotation.CriticalUnique | heel/cloud_auth.py:653-701 | two processes are never both inside the lock |
| Client.CloudClient.Refresh | heel/cloud_client.py:474-509 | at most one token presented, the one read under the lock; a token is presented if and only if lock and read succeed and the credentials are of this origin and unexpired, and the call succeeds if and only if then the server grants for the same device and the save succeeds; afterwards the successor is saved or a delete attempted inside the same lock, and the cache agrees |
| Client.CloudClient.Open | heel/cloud_client.py:478-483 | under the lock the durable value is read first; on any refusal the lock is free and nothing was sent |
| Client.CloudClient.Exchange | heel/cloud_client.py:484-497 | a reply counts only when it is a 200 grant for the same device; anything else leads to the cleanup |
| Client.CloudClient.Settle | heel/cloud_client.py:497-509 | a failed exchange or save empties the cache and attempts the delete before the lock is released |
| Client.CloudClient.CurrentCredentials | heel/cloud_client.py:511-520 | credentials of this origin are returned while live, and rotated if and only if they hold no access token or one expired at the reading; the outcome is decided by what store, clock and server answer |
| Client.CloudClient.Renew | heel/cloud_client.py:517-520 | live credentials are returned without presenting anything; stale ones go on to the lock, and to success exactly when the rotation succeeds |
| Client.CloudClient.Attempt | heel/cloud_client.py:539-551 | the request goes out exactly when credentials are supplied and the deadline has not been read, and again exactly when the first reply is a 401 and the rotation that follows succeeds before the deadline; at most two presented tokens |
| Client.CloudClient.Retry | heel/cloud_client.py:546-551 | after a 401 one rotation is begun, and the request goes out again exactly when it succeeds before the deadline |
| Client.CloudClient.Conclude | heel/cloud_client.py:552-562 | success exactly on the expected status; a 401 clears cache and store exactly when its body is a recognised error document |
| Client.CloudClient.Authenticated | heel/cloud_client.py:522-562 | the transmissions and bounds of Attempt, success if and only if the deciding reply has the expected status, and what a second 401 does |
| Client.CloudClient.ExchangeDeviceLogin | heel/cloud_client.py:460-472 | succeeds if and only if the reply is a 200 grant that can be saved; the grant is saved and cached, or the cache is unchanged |
| Client.CloudClient.Logout | heel/cloud_client.py:564-581 | succeeds if and only if the lock is free, the store readable, the revocation confirmed or not needed, and the delete done; only then credentials are forgotten |
| Client.CloudClient.SyncFindings | heel/cloud_client.py:683-770 | an inconsistent permit sends nothing; otherwise the permit's bytes and idempotency key go out where they are due, each time directly after a reading strictly before human approval, transport approval and lease all expire; success if and only if the deciding reply is the receipt of this request |
| Client.QuietStretch | heel/cloud_client.py:539-551 | a stretch of trace that adds no transmission contains none |
| Client.TimelyJoin | heel/cloud_client.py:532-537 | timely stretches of a trace join |
| Fleet.EventIsProtocol | heel/cloud_client.py:460-581 | every allowed entry, a client event or a death, is a short run of protocol actions leading to the named phase; it is a hazard if and only if the process is lost, or its delete fails, while the token it presented is durable |
| Fleet.JointRun | heel/cloud_client.py:460-581 | any interleaving of client traces and process deaths without a hazard keeps the protocol invariant, each process being in the phase of the life it is living |
| Fleet.StrandedExactlyByHazardous | heel/cloud_client.py:474-509 | from a clean state one entry of the interleaving strands a spent token if and only if it is hazardous |
| Fleet.DeathFreesLock | heel/cloud_auth.py:653-701 | a process that dies outside the window is no hazard, frees its lock and changes neither the store nor what was presented |
| Fleet.FleetNeverReplays | heel/cloud_client.py:460-562 | no refresh token is presented twice by any number of clients, however their steps interleave and wherever they die short of a hazard |
| AuditLog.Store.LastContainment | heel/store.py:136-137 | returns a row of greatest sequence number |
| AuditLog.Store.ContainmentLogRows | heel/store.py:139-144 | returns the stored rows, each as often as it is stored, by ascending sequence number |
| AuditLog.Store.ScopeRunCount | heel/store.py:54-55 | the loop counts each run recorded under the scope once and no other |
| AuditLog.ContainmentLog.Append | heel/containment.py:33-43 | appends one row made from the cached number and link and moves the cache to it |
| AuditLog.VerifyChain | heel/containment.py:50-65 | accepts exactly the rows whose numbers, tags and links form a chain |
| AuditLog.VerifiesExactlyWithoutStaleAppend | heel/containment.py:24-65 | for any interleaving of any number of log objects, verification succeeds if and only if every append came from an object whose cached tail was current |
| AuditLog.StaleAppendIsForever | heel/containment.py:24-65 | after one stale append no continuation verifies |
| AuditLog.CurrentAppendVerifies | heel/containment.py:33-43 | an append at the current tail keeps the log verified |
| AuditLog.IssuedRowIsOriginal | heel/containment.py:19-43 | a row with an issued tag has the content it was issued for |
| AuditLog.VerifiesExactlyPrefixes | heel/containment.py:50-65 | with tags issued by append along one history, a log verifies if and only if its content is a prefix of that history |
| Framing.ObjectTextsSuffixFree | heel/containment.py:19-21 | the text of a JSON object is never a proper suffix of the text of another |
| Framing.MessageHasOneReading | heel/containment.py:37-39 | the authenticated concatenation of link and canonical entry has one reading |
| RunGate.HeelServer.SecurityLog | heel/mcp_server.py:534-535 | adds exactly one entry and keeps the log verified |
| RunGate.HeelServer.RunAbuse | heel/orchestrator.py:45-107 | records one run and its entries, final status included, and keeps the log verified |
| RunGate.HeelServer.HeelRun | heel/mcp_server.py:585-624 | a run is recorded if and only if the stored scope is signed, has an approver, is unexpired at this moment, lists the target and has fewer runs than its limit; a refusal names the first of these that fails, adds one log entry and no run; the log stays verified |
| RunGate.VerdictExactly | heel/scope.py:150-170 | the gate opens exactly on those conditions, and gives a reason exactly when it is the first that fails |
| RunGate.CallStaysWithinScopes | heel/mcp_server.py:585-624 | one call keeps every run on its signed allowlist and every scope within its signed limit |
| RunGate.RunsStayWithinScopes | heel/mcp_server.py:585-624 | the same over any sequence of calls |
| RunGate.RecordedExactlyWhenPermitted | heel/mcp_server.py:585-624 | over any sequence of calls a run is on record if and only if it was before or a call permitted at its own moment recorded it |
| RunGate.RunsWithinExpiry | heel/scope.py:150-166 | every run recorded on the way was recorded by a call no later than the expiry signed for its scope, which has an approver |
| Nesting.NestingWithinLimit | heel/mcp_server.py:348-370 | the scanner loop computes the peak of the scanner fold against the limit |
| Nesting.ScannerDecidesNesting | heel/findings_sync.py:158-179 | for every JSON value and every text of it the scanner accepts exactly when the container nesting is within the limit |
| Nesting.ValueBalanced | heel/review_answers.py:49-70 | scanning any text of a value returns to the starting depth with a peak of its nesting |
| Decoder.ScannerTracksDecoder | heel/browser_review.py:61-83 | on arbitrary bytes the scanner's depth equals the decoder's stack height up to its first rejection |
| Decoder.ScannerGuardsDecoder | heel/browser_review.py:61-83 | whatever bytes the scanner accepts keep a decoder of these bytes within the limit; on accepted texts it refuses only what exceeds it |
| Decoder.DecoderAcceptsEveryText | heel/browser_review.py:119-143 | the decoder accepts every text of every value |
| Encodings.Utf8PayloadGuarded | heel/mcp_server.py:1086-1111 | whatever the payload, if its first bytes select UTF-8, with or without a mark, a payload the scanner accepts keeps the decoder within the limit |
| Encodings.WideTextHidesNesting | heel/mcp_server.py:1086-1111 | in every other encoding, marked or not, and for every depth some payload is detected as that encoding, is one level deep for the scanner and goes to that depth in the decoder |
| Encodings.GuardsExactlyUtf8 | heel/mcp_server.py:348-370 | for every positive limit, the scanner guards the decoder on all payloads of an encoding if and only if the encoding is UTF-8 |
| Worklist.NodeCountWithinLimit | heel/mcp_server.py:373-386 | decides whether the recursively counted size is within the limit |
| Worklist.PreflightJsonGraph | heel/findings_sync.py:207-242 | decides node count and, at every node, depth, width, key and text length and integer range |
| Worklist.ValidateGraph | heel/browser_review.py:90-116 | decides its recursive definition and names the kind of violation |
| JsonText.ParseInvertsPrint | heel/canary_contracts.py:167-193 | strictly parsing a canonical text returns the value printed |
| JsonText.PrintInjective | heel/canary_contracts.py:187-193 | equal canonical texts come from equal values |
| Canonical.NormalizeIdempotent | heel/canary_contracts.py:133-164 | normalizing a normalized value changes nothing |
| Normalization.NormalizeExactly | heel/canary_contracts.py:133-164 | normalization succeeds exactly on values at most 16 deep, of integers from 0 to 2^53 - 1, fitting texts and keys that stay different, and replaces every text by its normal form and nothing else |
| Canonical.CanonicalRoundTrip | heel/canary_contracts.py:167-193 | parsing canonical bytes returns the normalized value |
| Canonical.CanonicalTextInjective | heel/canary_contracts.py:187-193 | canonical texts are equal if and only if the normalized values are equal as Python values |
| Canonical.SortKeysDecidesEquality | heel/canary_contracts.py:187-193 | key sorting decides Python equality of values without duplicate keys |
| Canonical.SortKeysIdempotent | heel/canary_contracts.py:187-193 | key sorting is idempotent |
| Canonical.SignedFieldsExactly | heel/canary_contracts.py:393-400 | the digest covers exactly the fields outside digest, key and signature |
| Canonical.OneDigestOneRecord | heel/canary_contracts.py:393-400 | unless their two texts collide, accepted records with one digest agree on every signed field |
| Records.TidyRecord | heel/review_contract.py:109-118 | an object written in ascending key order is its own canonical form |
| Records.StableTextInjective | heel/review_contract.py:109-118 | the canonical text determines such a value |
| Records.SortByKey | heel/review_contract.py:255-262 | sorting by a separating key forgets the input order and is idempotent |
| Envelope.KeysSeparate | heel/review_contract.py:255-262 | the four sort keys tell all records apart |
| Envelope.BodyInjective | heel/review_contract.py:346-351 | equal bodies agree on every field |
| Envelope.BuildIgnoresOrder | heel/review_contract.py:360-430 | building is invariant under permutations of findings, controls, regressions and questions |
| Envelope.BuildValidates | heel/review_contract.py:265-430 | whatever is built passes validation unchanged |
| Envelope.BuildExactly | heel/review_contract.py:265-430 | building yields an envelope if and only if it is valid and carries the input with its records in some order, so there is exactly one |
| Envelope.GateMeans | heel/review_contract.py:360-430 | the gate blocks if and only if a finding blocks, and passes if and only if there is none |
| Envelope.EqualHashEqualEnvelope | heel/review_contract.py:265-357 | valid envelopes with equal result hashes are equal, unless the texts of their bodies collide |
| Pointer.UnescapePointerToken | heel/review_answers.py:230-243 | the loop computes the recursive decoding, error case included |
| Pointer.UnescapeTotalOnValid | heel/openapi_model.py:276-289 | decoding succeeds exactly on tokens without a malformed escape |
| Pointer.SinglePassIsTwoPass | heel/openapi_model.py:276-289 | the single pass equals the two substitutions of section 4 of RFC 6901 on every valid token |
| Pointer.UnescapeInvertsEscape | heel/openapi_model.py:276-289 | decoding inverts escaping for every string |
| Pointer.EscapeInvertsUnescape | heel/openapi_model.py:276-289 | escaping inverts decoding on valid tokens without a raw slash |
| Pointer.UnescapeInjective | heel/openapi_model.py:254-259 | decoding is injective on tokens without a raw slash |
| Pointer.RawSlashCollides | heel/openapi_model.py:254-259 | with a raw slash it is not |
| References.ChainFits | heel/openapi_model.py:240-273 | a chain of distinct resolvable references is no longer than the component map, so resolution terminates on every document |
| References.ResolveSucceedsExactlyWhenItEnds | heel/openapi_model.py:240-273 | resolution succeeds if and only if following references reaches an item without one |
| References.ResolveGivesOutermost | heel/openapi_model.py:240-273 | each key gets its outermost definition along the chain |
| References.EffectiveOk | heel/review_answers.py:200-227 | where the references end, the answers resolve exactly the path items whose methods hold objects all along the chain |
| References.EffectiveFollowsTrail | heel/review_answers.py:200-227 | for a method with one spelling the answers find its outermost definition along the same chain |
| References.ResolversAgreeExactly | heel/openapi_model.py:87-100 | whatever the answers can resolve the importer lists; for every method it lists the operation the answers would change and no other, if and only if no method is spelled in two ways along the chain |
| References.EndlessRejected | heel/review_answers.py:200-227 | path items whose references never end are rejected by both |
| References.ImporterListsExactly | heel/openapi_model.py:87-97 | where the references end, the importer lists the path item if and only if every method spelled on the way means an object outermost |
| References.MixedCaseDisagrees | heel/review_answers.py:221-226 | every path item with two spellings of one method is one on which they differ |
| Paths.ImportedPlacesAgree | heel/openapi_model.py:77-115 | for a document without two spellings, the places of the importer are the places at which the answers find operations |
| Paths.ImportedExactly | heel/openapi_model.py:77-97 | a document is imported if and only if every path is an extension or a slash route with a listable path item |
| Paths.TargetsAgree | heel/review_answers.py:183-197 | the operation objects an answer can change are those the importer put at the places of its surface |
| Answers.ApplyReviewAnswers | heel/review_answers.py:128-180 | the loop over the normalized answers changes the copied document as the fold of single answers does, and fails exactly when that does |
| AnswerOutcome.AppliedExactly | heel/review_answers.py:105-180 | answers are applied if and only if they are at most 64 without contradiction, each is to a question asked exactly once that is neither about a product rule nor the product, one operation object stands behind it that can take it, and no two scope one object |
| AnswerOutcome.ApplyOneExactly | heel/review_answers.py:147-178 | the same for one answer, which changes that object and no other |
| AnswerOutcome.AnswersOnRecord | heel/review_answers.py:165-166 | afterwards each operation has on record, under each answered field, what the customer said, and what nobody answered as before |
| AnswerOutcome.RecordSays | heel/review_answers.py:165-166 | the record spells the answer out and calls it declared unless it is unknown |
| AnswerEffects.ContainsSplit | heel/openapi_model.py:489-551 | a word without spaces lies on one side of a space |
| AnswerEffects.JoinsKept | heel/openapi_model.py:319-419 | declaring a missing tenant scope moves an operation into no surface list and out of none |
| AnswerEffects.FamiliesAfter | heel/review_answers.py:256-276 | an enforced control answer adds its own control family and no other, whatever shape the declaration had |
| AnswerEffects.EnforceEffect | heel/review_answers.py:246-276 | an enforced answer closes its own topic and leaves other topics and all lists |
| AnswerEffects.AnswersCloseExactly | heel/review_answers.py:128-180 | of all questions, those about product rules included, re-import asks exactly what it asked before less the enforced topics at the places sharing the answered operation; no place changes lists, and security schemes with their questions stay |
| Declaring.ControlKept | heel/static_review.py:465-477 | a control that is bad after answers was bad before |
| Declaring.DeclaringAddsNothing | heel/static_review.py:194-420 | for every kind of surface and all properties, declaring controls adds no finding |
| AnswerFindings.ChangeProgress | heel/review_answers.py:128-180 | an answer loses no declaration and adds only declarations |
| AnswerFindings.EntryDeclares | heel/openapi_model.py:448-479 | the entry of an answered operation differs only in metadata, where controls are kept or declared |
| AnswerFindings.ItemsDeclare | heel/openapi_model.py:319-419 | every list of the second import but the declared controls is as long as before, and each item differs from the one in its place by declarations only |
| AnswerFindings.RaisedKept | heel/openapi_model.py:319-419 | every finding of a document after answers was a finding before |
| AnswerReview.AnswersAddNothing | heel/browser_review.py:156-183 | answers never add a finding to the second review |
| AnswerReview.UnenforcedKeepFindings | heel/review_answers.py:167-168 | answers of which none is enforced leave the findings exactly as they were |
| AnswerReview.SeverityByRisk | heel/static_review.py:217-383 | among imported surfaces only an over-scoped agent surface blocks |
| ImportedModel.ReviewReports | heel/review_service.py:57-72 | the review of the imported model against the empty baseline reports exactly what the surfaces of the document raise, one finding per key |
| ImportedModel.AnsweredStaysReviewable | heel/browser_review.py:164-172 | when no list of the imported model names a surface twice, none does after answers, so the second review succeeds |
| ImportedModel.GateNeverWorsens | heel/browser_review.py:164-172 | the second review reports no location and risk the first did not report, and its gate is at most the first one's |
| ImportedModel.AgentItemScopes | heel/openapi_model.py:400-416 | the two scopes the importer asks about come from the agent tool alone |
| StaticReview.ItemsById | heel/static_review.py:441-462 | fails exactly on a repeated identifier, otherwise returns the table of the list |
| StaticReview.ChangedSurfaces | heel/static_review.py:179-191 | returns exactly the surfaces that are new or whose canonical JSON differs |
| StaticReview.Dedupe | heel/static_review.py:143-151 | one finding per key, the last one raised under it, and no key lost |
| StaticReview.ReviewProductModels | heel/static_review.py:135-170 | reports exactly the keys of the changed surfaces, each once, each finding raised by a change, and gates on what it reports |
| RiskRules.RiskReportedExactly | heel/static_review.py:194-420 | on every kind of surface and for all properties each of the eleven risks is reported if and only if the named properties have the named values, then once, blocking and reachable exactly as stated |
| RiskRules.OffIs | heel/static_review.py:465-477 | a control is bad if and only if the first present of its names holds false or one of ten words |
| RiskRules.ExposedIs | heel/static_review.py:490-497 | when a surface counts as reachable |
| Disabling.ReportedExactlyWhenDue | heel/static_review.py:135-214 | a review reports a location and risk if and only if the risk is due on a changed surface there |
| Disabling.BlocksExactly | heel/static_review.py:194-420 | a reported finding blocks if and only if its risk does on its surface |
| Disabling.DisablingKeepsFindings | heel/static_review.py:465-477 | setting any control of a surface to false takes no finding away and makes none milder |
| Disabling.FlagGuardIsNoControl | heel/static_review.py:386-400 | on a feature flag `guard` is the gate and no control: setting a client guard to false does take the finding away |
| Disabling.UnaccountedMeterReported | heel/static_review.py:290-305 | a billable meter with server_side_accounting false is reported and warns |
| Disabling.UnfilteredEndpointBlocks | heel/static_review.py:244-262 | a reachable endpoint with tenant_filter false blocks |
| Composition.DiffsComposeExactly | heel/static_review.py:135-214 | every key reported from a to c is reported from a to b or from b to c, for all a, if and only if each surface unchanged from b to c raises in b what it raises in c, or the diff reports it |
| Composition.SettledComposes | heel/static_review.py:135-214 | under that condition composition holds from every first model, whatever its identifiers |
| Composition.CanonicalModelsSettled | heel/static_review.py:179-191 | models with every mapping in ascending order meet the condition |
| Composition.CanonicalExactlyWhenOrdered | heel/static_review.py:507-533 | a value is its own canonical form if and only if each mapping inside lists its names in ascending order |
| Composition.OrderlyModelsSettled | heel/static_review.py:194-420 | so do models with mappings in order outside the names no rule reads |
| ImportedDiffs.ImportedDiffsCompose | heel/openapi_model.py:448-479 | diffs through and to imported models compose whenever their agent tools have their mappings in order |
| StaticReview.DiffWithinFullReview | heel/static_review.py:179-214 | every key of a diff is a key of the review against the empty baseline |
| StaticReview.SelfReviewPasses | heel/static_review.py:179-191 | a model against itself reports nothing |
| NestedOrder.OrderSensitiveTextBreaksComposition | heel/static_review.py:327-346 | whenever the text of a mapping depends on its order, composition fails |
| NestedOrder.NestedOrderBreaksComposition | heel/static_review.py:507-533 | a concrete product model on which it fails |
| FindingsSync.EmittedIsListed | heel/static_review.py:194-420 | every finding the analyser can raise on any surface is in the closed catalogue with an allowed state and control |
| FindingsSync.ControlsAgree | heel/findings_sync.py:71-138 | analyser and catalogue name the same control for every risk |
| SyncRequest.ProjectFindings | heel/findings_sync.py:342-376 | accepts exactly the catalogued findings with pairwise distinct identities |
| SyncRequest.IdentityInjective | heel/findings_sync.py:286-290 | unless two of the tagged texts collide, the pseudonymous identity determines surface and risk |
| Tags.CollisionFreeTagsExist | heel/findings_sync.py:286-290 | every review of at most 512 findings has a tag function into 64 hexadecimal digits that separates its texts |
| SyncSizes.FindingWithin | heel/findings_sync.py:367-375 | one projected finding prints within 372 bytes and 8 nodes |
| SyncSizes.RequestWithin | heel/findings_sync.py:207-242 | a request of 512 findings stays within 191,440 bytes, 4,109 nodes and the preflight's limits |
| SyncProjection.ProjectionNeverFailsLate | heel/findings_sync.py:331-505 | once the checks before assembly pass, the request passes its own validation |
| SyncProjection.ReviewIsProjectable | heel/static_review.py:135-170 | what the static review reports is catalogued and has unique identities, unless two of the tagged texts collide |
| SyncProjection.ReviewsAlwaysSync | heel/findings_sync.py:331-505 | every built review of at most 512 findings of the analyser projects unless two of its tagged texts collide, validates unchanged and fits the size limit |
| SyncProjection.GateCarriedOver | heel/findings_sync.py:376-397 | the gate and the counts of the request are those of the envelope |
| SyncProjection.CodesDiffer | heel/findings_sync.py:71-138 | different risks have different control codes |
| Bounds.WithinRecord | heel/findings_sync.py:207-242 | the bounds of an object from the bounds of its fields |
| Ranks.AvgRanks | heel/backtest.py:24-36 | each rank is the number of smaller elements plus half of one more than the number of equal ones |
| Ranks.Spearman | heel/backtest.py:39-47 | numerator over the shorter input and squared norms over all of both; nothing for a short first or a constant input, an error for two or more values against none |
| Correlation.DeviationsCancel | heel/backtest.py:43-46 | each deviation is the rank less (n + 1) / 2, and they sum to zero |
| Correlation.NumeratorByDistance | heel/backtest.py:43-47 | for samples of one length, ties or not, twice the numerator is the sum of the squared norms less the squared rank differences |
| Correlation.ClassicalFormula | heel/backtest.py:39-47 | without ties both squared norms are n (n^2 - 1) / 12 and the coefficient is 1 - 6 d / (n (n^2 - 1)) |
| Correlation.ReverseOrder | heel/backtest.py:39-47 | samples in reverse order have the coefficient -1 |
| Correlation.SwappedSamples | heel/backtest.py:39-47 | swapping two samples of one length keeps the numerator and swaps the norms |
| Ranks.RanksSumTotal | heel/backtest.py:24-36 | ranks sum to n(n+1)/2 |
| Ranks.RankMonotone | heel/backtest.py:24-36 | ranks order elements as their values do |
| Ranks.SameOrderSameRanks | heel/backtest.py:24-36 | ranks depend on the order of the values only |
| Ranks.CauchySchwarz | heel/backtest.py:39-47 | the squared numerator never exceeds the product of the squared norms, for inputs of any two lengths |
| Ranks.CoefficientBounded | heel/backtest.py:39-47 | the unrounded coefficient lies in [-1, 1], for inputs of any two lengths |
| Ranks.UndefinedExactlyWhenConstant | heel/backtest.py:39-47 | the coefficient is undefined if and only if the first input is short or one of two non-empty inputs is constant, and an error if and only if the second is empty and the first is not short |
| Session.Live.HandleLine | heel/mcp_server.py:1086-1190 | one line changes the session as the step function says |
| Session.HandlerRunsExactly | heel/mcp_server.py:1008-1083 | a handler runs if and only if a ready session is asked under an id for a registered tool with valid arguments, then once for the session's caller, and how that is answered |
| Session.InitializeAgrees | heel/mcp_server.py:1008-1083 | a complete initialize of a new session agrees to a known version as requested, else to the latest, and names the caller after the client |
| Session.InitializedIsReady | heel/mcp_server.py:1008-1083 | the notification that ends initialization makes the session ready without an answer |
| Session.StepFacts | heel/mcp_server.py:1008-1190 | one line moves at most one stage forward, runs at most one handler and only when ready, never answers a frame without an id, and answers under the request's id or null |
| Session.SessionSafety | heel/mcp_server.py:1086-1190 | over any sequence of lines caller and protocol are fixed once set, handlers run only when ready, stages only advance |

## Left out

- Files, modes, fsync, the Keychain and flock themselves (heel/cloud_auth.py): one atomic cell and one lock.
- heel/sync_queue.py, heel/runner and heel/saas: the transmission permit is a given record.
- Cryptography, regular expressions, NFC, base64 and Python's `str`, `lower` and `strip`: functions with stated properties.
- Floating point: product models and canonical JSON hold integers; ranks are exact reals without the final rounding.
- UTF-8: texts are code points and sizes count their UTF-8 bytes; decoding errors are not modelled. The diff's own JSON escapes non-ASCII text, the model's does not; both are injective.
- Python's conflation of `1` and `True` in dictionary keys, and values that cannot be dictionary keys.
- Checks that an untyped object has exactly the expected fields (envelope, findings-sync request): these records are typed.
- Non-empty baselines for guided answers: the two-pass review always uses the empty one (heel/review_service.py:57-72).
- Import errors of malformed operations and extensions, and the lists of sign-up flows, seats and product areas, which the review does not read.
- Audit entries: time stamps are integers and details are texts; row 0's link is not pinned by the code and therefore not by the model.
- Decoder.ScannerTracksDecoder: the decoder is permissive about the spelling of literals, so it rejects no earlier than a strict one.
- AuditLog.Store.ContainmentLogRows: without the filter on one run, which `verify_chain` does not use.
- ImportedDiffs.ImportedDiffsCompose: the condition on agent tools is sufficient; the exact one is that of Composition.DiffsComposeExactly.
- RunGate.HeelServer.RunAbuse: only run rows and log entries; agents, personas and findings are not part of this model.
- Session.Live.HandleLine: a frame is given by what its checks find; the scanner and the node count it uses are in Nesting and Worklist.
- Suggested regressions, exports, reports, REST handlers, the command line, scenario catalogues and economic estimates: easy members only.
