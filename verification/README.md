# Facturify protocols in Dafny

A model of the parts of Facturify that are hard to get right, with proofs of what they guarantee. Facturify issues
electronic documents in Peru: it prepares and submits invoices to SUNAT, voids them, sums receipts up in daily
summaries, announces status changes to webhooks, and exposes an HTTP interface with idempotent requests, throttled
logins and paged listings.

Most of these operations are small protocols over shared database rows. A protocol is modelled twice:

* as a state machine (`Documents`, `Idempotency`, `TicketLease`, `Outbox`): one action is one atomic statement of one
  call, a run is any sequence of actions, calls interleave without bound, any statement may fail without effect, any
  call may crash between two statements, and time only moves forward. The theorems quantify over all runs;
* as code (`DocumentServices`, `IdempotencyService`, `TicketService`, `OutboxService`): classes whose fields are the
  rows and whose methods are the statements and operations of the services, with other calls running between any two
  statements. The environment decides, moment by moment, what others do, which statements fail and what is answered.

The two meet in the course of a call (`Runs.Follow`, and `DocumentCalls`, `TicketCalls`, `IdempotencyCalls`,
`OutboxCalls`): its own steps in the machine, one after the other, with the steps of others in between, to its end.
Every operation in code is proved to end in exactly the state, and with exactly the result, in which its course ends. A
course is a run, so every theorem on runs holds of the code; and further theorems tell from the guards that the
statements find, whatever others do, exactly when an operation succeeds (`DocumentOutcomes`, `OutboxOutcomes`, and the
`Calls` modules) and what it leaves in the rows, in literal statuses, codes and times (`DocumentResults`,
`TicketOutcomes`, `WebhookOutcomes`).

The map of throttle records, the canonical JSON printer, pagination, tax arithmetic and the signature header are
sequential; they are modelled by functions with independent references, and by methods with loops where the source
loops.

| files | what |
|---|---|
| `Runs`, `Common` | runs of a machine, the course of one call among others, and shared datatypes |
| `Lifecycle`, `Documents*`, `DocumentCalls`, `DocumentServices`, `DocumentOutcomes`, `DocumentResults`, `DocumentLeaks` | status table, issuance, voiding, daily summaries, transactional events, artifacts |
| `Idempotency*` | at-most-once execution and replay |
| `JsStrings`, `Canonical*`, `SensitiveKeys`, `RequestPath`, `Fingerprint`, `RequestReading` | canonical JSON and normal paths as keys, and the text hashed into a fingerprint |
| `Ticket*`, `Backoff` | SUNAT ticket polling: policy, lease, spacing |
| `WebhookPolicy`, `Outbox*`, `WebhookOutcomes` | webhook outbox with many instances and with one |
| `AuthThrottle*` | failed login throttle |
| `Paging*` | cursor pagination |
| `Tax*` | tax arithmetic with rounding |
| `SignatureHeader`, `SignatureReading` | webhook signature header |

Findings about the code, each stated as a lemma:

* a receipt leaves the lifecycle table whenever a daily summary closes on it while it is PENDING, which is the ordinary
  end of a receipt, and also when a relink or a prepare error hits one that has closed meanwhile; these steps, and no
  others, leave it (`DocumentsTheorems.ReceiptStepsFollowTable`, `OrdinaryCloseLeaves`, `ReceiptsLeaveTheTable`);
* a document in PROCESSING or SENT can change again exactly if a live call holds it; a crash of the holder leaves it
  there forever (`DocumentsTheorems.ChangesIffHeld`, `CrashOrphans`);
* final rows are safe from late polls and slow batches exactly if polls end within the lease of 120 seconds and batches
  within 5 minutes (`TicketLeaseTheorems.SafeIffWithinLease`, `OutboxTheorems.SafeIffWithinStale`);
* evicting a throttle record lifts a block exactly if the record is the oldest of a map that stays full after pruning
  and its block has not ended (`AuthThrottleTheorems.EvictionLiftsBlockIff`, `RoomDropsOldest`);
* the fingerprint text stays unambiguous even if the path contains the separator; it identifies the requests of a
  method and a company exactly if neither contains it (`Fingerprint.PreimageDecidesRequest`, `IdentifiedIffNoPipe`);
* a path with a second question mark shares its fingerprint with the path cut there (`RequestPath.SecondQueryIsLost`);
* the throttle window is fixed, although its comment says sliding or fixed: failures bunched around the end of a window
  need not block (`AuthThrottleTheorems.BlockedIff`, `SlidingWindowMayNotBlock`);
* storage is left with a file that nothing links or deletes exactly by a crash, a failed delete, a link over an older
  one, as when an ERROR document is issued again, and a void whose documents no longer pass when its CDR has been saved
  (`DocumentLeaks.OrphanedIff`, `OrphansOfRun`);
* an id cursor whose row the filters leave out loses the first row after it (`Paging.IdCursorAgreesIff`);
* a webhook signature is read up to its 64 digits: endings that are no hexadecimal pair are ignored
  (`SignatureReading.ValidIff`, `EndingsAreIgnored`);
* a signature header built with timestamp 0 is refused as malformed; every other timestamp in tolerance is accepted
  (`SignatureHeader.BuiltHeadersVerify`).

Units: times in milliseconds, quantities in 1/10000, money in cents, strings as UTF-16 code units. Identifiers, hashes
and fingerprints are numbers; equal hashes stand for equal inputs.

To verify: `dafny verify dfyconfig.toml --resource-limit 2000000`.

## Model

| member | source | states |
|---|---|---|
| `Lifecycle.EvaluateFollowsTable` | src/document-lifecycle/document-lifecycle.service.ts:49-129 | For every pair of statuses and every option: a transition is allowed exactly if it is an edge of the table (with confirmation for VOIDED) or an authorised self-loop, and the listed next states are exactly the allowed ones |
| `Lifecycle.PathsRespectTerminals` | src/document-lifecycle/document-lifecycle.constants.ts:23-38 | Along any path of table steps, REJECTED and VOIDED are never left and VOIDED is reached only through ACCEPTED or OBSERVED |
| `DocumentsTheorems.IssuanceOwnership` | src/processing/document-preparation.service.ts:41-64 | In every reachable interleaving with crashes and failing statements, at most one call is past the lock of a non-receipt document and unfinished, and the row status is the one its program point relies on |
| `DocumentsTheorems.RowChangesOnlyBy` | src/processing/document-submission.service.ts:43-47 | A non-receipt row changes only by the call that holds it, by a call that locks a PENDING or ERROR row, or by a void of an ACCEPTED, OBSERVED or VOIDED one, and its history only grows |
| `DocumentsTheorems.OnlyTheOwnerWrites` | src/processing/document-preparation.service.ts:111-143 | While a call holds a document, no step of any other call, void or summary changes the row |
| `DocumentsTheorems.WritesLandAsIntended` | src/processing/document-submission.service.ts:78-106 | The writes by id alone find PROCESSING (link, prepare error) or SENT (result, submit error), and after a successful prepare neither the guards nor the compare-and-set of submit can fail on a non-receipt |
| `DocumentsTheorems.OrphansStay` | src/processing/document-issuance.service.ts:16-24 | A PROCESSING or SENT row that no live call holds is never changed again by any sequence of actions: the code has no recovery for it |
| `DocumentsTheorems.CrashOrphans` | src/processing/document-preparation.service.ts:49-143 | Every crash of a holder leaves such a row: unchanged, PROCESSING or SENT, held by nobody |
| `DocumentsTheorems.ChangesIffHeld` | src/processing/document-issuance.service.ts:16-24 | In every reachable world a PROCESSING or SENT row can ever change again if and only if a live call holds it |
| `DocumentsTheorems.LifecycleRefinement` | src/document-lifecycle/document-lifecycle.constants.ts:23-38 | In every reachable world the whole status history of a non-receipt document is a path of the table, up to the relink self-loop and repeated voids |
| `DocumentsTheorems.StatusStepsAreAllowed` | src/processing/void-communication.service.ts:137-158 | One action moves a non-receipt status only as the lifecycle service allows; terminal states stay; VOIDED is entered only from ACCEPTED or OBSERVED although check and write are separate steps |
| `DocumentsTheorems.ReceiptStepsFollowTable` | src/processing/daily-summary.service.ts:147-173 | In every consistent world a step of a receipt follows the lifecycle table if and only if it is none of: a relink of a receipt no longer PROCESSING, PENDING or ERROR; a prepare error on one not PROCESSING, SENT or ERROR; a closing transaction whose result is no table step from its status |
| `DocumentsTheorems.OrdinaryCloseLeaves` | src/processing/daily-summary.service.ts:147-173 | So every summary that closes on a PENDING receipt, its ordinary end, leaves the table |
| `DocumentsTheorems.ReceiptsLeaveTheTable` | src/processing/document-preparation.service.ts:111-119 | The relink does occur: a run from the empty world in which a receipt goes from ACCEPTED back to PROCESSING |
| `DocumentsTheorems.EventLogIsHistory` | src/outbox/document-event-outbox.service.ts:9-34 | The outbox events of a non-receipt document are its status writes with SENT and the relink erased, a prefix of created (processing error)^n processing (rejected, or accepted/observed voided^k), and the last event determines the status up to PROCESSING/SENT |
| `DocumentsTheorems.HistoryLog` | src/documents/documents.service.ts:85-90 | Every committable history from PENDING produces a log of that language, with the counts that say where it stands |
| `DocumentsTheorems.EventsMatchStatus` | src/outbox/document-event-outbox.service.ts:28-34 | Whenever any step enqueues an event, for receipts too, the document status is the one the event is compatible with, so the compatibility check never refuses |
| `DocumentsTheorems.NoDanglingArtifacts` | src/processing/document-preparation.service.ts:109-130 | In every reachable world each XML, ZIP and CDR id linked by a document, summary or communication is in storage, and nothing an unfinished call may still delete is linked anywhere |
| `DocumentsInvariant.RunKeepsStatus` | src/processing/document-preparation.service.ts:31-146 | Every run keeps the ownership and history invariant |
| `DocumentsArtifacts.RunKeepsArtifacts` | src/processing/document-submission.service.ts:66-89 | Every run keeps linked artifacts stored and apart from those that calls may delete |
| `DocumentServices.Backend.Prepare` | src/processing/document-preparation.service.ts:31-146 | The code of prepare takes exactly its course, statement by statement with interference in between: it stops where submit starts, the rest of the course to come, or ends in the state where the course ends without a result |
| `DocumentServices.Backend.Lock` | src/processing/document-preparation.service.ts:49-64 | The compare-and-set on the status that was read, with its event, and nothing else |
| `DocumentServices.Backend.Link` | src/processing/document-preparation.service.ts:111-119 | Both artifact ids and PROCESSING are written by id, or the call goes on to compensate for both |
| `DocumentServices.Backend.Submit` | src/processing/document-submission.service.ts:30-109 | The code of submit ends in the state where the course ends and returns its result, no more and no less |
| `DocumentServices.Backend.RecordResult` | src/processing/document-submission.service.ts:70-86 | Accepted, observed or rejected, as SUNAT answered, becomes the status ACCEPTED, OBSERVED or REJECTED, committed together with the event of that name and the CDR id; or the call goes on to drop the CDR |
| `DocumentServices.Backend.IssueDocument` | src/processing/document-issuance.service.ts:16-24 | Prepare, then submit: whatever others do between any two statements, the state and the result are those in which the course of an issue ends |
| `DocumentCalls.CourseIsRun` | src/processing/document-issuance.service.ts:16-24 | The course of a call among others is a run of the state machine, so every theorem on runs holds of the code |
| `DocumentOutcomes.IssueSucceedsIff` | src/processing/document-issuance.service.ts:16-24 | issue returns a result if and only if the row is preparable when read, still has that status when locked, is no receipt, every later statement succeeds and SUNAT answers with a CDR; the result is that of the CDR, and nothing others do after the lock matters |
| `DocumentOutcomes.ReceiptHasNoResult` | src/processing/document-submission.service.ts:36-40 | A receipt is prepared but never submitted: its course has no result, whatever happens |
| `DocumentOutcomes.UndisturbedIssueSucceeds` | src/processing/document-issuance.service.ts:16-24 | A preparable document that no other call touches before the lock, with every statement good, gets its result |
| `DocumentResults.ReportedIsWritten` | src/processing/document-submission.service.ts:66-86 | Whatever others do: an issue that reports a result leaves the row ACCEPTED, OBSERVED or REJECTED as SUNAT answered, the event of that name last in the log, and the CDR linked and stored |
| `DocumentResults.UndisturbedIssueShows` | src/processing/document-submission.service.ts:66-86 | A PENDING or ERROR document left alone until the lock, with good statements, ends in the status and event of the answer |
| `DocumentResults.HeldIssueLeaves` | src/processing/document-submission.service.ts:90-106 | From the lock on an issue ends with a result as above, or with ERROR and its event, or with its last statement failed and the row left PROCESSING or SENT |
| `DocumentServices.Backend.CreateAndSend` | src/processing/daily-summary.service.ts:33-96 | Both createAndSend operations end in the state where the course ends and return its communication, which is SENT with a ticket |
| `DocumentOutcomes.SendSucceedsIff` | src/processing/void-communication.service.ts:33-92 | createAndSend returns a communication if and only if its documents are eligible when read and its four statements succeed |
| `DocumentResults.SendLeaves` | src/processing/void-communication.service.ts:46-92 | createAndSend touches no document; reported, its row is SENT with a ticket, about the documents asked for, its archive stored; failed after the insert, the row is in error unless that write failed too |
| `DocumentServices.Backend.Commit` | src/processing/void-communication.service.ts:147-170 | The closing transaction commits exactly if it is not refused and every linked document exists; then every receipt of a summary is ACCEPTED, OBSERVED or REJECTED as answered, every document of a void VOIDED, or untouched if the void was rejected, each with its event |
| `DocumentServices.Backend.RefreshStatus` | src/processing/void-communication.service.ts:95-172 | Both refreshStatus operations end in the state where the course ends and report whether it closed |
| `DocumentOutcomes.RefreshSucceedsIff` | src/processing/void-communication.service.ts:95-172 | refreshStatus closes if and only if the ticket is there when read, SUNAT answers with a CDR, every statement succeeds and, for an accepted void, all documents are voidable when checked |
| `DocumentResults.ClosedIsWritten` | src/processing/void-communication.service.ts:134-171 | A refresh that closes has written the answer it got: row accepted or rejected with its CDR stored, receipts ACCEPTED, OBSERVED or REJECTED, voided documents VOIDED or, for a rejected void, as they were; and no other document changes |
| `DocumentResults.OpenRefreshLeaves` | src/processing/void-communication.service.ts:96-145 | A refresh that does not close leaves all rows as they were, but for a communication whose ticket ended without CDR, which is in error |
| `DocumentLeaks.OrphanedIff` | src/processing/void-communication.service.ts:134-171 | A step leaves a stored artifact that no row links and no call will delete if and only if it is the crash of its holder, a failed delete, the failing check of a void after its CDR was saved, or a link over an older one |
| `DocumentLeaks.OrphansOfRun` | src/processing/document-preparation.service.ts:109-143 | After any run an artifact is orphaned if and only if one of its steps gave it up in one of these ways |
| `DocumentLeaks.EveryLinkIsTheOnlyOne` | src/processing/document-preparation.service.ts:109-119 | In every reachable world an artifact is linked by one column of one row at most |
| `IdempotencyTheorems.AtMostOncePerDay` | src/idempotency/idempotency-persistence.service.ts:14-57 | In every run under a nondecreasing clock two NEW results for one key are at least 24 hours apart, or the first one was aborted in between and never completed |
| `IdempotencyTheorems.ReplaysReturnTheOriginal` | src/idempotency/idempotency-persistence.service.ts:34-44 | Every REPLAY returns the response that the creator of that very record completed, under the same key and fingerprint, and all replays of a record agree |
| `IdempotencyTheorems.ExpiredDeleteSparesLiveRows` | src/idempotency/idempotency-persistence.service.ts:30-33 | However late the delete of an expired row runs, no row that has not expired is removed |
| `IdempotencyTheorems.OneRequestPerRecord` | src/idempotency/idempotency.interceptor.ts:20-30 | At most one request is between NEW and the end of handler, complete or abort for a record |
| `IdempotencyTheorems.RunKeeps` | src/idempotency/idempotency-persistence.service.ts:14-57 | Every run keeps the log, the rows and the requests consistent |
| `IdempotencyService.Table.Create` | src/idempotency/idempotency-persistence.service.ts:17-24 | The insert conflicts exactly if the key has a row, succeeds exactly if it has none, with a record that expires a day after the time read, or throws; no other row changes |
| `IdempotencyService.Table.Judge` | src/idempotency/idempotency-persistence.service.ts:29-44 | A found row is expired, or replayed exactly if fingerprint and completion match, or refused |
| `IdempotencyService.Table.Begin` | src/idempotency/idempotency-persistence.service.ts:14-45 | The code of begin with its restart after a delete takes exactly its course: NEW with the rest of the course to come, or REPLAY or an error where the course ends with that answer |
| `IdempotencyCalls.TakenKeyAnswersIff` | src/idempotency/idempotency-persistence.service.ts:25-44 | A request that finds its key taken by a row that has not expired is answered by replay if and only if that row is completed for the same fingerprint, and refused otherwise |
| `IdempotencyCalls.FreeKeyAnswersIff` | src/idempotency/idempotency.interceptor.ts:20-30 | A request that finds its key free is answered with the response of its handler if and only if handler and completing write succeed and its record is still there, and refused otherwise |
| `IdempotencyCalls.UndisturbedNew` | src/idempotency/idempotency.interceptor.ts:20-30 | Undisturbed, a free key gets the response of its handler, stored in its row until a day after the request began; no other row changes |
| `IdempotencyCalls.UndisturbedRepeat` | src/idempotency/idempotency-persistence.service.ts:34-44 | Until a completed row expires, a repeated request with its fingerprint is answered with its response |
| `IdempotencyService.Table.Complete` | src/idempotency/idempotency-persistence.service.ts:47-53 | The response goes into exactly the record of that id if it is still there, or nothing changes and the request goes on to abort |
| `IdempotencyService.Table.Abort` | src/idempotency/idempotency-persistence.service.ts:55-57 | Exactly the record of that id is deleted, and only if it has no response |
| `IdempotencyService.Table.Intercept` | src/idempotency/idempotency.interceptor.ts:20-30 | Begin, handler, complete and abort in the order of the interceptor end in the state, and with the answer, in which the course of the request ends |
| `IdempotencyCalls.CourseIsRun` | src/idempotency/idempotency.interceptor.ts:20-30 | The course of a request among others is a run of the state machine |
| `JsStrings.DecimalRoundTrip` | src/idempotency/idempotency.util.ts:98-103 | Reading the decimal notation of a number gives the number |
| `CanonicalNumbers.NumberTextInjective` | src/idempotency/idempotency.util.ts:98-103 | Two finite doubles print the same text exactly if they are equal, 0 and -0 being the same |
| `CanonicalTheorems.StringRoundTrip` | src/idempotency/idempotency.util.ts:105-107 | A reader undoes the printed form of every string, surrogates and escapes included, and stops where it ends |
| `CanonicalTheorems.SortSorts` | src/idempotency/idempotency.util.ts:131-148 | Keys come out in code unit order and none is lost or added |
| `CanonicalTheorems.EquivalentSameText` | src/idempotency/idempotency.util.ts:129-148 | Values equal up to sensitive members and member order at every depth have the same canonical text |
| `CanonicalTheorems.TextUnique` | src/idempotency/idempotency.util.ts:85-152 | Equal canonical texts, whatever follows them, come from equivalent values and end at the same place |
| `CanonicalTheorems.CanonicalDecidesEquivalence` | src/idempotency/idempotency.util.ts:85-152 | Two JSON values have the same canonical text if and only if they are equal up to sensitive members and member order at every depth; what is sensitive is told by SensitiveIff |
| `SensitiveKeys.SensitiveIff` | src/idempotency/idempotency.util.ts:10-21 | A key is sensitive if and only if it contains one of eight words in any case, or spells one of 24 names with or without hyphens and underscores; words and names are listed in letters |
| `SensitiveKeys.SecretKey` | src/idempotency/idempotency.constants.ts:46-55 | Whatever stands around such a word, the key is sensitive |
| `SensitiveKeys.CredentialsAreSensitive` | src/idempotency/idempotency.constants.ts:16-55 | password, bootstrapToken, X-Api_Key and api-key are sensitive |
| `SensitiveKeys.HarmlessKey` | src/idempotency/idempotency.util.ts:10-21 | A plain key without the first three letters of a listed word in a row is not sensitive |
| `SensitiveKeys.BusinessKeysCount` | src/idempotency/idempotency.util.ts:10-21 | quantity, unitPrice, items, customer and description are not sensitive |
| `SensitiveKeys.VisibleMembersShow` | src/idempotency/idempotency.util.ts:131-148 | Objects that differ in the value of a member that is not sensitive have different canonical texts |
| `SensitiveKeys.SecretsDoNotShow` | src/idempotency/idempotency.util.ts:133-139 | The value of a sensitive member does not reach the text |
| `CanonicalReading.ExponentIff` | src/idempotency/idempotency.util.ts:98-103 | A number is printed with an exponent if and only if it is 1e21 or more, or below 1e-6 and not zero |
| `CanonicalReading.IntegersPrint` | src/idempotency/idempotency.util.ts:98-103 | An integer below 1e21 is printed in decimal digits |
| `CanonicalReading.EscapesMean` | src/idempotency/idempotency.util.ts:105-107 | Exactly controls, quotation marks, backslashes and lone surrogates are escaped, seven of them shortly |
| `CanonicalReading.LessMeans` | src/idempotency/idempotency.util.ts:141-141 | The order of keys is decided by the first code unit in which they differ, or by the end of the shorter one |
| `CanonicalReading.OneText` | src/idempotency/idempotency.util.ts:85-152 | The whole text of one object with a string, an array and a secret, unit by unit |
| `Fingerprint.CanonicalBalanced` | src/idempotency/idempotency.util.ts:85-152 | Canonical text read from outside a string ends outside, and read from inside a string never ends outside |
| `Fingerprint.NoLaterBody` | src/idempotency/idempotency.service.ts:146-146 | No text that ends in a separator and canonical text is canonical itself: the last such separator is the one before the body |
| `Fingerprint.PreimageDecidesHead` | src/idempotency/idempotency.service.ts:134-148 | For all requests without exception, two hashed texts are equal if and only if the bodies are equivalent and what precedes them, method, path and company joined by separators, is equal |
| `Fingerprint.PreimageDecidesRequest` | src/idempotency/idempotency.service.ts:134-148 | For methods and companies without the separator and any path, two hashed texts are equal if and only if method, path and company are equal and the bodies equivalent |
| `Fingerprint.CompanyWithPipeCollides` | src/idempotency/idempotency.service.ts:146-146 | Every company with a separator collides, at each of its separators, with the rest of it and a longer path |
| `Fingerprint.MethodWithPipeCollides` | src/idempotency/idempotency.service.ts:146-146 | Every method with a separator collides likewise |
| `Fingerprint.IdentifiedIffNoPipe` | src/idempotency/idempotency.service.ts:134-148 | The text identifies the requests of a method and a company, among those without separators, if and only if neither holds one |
| `RequestPath.PathnameIsNormal` | src/idempotency/idempotency.util.ts:49-55 | A normalized pathname is rooted, has no empty segment and no trailing slash but the root, and normalizing it again changes nothing |
| `RequestPath.ArrangedIsArrangement` | src/idempotency/idempotency.util.ts:57-67 | The parameters come out by key and then by value, none lost, added or merged |
| `RequestPath.NormalPathDecides` | src/idempotency/idempotency.util.ts:41-75 | Two paths have the same normal form if and only if their pathnames agree up to slashes and their queries hold the same parameters, each as often, in whatever order |
| `RequestPath.SecondQueryIsLost` | src/idempotency/idempotency.util.ts:46-47 | What follows a second question mark does not reach the normal form |
| `RequestPath.QueryParts` | src/idempotency/idempotency.util.ts:57-67 | The nested loops over sorted keys and sorted values print the arranged parameters |
| `RequestPath.NormalizePath` | src/idempotency/idempotency.util.ts:41-75 | The code of normalizePath gives the text of the normal form |
| `Fingerprint.PreimageDecidesRawRequest` | src/idempotency/idempotency.service.ts:134-148 | From raw paths and untrimmed companies on: hashed texts are equal if and only if method, trimmed company and pathname up to slashes are equal, the query parameters are the same up to order, and the bodies equivalent |
| `JsStrings.TrimIff` | src/idempotency/idempotency.util.ts:46-46 | trim gives the one text without blanks at its ends that leaves only blanks around it |
| `JsStrings.IsSplitIff` | src/idempotency/idempotency.util.ts:47-47 | split gives the one list of texts without separator that joins to the text |
| `RequestReading.NormalPathnameIs` | src/idempotency/idempotency.util.ts:49-55 | The normal pathname is a slash and the segments between the slashes, empty ones left out, joined by single slashes |
| `RequestReading.PathnamesAgreeIff` | src/idempotency/idempotency.util.ts:49-55 | Two pathnames have one normal form if and only if they have the same segments |
| `RequestReading.PreimageReads` | src/idempotency/idempotency.service.ts:146-146 | The hashed text is method, path, company and canonical body with bars between them |
| `RequestReading.RequestsAgreeIff` | src/idempotency/idempotency.service.ts:134-148 | Two requests as sent are hashed alike if and only if method, segments of the pathname, query parameters, company without blanks around it, and body up to sensitive members and member order are the same |
| `RequestReading.QuantitiesTellApart` | src/idempotency/idempotency.service.ts:134-148 | Two invoices of different quantities never share a hashed text |
| `TicketPolicy.PendingIsBounded` | src/sunat-ticket-policy/sunat-ticket-polling-policy.service.ts:37-109 | Whatever is configured, a ticket is asked again only in process, below 20 attempts and 30 minutes, after 2 to 120 seconds |
| `TicketPolicy.OutcomesMean` | src/sunat-ticket-policy/sunat-ticket-polling-policy.service.ts:37-109 | For every context: refused exactly if a field is out of range; the CDR is processed if and only if the code is 0, 00 or 99; the ticket is asked again if and only if it is 98, below 20 attempts and 30 minutes or less if so configured; exhausted if and only if it is 98 otherwise; failed for every other code |
| `TicketPolicy.DelaysMean` | src/sunat-ticket-policy/sunat-ticket-policy.util.ts:14-54 | The wait is the suggestion rounded, or two seconds doubling with the attempts and longer by the jitter, within 2 and 120 seconds |
| `TicketLease.DecideMeans` | src/processing/void-communication.service.ts:118-136 | The reply decides: 0, 00 and 99 close with the CDR or throw without one, 98 waits or is exhausted, any other code fails |
| `TicketPolicy.DelayGrows` | src/sunat-ticket-policy/sunat-ticket-policy.util.ts:14-37 | A later attempt or a larger jitter never shortens the delay, which stays within 2 and 120 seconds |
| `TicketPolicy.TotalDelayClosedForm` | src/sunat-ticket-policy/sunat-ticket-policy.util.ts:14-37 | The first k delays add up to 2000(2^k - 1) ms for k up to 6 and to 126000 + 120000(k - 6) ms beyond |
| `TicketLeaseTheorems.LeaseExclusion` | src/processing/daily-summary.service.ts:108-119 | If every poll is over 120 s after the time it read, at most one is between claim and final write, the row is SENT and leased by it, and the attempt it read back is the number of its own claim |
| `TicketLeaseTheorems.FinalIsForever` | src/processing/void-communication.service.ts:147-169 | Under that premise an ACCEPTED, REJECTED or ERROR row never changes again in any column of the model |
| `TicketLeaseTheorems.ClaimsKeepTheirDistance` | src/processing/daily-summary.service.ts:110-135 | Under that premise claim k+1 reads a time at least S_k after claim 1, with the closed form of S_k, failed and crashed polls included |
| `TicketLeaseTheorems.PendingAnswersAreBounded` | src/sunat-ticket-policy/sunat-ticket-polling-policy.service.ts:72-99 | Under that premise at most 19 polls ever answer pending, each with a different claim number up to 19 that read a time less than 30 minutes after submission |
| `TicketLeaseTheorems.SafeIffWithinLease` | src/processing/daily-summary.service.ts:108-141 | Final rows are safe in all runs whose polls end within a bound if and only if the bound is at most the lease of 120 s |
| `TicketLeaseTheorems.LatePollOverwritesAccepted` | src/processing/daily-summary.service.ts:128-141 | For every larger bound, a run within it in which a poll that outlives its lease turns ACCEPTED into ERROR |
| `TicketLeaseTheorems.RunKeeps` | src/processing/void-communication.service.ts:95-135 | Every run under the premise keeps the lease invariant |
| `TicketService.Ticket.Claim` | src/processing/void-communication.service.ts:104-113 | The claim succeeds exactly if the row is SENT and due at the time read |
| `TicketService.Ticket.Judge` | src/sunat-ticket-policy/sunat-ticket-polling-policy.service.ts:37-109 | The reply is judged by the attempt and submission time that were read back: by its code it closes with the CDR, is asked again after a wait told in numbers, or fails |
| `TicketService.Ticket.Write` | src/processing/void-communication.service.ts:123-131 | The final write by id: a later poll time, ERROR, or the result |
| `TicketService.Ticket.CreateAndSend` | src/processing/void-communication.service.ts:65-92 | The submitting call ends in the state where its course ends and reports accordingly; reported as sent, the row is SENT with a fresh counter |
| `TicketCalls.SendingSucceedsIff` | src/processing/void-communication.service.ts:65-92 | It reports success if and only if delivery and the recording write both succeed |
| `TicketService.Ticket.RefreshStatus` | src/processing/daily-summary.service.ts:98-180 | The code of refreshStatus refuses a row that is not SENT and changes nothing; otherwise state and report are those in which its course ends |
| `TicketCalls.RefreshReports` | src/processing/daily-summary.service.ts:98-180 | Whatever other polls do in between: if the ticket is due at the time read, the claim succeeds at that time, and reread, query and final write succeed, it reports by the code and the reread attempt: pending, closed or an error; it throws in all other cases |
| `TicketOutcomes.RefreshLeaves` | src/processing/daily-summary.service.ts:98-180 | Whatever other polls do: a refresh that reaches its final write leaves the row closed by the CDR for codes 0, 00 and 99, SENT with its new poll time for a 98 within the limits, and in ERROR otherwise |
| `TicketOutcomes.UndisturbedRefresh` | src/processing/daily-summary.service.ts:98-180 | A due ticket that nobody else polls, with good statements, ends as its code says, with one attempt more |
| `WebhookPolicy.BackoffDoubles` | src/webhook-policy/webhook-policy.util.ts:13-32 | Without jitter each delay is twice the one before, from one second up to fifteen minutes |
| `WebhookPolicy.DecisionsMean` | src/outbox/outbox.service.ts:62-70 | The decisions on failed deliveries are retryable exactly if one failure is worth it and attempts are left; without Retry-After the longest delay is the doubling one |
| `WebhookPolicy.JudgeMeans` | src/webhook-policy/webhook-delivery-policy.service.ts:98-127 | A dispatch with failures is retried exactly if one of them is worth it and the attempt is below min(maxAttempts, 5), after at most fifteen minutes; RetryableMeans says which failures, in literal codes |
| `WebhookPolicy.OutcomesMean` | src/webhook-policy/webhook-delivery-policy.service.ts:43-133 | For every context: success if and only if the code is from 200 to 299; retried if and only if it failed by timeout, network error or code 408, 425, 429, 500, 502, 503 or 504, below five attempts or fewer if so configured; over otherwise. The wait is that of Retry-After, or doubles |
| `WebhookPolicy.JitterMeans` | src/webhook-policy/webhook-policy.util.ts:13-32 | Jitter lengthens the wait by its share, rounded to milliseconds, up to fifteen minutes |
| `WebhookPolicy.RetryableMeans` | src/webhook-policy/webhook-policy.constants.ts:11-13 | A failed delivery is worth another attempt exactly for a timeout, a network error or one of the seven codes |
| `WebhookOutcomes.FailuresLeave` | src/outbox/outbox.service.ts:62-87 | After a dispatch with failures the row is PENDING again exactly if one failure has such a code and attempts are left, and DEAD otherwise, with the next attempt after the wait told in numbers |
| `WebhookOutcomes.ThrowsLeave` | src/outbox/outbox.service.ts:73-87 | A dispatch that throws leaves the row PENDING with a doubling wait, or DEAD once its attempts are used up |
| `WebhookOutcomes.SettledRowMeans` | src/outbox/outbox.service.ts:55-87 | What a settled row has become, by the outcome of its dispatch |
| `OutboxTheorems.OneHolderPerEvent` | src/outbox/outbox.service.ts:33-54 | For any number of instances whose batches end within 5 minutes of the time they read, an event has one holder, its row is PROCESSING under that lock and counts exactly the claims made, and the holder count never exceeds it |
| `OutboxTheorems.FinalRowsStay` | src/outbox/outbox.service.ts:55-87 | Under that premise COMPLETED and DEAD rows are never changed by any step |
| `OutboxTheorems.FinalRowsAreEarned` | src/outbox/outbox.service.ts:55-87 | Under that premise a COMPLETED event was last dispatched with every delivery successful, and a DEAD one was claimed at least min(maxAttempts, 5) times or its last dispatch had only hopeless failures |
| `OutboxTheorems.SafeIffWithinStale` | src/outbox/outbox.service.ts:33-40 | Final rows are safe in all runs whose batches end within a bound if and only if the bound is at most 5 minutes |
| `OutboxTheorems.SlowBatchReopensCompleted` | src/outbox/outbox.service.ts:35-40 | For every larger bound, a run within it in which a slow batch reopens a COMPLETED event |
| `OutboxInvariant.NextKeeps` | src/outbox/outbox.service.ts:33-87 | Every step keeps rows, claims and batches consistent as long as no held row is reclaimed |
| `OutboxProcessorTheorems.TicksNeverOverlap` | src/outbox/outbox.processor.ts:27-38 | With one instance there is a batch exactly while the running flag is set, and never more than one |
| `OutboxProcessorTheorems.AttemptsCountDispatches` | src/outbox/outbox.service.ts:46-54 | With one instance the row attempt is the number of dispatches started, and the attempt of a delivery is the row attempt |
| `OutboxProcessorTheorems.DispatchesAreBounded` | src/outbox/outbox.service.ts:81-87 | With one instance an event is dispatched at most max(1, maxAttempts) times plus the dispatches lost to crashes or failing catch clauses, and has used up fewer while it waits |
| `OutboxProcessorTheorems.DispatchesAreSpaced` | src/webhook-policy/webhook-policy.util.ts:13-32 | With one instance dispatch k+1 starts at least min(900000, 1000 * 2^(k-1)) ms after dispatch k, unless that one was lost or answered with Retry-After |
| `OutboxProcessorTheorems.ProcessKeeps` | src/outbox/outbox.processor.ts:27-38 | Every run of one instance with restarts keeps the ledger of each event |
| `OutboxService.Queue.Reclaim` | src/outbox/outbox.service.ts:35-40 | Exactly the stale PROCESSING rows become PENDING again |
| `OutboxService.Queue.FindMany` | src/outbox/outbox.service.ts:41-44 | The candidates are due rows, oldest first, none left out below the limit |
| `OutboxService.Queue.Claim` | src/outbox/outbox.service.ts:47-52 | The claim succeeds exactly if the row is PENDING, and then locks it and counts |
| `OutboxService.Queue.Complete` | src/outbox/outbox.service.ts:58-61 | The event becomes COMPLETED, or the catch clause is next |
| `OutboxService.Queue.Reschedule` | src/outbox/outbox.service.ts:81-87 | The event becomes DEAD or PENDING with its delay, or the catch clause is next, or the batch is over |
| `OutboxService.Queue.ProcessBatch` | src/outbox/outbox.service.ts:33-79 | Reclaim, selection and the loop over the candidates end in the state where the course of the batch ends, and return exactly the number of events it settled, at most limit; or throw exactly where it throws |
| `OutboxCalls.CourseIsRun` | src/outbox/outbox.service.ts:33-79 | The course of a batch among others is a run of the state machine |
| `OutboxOutcomes.EventOutcome` | src/outbox/outbox.service.ts:46-76 | The event in hand is settled if and only if it is PENDING when the claim finds it, the claim succeeds, and so does its write or the catch clause after it; it is passed over if it is not PENDING; otherwise the batch throws |
| `OutboxOutcomes.ReportsItsClaims` | src/outbox/outbox.service.ts:45-78 | A batch that returns reports exactly the events it claimed; one that throws has left at most one of them open |
| `OutboxOutcomes.QuietBatch` | src/outbox/outbox.service.ts:33-87 | An undisturbed batch reports every event selected; each row is settled by the reply to its own dispatch, all others are only reclaimed |
| `AuthThrottleTheorems.ThrottleRefinesReference` | src/auth-throttle/auth-throttle.service.ts:43-126 | After any operations under a nondecreasing clock in which no record of this key that could still matter was evicted, whatever happened to other keys, the key gets at every later time the answer and the seconds of a reference that deletes only on success |
| `AuthThrottleTheorems.RefinesIffNotLost` | src/auth-throttle/auth-throttle.service.ts:166-192 | The condition is exact: the next operation keeps the record alike to the reference, now and after any number of failures, if and only if it does not evict it while it matters |
| `AuthThrottleTheorems.RoomDropsOldest` | src/auth-throttle/auth-throttle.service.ts:166-192 | A record that has not expired is evicted if and only if the map is full even after pruning and it is the oldest |
| `AuthThrottleTheorems.EvictionLiftsBlockIff` | src/auth-throttle/auth-throttle.service.ts:166-192 | A failure of another key changes the answer for this key if and only if it adds a record, this one is evicted for it, and its block has not ended |
| `AuthThrottleTheorems.SizeIsBounded` | src/auth-throttle/auth-throttle.service.ts:166-192 | After any operations, with eviction, the map holds at most maxEntries records |
| `AuthThrottleTheorems.BlocksAreEarned` | src/auth-throttle/auth-throttle.service.ts:71-116 | After any operations, with eviction, a key is blocked only if maxFailures failures since its last success fell in one window and later ones within the block, which ends blockDuration after the last |
| `AuthThrottleTheorems.WaitingUnblocks` | src/auth-throttle/auth-throttle.service.ts:51-58 | Who waits the reported seconds is allowed if no failure of the key came in between; one second less may not do, and no answer exceeds the block duration |
| `AuthThrottleTheorems.BlockedIff` | src/auth-throttle/auth-throttle.service.ts:71-116 | A key is blocked if and only if some failure opened a window with five logins in 15 minutes, or three bootstraps in 30, every later failure fell within the block, and as long since the last is not over |
| `AuthThrottleTheorems.ServiceBlocksIff` | src/auth-throttle/auth-throttle.service.ts:43-116 | The same holds of the service itself, for the failures of a key since its last success, as long as its record was not lost to eviction |
| `AuthThrottleTheorems.FullWindowBlocks` | src/auth-throttle/auth-throttle.service.ts:90-115 | So maxFailures failures counted from the start of a window always block, for exactly blockDuration after the last |
| `AuthThrottleTheorems.SlidingWindowMayNotBlock` | src/auth-throttle/auth-throttle.service.ts:99-106 | The window is fixed, not sliding: by the same condition a series with three bootstrap failures within two minutes does not block |
| `AuthThrottleService.ThrottleService.AssertAllowed` | src/auth-throttle/auth-throttle.service.ts:43-65 | Refused exactly while blockedUntil is ahead, with the least whole number of seconds that covers the rest; the record is deleted exactly if it has lapsed |
| `AuthThrottleService.ThrottleService.RecordFailure` | src/auth-throttle/auth-throttle.service.ts:71-116 | Starts, restarts or extends the record, and blocks at the threshold |
| `AuthThrottleService.ThrottleService.RecordSuccess` | src/auth-throttle/auth-throttle.service.ts:122-126 | Removes exactly the record of the key |
| `AuthThrottleService.ThrottleService.PruneExpired` | src/auth-throttle/auth-throttle.service.ts:135-147 | Keeps exactly the records whose block has not ended or, without a block, whose first failure is less than 30 minutes old; keeps the order and counts what it removed |
| `AuthThrottleService.ThrottleService.FindOldest` | src/auth-throttle/auth-throttle.service.ts:179-187 | The first inserted among the records with the earliest last attempt |
| `AuthThrottleService.ThrottleService.EnsureCapacity` | src/auth-throttle/auth-throttle.service.ts:166-192 | Nothing below capacity, otherwise pruning, otherwise one eviction |
| `Paging.FollowingReturnsMatches` | src/audit-queries/audit-queries.service.ts:103-152 | On a fixed table, for any filter, following nextCursor returns the matching rows in order, each once, all pages full but the last |
| `Paging.PageCountIsCeiling` | src/audit-queries/audit-queries.service.ts:144-152 | The number of pages is max(1, n / limit rounded up) |
| `Paging.MatchesMean` | src/audit-queries/audit-queries.service.ts:103-142 | What lies beyond a cursor is exactly the matching rows below it, strictly descending by time and id |
| `Paging.AppendsDoNoHarm` | src/audit-queries/audit-queries.service.ts:103-152 | With rows appended between any two pages nothing repeats, only matches come, and every match present at the start has come once there is no next page |
| `Paging.FollowingIdsAgrees` | src/document-queries/document-queries.service.ts:150-172 | On a fixed table the id cursor gives the same pages as the keyset cursor |
| `Paging.IdCursorAgreesIff` | src/document-queries/document-queries.service.ts:150-161 | The id cursor gives the rows after the cursor row if and only if the filter passes that row or nothing comes after it; else the first of them is lost |
| `Paging.PageLists` | src/audit-queries/audit-queries.service.ts:126-152 | A page holds at most limit of the rows asked for, latest first, all of them unless there are more, and what is left out comes after them |
| `PagingQueries.ListAuditEvents` | src/audit-queries/audit-queries.service.ts:39-172 | A query is refused exactly for a limit outside 1 to 100 or for dates out of order; otherwise the page holds up to limit, or 50, of the audit rows that match every filter, lie between both dates and beyond the cursor, latest first, none left out before its end |
| `PagingQueries.FindMany` | src/document-queries/document-queries.service.ts:46-173 | A query is refused exactly for a limit outside 1 to 100, dates out of order or a cursor of another company; otherwise the answer is the page of that company at the cursor |
| `PagingQueries.AskedDocumentMeans` | src/document-queries/document-queries.service.ts:123-173 | That page, at a cursor row the query itself passes, holds the documents of the company that match every filter and lie between both dates and after the row, none left out before its end |
| `TaxTheorems.LinesAreGood` | src/tax-calculation/tax-calculation.service.ts:28-83 | On an accepted line total = subtotal + tax within the limit, and subtotal, tax and unit price with tax are each within half a cent of their exact values |
| `TaxTheorems.LineIff` | src/tax-calculation/tax-calculation.service.ts:28-83 | An item is accepted with given amounts if and only if quantity is positive up to 9999999999.9999, price positive up to 999999999999.99, the amounts are the products rounded half up, and subtotal and tax come to 999999999999.99 at most |
| `TaxTheorems.AcceptedIff` | src/tax-calculation/tax-calculation.service.ts:28-83 | So an item is refused only for these limits |
| `TaxTheorems.DocumentIsBounded` | src/tax-calculation/tax-calculation.service.ts:112-136 | For n accepted items total = subtotal + tax, the subtotal is within n/2 cents of the exact sum, the tax within n/2 cents of 18 % of the subtotal, the total within 1.09 n cents of 118 % of the exact sum |
| `TaxTheorems.DocumentAcceptedIff` | src/tax-calculation/tax-calculation.service.ts:112-136 | A document is accepted if and only if it has items, each is accepted, and all amounts together do not exceed 999999999999.99 |
| `TaxTheorems.OrderDoesNotMatter` | src/tax-calculation/tax-calculation.service.ts:112-136 | Any reordering of the items leaves acceptance and all document amounts unchanged |
| `TaxTheorems.MoreIsNotCheaper` | src/tax-calculation/tax-calculation.service.ts:93-136 | Raising one quantity lowers no amount of an accepted document |
| `TaxTheorems.InlineDocumentAgrees` | src/documents/documents.service.ts:44-56 | On items the tax service accepts, the inline calculation gives the same document amounts, for any number of items |
| `TaxTheorems.InlineLineAgrees` | src/documents/documents.service.ts:49-53 | ... and every line the same amounts |
| `TaxTheorems.PrintedPriceIsClose` | src/processing/document-preparation.service.ts:88-96 | The printed unit price is within 0.5 + 1.09/q cents of 118 % of the unit price, q being the quantity |
| `TaxTheorems.PrecisionIsInvisible` | src/tax-calculation/tax-calculation.service.ts:37-48 | Multiplying with 20 significant digits changes neither acceptance nor any amount of a line |
| `SignatureHeader.VerifySignature` | src/webhooks/webhooks.crypto.ts:37-81 | The loop over the elements and the checks after it give the verdict of the reading function, which ValidIff and RefusedIff characterise for every header |
| `SignatureReading.ValidIff` | src/webhooks/webhooks.crypto.ts:37-81 | Any header whatever is accepted if and only if its last t is a numeral of a time other than 0 within tolerance and its last v1 begins with the 64 digits of the keyed hash of that time and the payload, in either case, and no further hexadecimal pair |
| `SignatureReading.RefusedIff` | src/webhooks/webhooks.crypto.ts:43-80 | Exactly when each refusal is given: no header, no such time or signature, out of tolerance, not 32 bytes, other bytes |
| `SignatureReading.OnlyTheDigest` | src/webhooks/webhooks.crypto.ts:68-77 | An accepted signature of 64 lower-case digits is the keyed hash itself |
| `SignatureReading.EndingsAreIgnored` | src/webhooks/webhooks.crypto.ts:71-75 | What follows the 64 digits without being a hexadecimal pair is not read: such a signature is accepted |
| `SignatureReading.StampRead` | src/webhooks/webhooks.crypto.ts:51-56 | The last t counts, and is read as the number whose numeral it is |
| `SignatureReading.SignatureRead` | src/webhooks/webhooks.crypto.ts:51-59 | The last v1 counts, up to a second equals sign |
| `SignatureReading.NumeralIff` | src/webhooks/webhooks.crypto.ts:54-54 | parseInt reads n from blanks, a sign or none, zeros, the decimal digits of n and no further digit, and from nothing else |
| `SignatureHeader.HeaderReadsBack` | src/webhooks/webhooks.crypto.ts:47-60 | A printed header reads back as its timestamp and its digest |
| `SignatureHeader.BuiltHeadersVerify` | src/webhooks/webhooks.crypto.ts:14-32 | A built header is accepted if and only if its timestamp is not 0 and within tolerance; otherwise the verdict says which |
| `SignatureHeader.OtherPayloadsAreRefused` | src/webhooks/webhooks.crypto.ts:68-77 | A header built for one payload and secret is accepted for others only if the keyed hash gives both the same digest |
| `SignatureHeader.MessagesDiffer` | src/webhooks/webhooks.crypto.ts:14-20 | Different timestamps or payloads are different messages to the keyed hash |

## Left out

- XML, XML signatures, ZIP, PKCS#12, SOAP, HTTP and DNS: foreign libraries; their outcome is chosen by the environment.
- SHA-256, HMAC, AES-GCM and scrypt: opaque; a hash is a number or a function parameter.
- Services wired without the event outbox or without the ticket policy: the model has both wired, as the modules do.
- Company, certificate, series, identity, date and currency checks before a call touches the modelled rows: wiring or finite tables. The membership of documents in one reference date is not modelled; a communication may pick any eligible documents of the company.
- Unknown status strings in the lifecycle service: statuses are an enumeration here.
- Length and characters of the Idempotency-Key header: keys are hashes here.
- normalizeMethod, and paths that are not strings: the hashed text is modelled from the normalized method on. Parsing of query strings and percent-encoding are parameters of the model.
- Dates, Prisma decimals, undefined values and non-JSON values in canonicalizeJson: request bodies are parsed JSON. Lower-casing of non-ASCII letters in keys is modelled only for the Kelvin sign, the one letter whose lower case is ASCII.
- How a double yields its shortest decimal digits: a number carries its digits, as ECMAScript Number::toString defines them; any digit string is admitted.
- Documents and the ticket lease are separate machines: the document machine lets any number of polls run, the lease machine has one ticket and no documents.
- DocumentServices, IdempotencyService, TicketService, OutboxService: the methods themselves run to their end; crashes at every point of every call are in the state machines.
- IdempotencyService.Table.Intercept: a request is followed for any given number of statements; that begin, which starts over after each delete of an expired row, comes to an end is not stated.
- OutboxProcessor is a state machine only: timers and overlapping promises have no counterpart in a sequential method.
- Retry-After dates are compared with one reading of the clock per dispatch.
- WebhooksService.dispatch: an environment step that returns delivery outcomes or throws.
- Outbox envelope validation in enqueue, batch size and interval configuration.
- Liveness: that a waiting event is eventually selected, or a due ticket eventually polled, is not stated; what each step does when it is taken is.
- What the throttle answers for a key after its record was evicted while it mattered, beyond the bounds that hold anyway.
- Encoding and signing of the audit cursor and the mapping of rows to response objects: a cursor is the pair it encodes.
- Id-cursor paging while documents change status between pages: only a fixed table is covered, as for a repeatable listing.
- Parsing of raw decimals (format, number of places): items carry scaled integers. The division behind the printed unit price is exact before its rounding to cents.
- Timestamps in signature headers beyond 2^53: numbers are exact here; such timestamps are far outside any tolerance in both.
- createAdjustment: checks on the referenced document in front of create.
- Controllers, DTOs, guards, catalogs, configuration, health, audit event building, API key and certificate management: wiring or easy invariants.
