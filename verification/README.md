# Leira, modelled and verified

Leira records everything as events in a hash-chained, append-only ledger. Beside the ledger it keeps
tables up to date with every write, can rebuild each table from history, and has an auditor that
recomputes each table in memory a third way. This project models the ledger, the kernels that write
to it (inbox, dispatcher, run lifecycle, claims, sessions, worker registry, workspace), the live
tables, the rebuilds, the auditor, the archive, the truncating artifact builders and path
normalization, and proves that the three views agree after every sequence of calls, whatever appends
fail on the way.

`dafny verify dfyconfig.toml` checks the whole project.

## How it is laid out

- `Strings`, `Json`, `JsonText`, `Errors`: code-point order, documents and their canonical form,
  printing and parsing, audit error lists.
- `Like`, `Search`, `Lookup`: SQLite's `LIKE`, what occurs in canonical text, and what the lookups find.
- `Ledger`: event rows, the chain, `validate_chain`, tamper evidence.
- `State`: rows and tables; `Db` is the whole state as a value, `Database` the object that holds it,
  `AppendRow` the insert every kernel uses.
- `Lifecycle`, `Inbox`, `Claims`, `Registry`, `Sessions`, `Workspace`, `Receipts`: for each table its
  fold over the ledger, the rebuild and the auditor's loops proved against that fold, what each check
  accepts exactly, and which histories are legal.
- `Payloads`, `Kernels`: the documents the kernels append and every operation as a function of the
  state; `Api`: the same operations as methods that change the `Database` step by step, each proved to
  compute its function, to leave a sound state sound, and to have the effect told below.
- `Effects`, `DispatchOutcome`: what each call records, answers and leaves, told once more from its
  arguments, the worker's response and the live tables alone, with literal documents, codes and rows, and
  proved of the functions.
- `Appends`, `Frames`: what one append and one operation do, and what they leave alone.
- `Invariant`, `Events`, `IntentSteps`, `RunSteps`, `ClaimSteps`, `RegistrySteps`, `SessionSteps`,
  `FileSteps`, `DispatchSteps`: one invariant and its preservation by every step;
  `NormalForms`: what names outside the normal form do to the live tables.
- `System`, `Guarantees`: behaviours as sequences of operations and states, and what holds in all of them; `Auditor`:
  the remaining checks, `audit`, what a clean audit says position by position, and why reachable states
  pass it; `Outcomes`: what a call keeps and when it succeeds, which the contracts of `Api` repeat.
- `Jsonl`, `Archive`, `RoundTrip`: export, import, replay and their round trip; `Acceptance`, `Refusals`: exactly
  which exports and imports succeed, and what stops the others.
- `Truncation`, `Paths`: the artifact builders and path normalization.

## What is assumed

- NFC is an idempotent function that leaves ASCII alone; event hashing is a function of the six hashed
  columns and never empty, nor is the digest of a file. `TamperEvidence` takes the concrete hashed
  text and leaves only the digest open. Keys, event types, generated ids and timestamps are ASCII, so
  only what a caller passes is normalized.
- An append may fail at any point (`Attempt.ok`). When it succeeds, its id is new and its time is not
  before the last event's (`Usable`, `Schedule`); ids drawn for intents, runs, sessions and artifacts
  are new (`Allowed`). Attempts that fail need nothing.
- The lookups `payload_json LIKE '%"key":"id"%'` are modelled as what SQLite does: the underscore in the key
  stands for any character and the case of ASCII letters does not count. Every behaviour theorem therefore
  asks, in `Allowed` and `Sane`: the ids in use (`Config.ids`) hold no wildcard and nothing that JSON
  escapes, and no two are alike but for case (`Distinguished`); no key of a caller's document, worker output
  or snapshot is taken for `intent_id`, `run_id` or `session_id` (`NoIdKeys`, through `Reaches`).
  `Guarantees.LookupsExact` proves that the lookups are then exact; `Lookup.MisleadingKeys`,
  `Lookup.CaseMisleads`, `Lookup.WildcardMisleads` and `Outcomes.TakenKeyMoves` show what happens without.
- Names are given in normal form (`Plain`); `ClaimSteps.LiveClaimExact`, `NormalForms.LiveRegistrationExact` and
  `NormalForms.LiveWorkerExact` say exactly when the live tables agree with history without it. Intent ids
  given to the workspace are single path segments (`SingleSegment`, in `Allowed`).
- An `artifact_written` event that a caller appends carries a typed artifact.
- Table writes after a successful append succeed; `LifecycleKernel` has its projection.
- The receipt table is a snapshot: claims about it are made right after a rebuild.

Where the code departs from the plain reading of its own comments the model follows the code. The
registry promises that a name is registered once, ever; a restarted process registers it again, so the
audit theorem names that one exception. Rebuild and auditor treat a second creation of a session
differently, and `Sessions.RebuildDiffersAtStale` says exactly where that shows.

## Model

| member | source | states |
|---|---|---|
| Json.NormalizeAccepts | leira/dispatcher/kernel.py:115-143 | canonicalization accepts exactly the values without a float, an unknown type or a key that is not a string, at any depth |
| Json.CanonicalAccepts | leira/dispatcher/kernel.py:146-161 | a payload is accepted if and only if it is a dict of such values |
| Json.LastKeyWins | leira/dispatcher/kernel.py:128-141 | of several keys with one normal form the last entry decides, and no key is lost or made up |
| Json.NormalizeIsNormal | leira/dispatcher/kernel.py:115-143 | every string and key of a canonical document is in normal form |
| Json.NormalIsFixed | leira/dispatcher/kernel.py:115-161 | a document already in normal form is canonicalized to itself |
| Json.NormalizeIdempotent | leira/dispatcher/kernel.py:115-161 | canonicalizing what was canonicalized changes nothing |
| JsonText.LoadsDumps | leira/dispatcher/kernel.py:146-161 | parsing the printed text, with either treatment of non-ASCII characters, gives back the document |
| JsonText.DumpsInjective | leira/dispatcher/kernel.py:155-161 | two documents with one text are equal |
| JsonText.TwoMembers | leira/dispatcher/kernel.py:155-161 | members are printed in code-point order of their keys, between commas and colons without spaces |
| State.AppendRow | leira/dispatcher/kernel.py:242-326 | appends exactly one row, chained to the head with its own hash, or nothing; each of the four refusals has its exact condition and code |
| State.AppendEvent | leira/dispatcher/kernel.py:242-326 | appended if and only if type and worker are named, the payload is a dict without floats, unknown types or keys that are not strings at any depth, and the insert goes through; the row carries its canonical form and the given columns, each refusal its code; a valid chain stays valid |
| Ledger.ValidateChain | leira/dispatcher/kernel.py:328-393 | valid if and only if every event names its predecessor's hash and carries its own; otherwise the first offending event, and whether its link or its hash is wrong |
| Ledger.TextDeterminesContent | leira/dispatcher/kernel.py:164-199 | the text that is hashed determines the six hashed columns, names up to normalization |
| Ledger.TamperEvidence | leira/dispatcher/kernel.py:164-199 | two valid ledgers with one head have equal length and agree event by event on the hashed columns, unless the digest collides or yields the genesis hash |
| Lookup.LookupFinds | leira/inbox/inbox.py:345-353 | on the canonical text of any document, SQLite's `LIKE`, with the wildcard in the key and the case of letters ignored, finds an id without wildcards if and only if at some depth a key taken for the looked-up key (itself, another case, another character for the underscore, or one of these after a quotation mark) holds the id up to case |
| Lookup.LookupIsMention | leira/dispatcher/lifecycle.py:295-303 | a written event whose keys are taken for none but themselves is found by exactly the ids it mentions, up to case |
| Lookup.MisleadingKeys | leira/dispatcher/lifecycle.py:295-303 | `run-id`, `RUN_ID` and `x"run_id` are each found by the lookup of `run_id`, which their documents do not hold |
| Like.AroundMatches | leira/inbox/inbox.py:349 | SQLite's `LIKE` with a `%` on either side: some part of the text fits the pattern letter by letter, `_` fitting any one character |
| Lookup.TakenKeyMisleads | leira/dispatcher/lifecycle.py:298 | every other key taken for a looked-up key makes the lookup find a document that does not hold the id there |
| Lookup.CaseMisleads | leira/dispatcher/lifecycle.py:298 | two ids that differ in the case of letters are taken for each other |
| Lookup.WildcardMisleads | leira/dispatcher/lifecycle.py:298 | an id with a wildcard is found in a document that holds another id |
| Lifecycle.RebuildRuns | leira/projection/rebuild.py:42-67 | the run table is the last lifecycle event of each run; a lifecycle row whose payload is not an object stops the rebuild and leaves the table |
| Lifecycle.RowIsLast | leira/projection/rebuild.py:42-67 | by position: a run has a row if and only if some event moves it, and the row is that of the last such event |
| Lifecycle.ComputeExpectedProjection | leira/audit/auditor.py:330-347 | the auditor's loop computes its own fold of the ledger |
| Lifecycle.RebuildMatchesExpected | leira/audit/auditor.py:330-347 | rebuild and auditor differ by a run with the empty name only |
| Lifecycle.CheckProjections | leira/audit/auditor.py:350-386 | the errors reported, run by run in sorted order |
| Lifecycle.RunErrorsEmpty | leira/audit/auditor.py:369-386 | no error if and only if every expected row is present and equal |
| Lifecycle.RunErrorsFind | leira/audit/auditor.py:369-386 | exactly which errors are reported, and for which run: a row missing, or differing in state or last event |
| Lifecycle.RebuildPassesAudit | leira/audit/auditor.py:350-386 | on every history, legal or not, a rebuilt run table passes the comparison |
| Lifecycle.CheckRunIdPresence | leira/audit/auditor.py:236-244 | one error per lifecycle event without a run id |
| Lifecycle.PresenceFinds | leira/audit/auditor.py:236-244 | exactly the lifecycle events without a run id are reported, by their ids |
| Lifecycle.CheckLifecycleTransitions | leira/audit/auditor.py:247-274 | the one-dict loop reports exactly the events that may not follow their run's history |
| Lifecycle.TransitionCheckExact | leira/dispatcher/lifecycle.py:63-68 | no error if and only if the events of every run are a prefix of created, running, artifact, completed |
| Lifecycle.TransitionFinds | leira/audit/auditor.py:247-274 | exactly the events that do not come next on the path of their run are reported, by their ids |
| Lifecycle.GetRunState | leira/dispatcher/lifecycle.py:281-313 | the type of the newest event that the `LIKE` lookup of the run finds |
| Lifecycle.QueryIsFold | leira/dispatcher/lifecycle.py:281-313 | where the lookup is exact, the newest-first query equals the forward fold on well-shaped histories |
| Lifecycle.QueryStaysRight | leira/dispatcher/lifecycle.py:295-303 | the next event leaves the query right if and only if its document holds the run's id, up to case, under a key taken for `run_id` exactly when the event is the run's own, or the run already stood there |
| Inbox.RebuildIntents | leira/inbox/inbox.py:267-328 | the intent table is the last event of each intent up to its first terminal one |
| Inbox.RowIsGiven | leira/inbox/inbox.py:267-328 | by position: an intent has a row if and only if some event speaks of it, and the row is that of its first terminal event, or of its last if there is none |
| Inbox.ComputeExpectedIntents | leira/audit/auditor.py:413-446 | the auditor's loop computes the same fold |
| Inbox.RebuildInboxEntries | leira/archive/replay.py:22-73 | the first readable submission of each intent |
| Inbox.EntersForIs | leira/archive/replay.py:22-73 | which events give an inbox row, and the row field by field |
| Inbox.ComputeExpectedSubmissionStatus | leira/audit/auditor.py:389-410 | the status of the last submission of each intent |
| Inbox.CheckIntents | leira/audit/auditor.py:449-507 | the errors of both comparisons, in sorted order |
| Inbox.InboxErrorsEmpty | leira/audit/auditor.py:449-507 | no inbox error if and only if every submitted intent has its row with its status |
| Inbox.IntentErrorsEmpty | leira/audit/auditor.py:449-507 | no row error if and only if every expected row is there and equal, the worker compared only when history names one |
| Inbox.InboxErrorsFind | leira/audit/auditor.py:449-507 | exactly which inbox errors are reported, and for which intent |
| Inbox.IntentErrorsFind | leira/audit/auditor.py:449-507 | exactly which row errors are reported, and for which intent |
| Inbox.RebuildPassesAudit | leira/audit/auditor.py:449-507 | rebuilding both tables and running the check: the intent half reports nothing on any history, the inbox half nothing if and only if, for every intent, its last submission states the status of its first readable one |
| Inbox.RebuiltInboxExact | leira/audit/auditor.py:456-472 | the exact condition under which a rebuilt inbox passes: for every intent, last submission and first readable submission state one status |
| Inbox.RepeatedSubmissionFails | leira/archive/replay.py:55-72 | a second submission with another status: the rebuilt inbox fails the check |
| Inbox.CheckIntentTransitions | leira/audit/auditor.py:510-540 | the loop reports exactly the events that may not follow their intent's last event |
| Inbox.TransitionCheckExact | leira/inbox/inbox.py:114-120 | no error if and only if the events of every intent are a path of the transition table |
| Inbox.TransitionFinds | leira/audit/auditor.py:510-540 | exactly the events whose type may not come after that of the intent's event before, or may not come first, are reported, by their ids |
| Inbox.CheckDuplicateClaims | leira/audit/auditor.py:543-559 | one error per `intent_claimed` event after the first of its intent |
| Inbox.DuplicateClaimFinds | leira/audit/auditor.py:543-559 | exactly the intents with an `intent_claimed` event before another are reported |
| Inbox.DuplicateClaimExact | leira/audit/auditor.py:543-559 | no error if and only if no intent has two `intent_claimed` events |
| Inbox.CleanTransitionsCleanClaims | leira/audit/auditor.py:543-559 | a clean transition check implies a clean duplicate-claim check |
| Inbox.CheckWorkerNameConsistency | leira/audit/auditor.py:562-591 | one error for each event that completes or fails an intent and names another worker than the last claim before it |
| Inbox.WorkerCheckExact | leira/audit/auditor.py:562-591 | by position: no error if and only if, whenever one event is the last `intent_claimed` with a worker's name before an `intent_completed` or `intent_failed` of the same intent, both name one worker |
| Inbox.WorkerFinds | leira/audit/auditor.py:562-591 | otherwise exactly the concluding events that name another worker are reported, by their ids |
| Inbox.GetIntentStatus | leira/inbox/inbox.py:331-360 | the loop that stops at the first terminal status computes the status query |
| Inbox.QueryIsFold | leira/inbox/inbox.py:331-360 | where the lookup is exact, the query equals the rebuilt and expected status of every intent on well-shaped histories |
| Inbox.TerminalIsFinal | leira/inbox/inbox.py:339-343 | nothing appended after a terminal status changes it |
| Claims.ReplayClaimEvents | leira/claims/claims.py:139-186 | the first claim wins until a release with its claim id and owner |
| Claims.GetClaim | leira/claims/claims.py:189-217 | looks the intent's claim events up, keeps those that name it and replays them |
| Claims.LookedIsAll | leira/claims/claims.py:198-215 | where the lookup is exact it misses none of the intent's claim events |
| Claims.TableIsReplay | leira/claims/claims.py:381-430 | the one-pass claim table holds, row by row, the replay of each intent on its own |
| Claims.ClaimStands | leira/claims/claims.py:381-430 | by position: a claim is in the table if and only if it was established while no other stood and no matching release came since |
| Claims.RebuildClaims | leira/claims/claims.py:381-430 | grouping by intent and replaying each group computes the one-pass claim table |
| Claims.ComputeExpectedClaims | leira/audit/auditor.py:736-754 | the auditor computes the same table |
| Claims.CheckClaimProjection | leira/audit/auditor.py:757-796 | the errors of the comparison, missing and unexpected rows in sorted order |
| Claims.ClaimErrorsEmpty | leira/audit/auditor.py:757-796 | no error if and only if the tables are equal |
| Claims.ClaimErrorsFind | leira/audit/auditor.py:757-796 | exactly which rows are reported missing, unexpected or different |
| Claims.RebuildPassesAudit | leira/audit/auditor.py:757-796 | on every history, legal or not, running the rebuild and then the check reports nothing |
| Claims.CheckClaimHistory | leira/audit/auditor.py:703-733 | the errors of every intent's events, intents in the order of their first claim event |
| Claims.HistoryErrorsEmpty | leira/audit/auditor.py:703-733 | no error if and only if no intent has a claim while another is active and every release matches |
| Claims.HistoryFinds | leira/audit/auditor.py:703-733 | by position: exactly the events that claim again, or release without matching, a claim that stands are reported, each with its code |
| Claims.CleanIsExclusive | leira/audit/auditor.py:703-733 | nothing is reported if and only if no claim is established while another on its intent stands and every release matches the claim that stands |
| Claims.TrackedIsReplay | leira/audit/auditor.py:703-733 | on any history the claim the check tracks is the claim replay finds, step by step |
| Claims.LegalKeepsClean | leira/audit/auditor.py:703-733 | an event the active claim allows keeps the claim history clean |
| Registry.RebuildWorkers | leira/registry/registry.py:211-261 | the worker table is the first registration of each name |
| Registry.ComputeExpectedWorkers | leira/audit/auditor.py:594-618 | the auditor's loop computes the same table |
| Registry.RowIsFirst | leira/registry/registry.py:211-261 | each row is that of the first event that registers its name |
| Registry.RegisteredSometime | leira/registry/registry.py:211-261 | a name has a row if and only if it was registered at least once |
| Registry.CheckDuplicateWorkerRegistrations | leira/audit/auditor.py:621-643 | one error per registration of a name registered before |
| Registry.DuplicateCheckExact | leira/audit/auditor.py:621-643 | no error if and only if no name was registered twice |
| Registry.DuplicateFinds | leira/audit/auditor.py:621-643 | exactly the names registered again are reported |
| Registry.CheckWorkerProjection | leira/audit/auditor.py:646-683 | the errors of the comparison, in sorted order |
| Registry.WorkerErrorsEmpty | leira/audit/auditor.py:646-683 | no error if and only if the tables are equal |
| Registry.WorkerErrorsFind | leira/audit/auditor.py:646-683 | exactly which rows are reported missing, unexpected or different |
| Registry.RebuildPassesAudit | leira/audit/auditor.py:646-683 | on every history, legal or not, running the rebuild and then the check reports nothing |
| Sessions.RebuildSessions | leira/sessions/sessions.py:323-393 | the dicts, lists and insert loops compute the fold of the ledger into both session tables |
| Sessions.ComputeExpectedSessions | leira/audit/auditor.py:1338-1367 | the auditor's loop computes its own fold |
| Sessions.RebuildDiffersAtStale | leira/audit/auditor.py:1346-1352 | with distinct ids the two disagree exactly on the last event of the sessions whose latest event is a repeated creation |
| Sessions.RebuildIsExpected | leira/sessions/sessions.py:350-354 | the two folds are equal if and only if there is no such session |
| Sessions.RepeatedCreationDiffers | leira/sessions/sessions.py:350-354 | two creations of one session: the two rows name different last events |
| Sessions.BooksOrdered | leira/sessions/sessions.py:360-367 | on every history both folds number the members of each session 1..n, each intent once, n being the stored count |
| Sessions.CheckSessionProjection | leira/audit/auditor.py:1370-1402 | the errors of the comparison of both tables, in the order of the keys |
| Sessions.SessionErrorsEmpty | leira/audit/auditor.py:1370-1402 | no error if and only if both tables are the expected ones |
| Sessions.SessionErrorsFind | leira/audit/auditor.py:1370-1402 | exactly which session and member rows are reported, under which code |
| Sessions.RebuildPassesAudit | leira/audit/auditor.py:1370-1402 | a rebuild satisfies the auditor if and only if no session's latest event is a repeated creation |
| Sessions.CheckSessionHistory | leira/audit/auditor.py:1302-1335 | the errors of every membership event, against the intents of the whole ledger |
| Sessions.HistoryCheckExact | leira/audit/auditor.py:1302-1335 | no error if and only if every membership event is readable and names an opened session and a known intent that has not joined before |
| Inbox.KnownSometime | leira/audit/auditor.py:1304-1312 | an intent is known if and only if some submission or rejection names it |
| Sessions.HistoryFinds | leira/audit/auditor.py:1302-1335 | otherwise exactly the offending events are reported, each with its code |
| Sessions.ReadersDiffer | leira/audit/auditor.py:1285-1299 | rebuild and auditor read an id differently if and only if the artifact's content does not name it and the top level does |
| Sessions.LegalHistoryClean | leira/audit/auditor.py:1302-1335 | histories whose members are new and whose sessions and intents are known pass the check |
| Sessions.QueriesAreTables | leira/sessions/sessions.py:95-118 | where the lookups are exact, the two existence queries read what the rebuilt tables hold on legal histories |
| Receipts.ListReceiptEvents | leira/receipts/receipts.py:122-167 | the three queries, two of them `LIKE` lookups, collected by event id and sorted by row, give the selected events once each in ledger order |
| Receipts.ComputeExpectedReceipts | leira/audit/auditor.py:799-862 | the two passes compute the rows of all groups: for each, by position, the first and the last event that belongs to it, the time of the last, and how many there are |
| Receipts.ReceiptsAgree | leira/receipts/receipts.py:122-167 | where the lookups are exact, the union of the three queries is the auditor's group on legal histories: the same events, once each, in order |
| Receipts.RebuildReceipts | leira/receipts/receipts.py:362-408 | one row for each known intent with events: by position, the first and the last event the queries find for it, the time of the last, and how many there are |
| Receipts.RebuiltRowSums | leira/receipts/receipts.py:362-408 | an intent has a rebuilt row if and only if it is known and some event belongs to it; no event before the row's first or after its last does, and its count is the number of positions that do |
| Receipts.ExpectedRowSums | leira/audit/auditor.py:842-862 | the same for the rows the auditor expects, over the events it files under the intent |
| Receipts.BelongsIs | leira/receipts/receipts.py:135-164 | an event belongs to an intent if and only if its text matches the lookup of the intent, it creates a run under the intent, or its text matches the lookup of a run created so anywhere in the ledger |
| Receipts.AssignedIs | leira/audit/auditor.py:842-852 | the auditor files an event under the intent it names, or else under the operation of the last creation of the run it names |
| Receipts.DirectOrder | leira/audit/auditor.py:818-829 | the intent an event names: at the top, else in its content, else in its artifact's content; never an empty one |
| Receipts.BridgeIsLast | leira/audit/auditor.py:831-840 | a run leads to the operation of its last creation |
| Receipts.GetReceiptBundle | leira/receipts/receipts.py:201-324 | reading a bundle refreshes its row and no other; the row names, by position, the first and the last of its events, the time of the last, and how many there are |
| Receipts.CheckReceiptProjection | leira/audit/auditor.py:865-910 | the errors of the rows that exist |
| Receipts.ReceiptErrorsEmpty | leira/audit/auditor.py:865-910 | no error if and only if every existing row equals the expected one |
| Receipts.ReceiptErrorsFind | leira/audit/auditor.py:865-910 | exactly which rows are reported, and for which intent |
| Receipts.RowStaysUntilNextEvent | leira/receipts/receipts.py:316-323 | a receipt row stays what the auditor expects exactly until the next event of its intent |
| Receipts.RebuildPassesAudit | leira/audit/auditor.py:865-910 | right after a rebuild the comparison reports nothing |
| Paths.Normalized | leira/workspace/paths.py:29 | the stack loop of `posixpath.normpath` on a relative path |
| Paths.AcceptsInsideWalks | leira/workspace/paths.py:20-37 | a path is accepted if and only if it is well formed, its lexical walk never leaves the start and ends below it, and its names use the alphabet; escapes and bad names are told apart |
| Paths.AcceptedIsLegal | leira/workspace/paths.py:29-37 | an accepted path is its walk: non-empty legal names, no `.` or `..`, joined by slashes |
| Paths.NormalizationIdempotent | leira/workspace/paths.py:20-37 | normalizing again changes nothing |
| Paths.StaysBelow | leira/workspace/paths.py:44-51 | the join stays strictly below the artifacts directory, so the containment test never fires |
| Paths.SameFileSameForm | leira/workspace/paths.py:44-51 | two accepted paths name one file if and only if their normal forms are equal |
| Paths.IntentsKeepApart | leira/workspace/paths.py:40-51 | for intent ids that are single path segments two accepted paths name one file if and only if intent and normal form are the same |
| Paths.NestedIntentsCollide | leira/workspace/paths.py:40-51 | otherwise they need not: a path below `artifacts` of an intent and the rest of it for the intent id that goes on with `/artifacts` are one file |
| Workspace.RebuildArtifacts | leira/workspace/workspace.py:235-273 | one row per described artifact, or nothing changes when an insert violates a type or a key |
| Workspace.AllInsertableIs | leira/workspace/workspace.py:235-273 | the rebuild goes through if and only if every description fits its columns and no artifact id is described twice |
| Workspace.RowIsLast | leira/workspace/workspace.py:235-273 | by position: a row is that of the last event that describes its artifact |
| Workspace.ComputeExpectedArtifacts | leira/audit/auditor.py:913-949 | the auditor's loop computes its own fold |
| Workspace.ExpectedIsLast | leira/audit/auditor.py:913-949 | so is the row the auditor expects, among the events it reads |
| Workspace.LegalRebuild | leira/workspace/workspace.py:209-273 | on legal histories rebuild succeeds, agrees with the auditor, and every file event passes the schema check |
| Workspace.CheckArtifactProjection | leira/audit/auditor.py:952-977 | the errors of the comparison, in sorted order |
| Workspace.ProjectionErrorsEmpty | leira/audit/auditor.py:952-977 | no error if and only if the tables are equal |
| Workspace.ProjectionErrorsFind | leira/audit/auditor.py:952-977 | exactly which rows are reported missing, unexpected or different |
| Workspace.CheckArtifactFiles | leira/audit/auditor.py:980-1010 | the errors of every expected artifact: path, presence, size, digest |
| Workspace.FileErrorsEmpty | leira/audit/auditor.py:980-1010 | no error if and only if every expected row is backed by a file of its size and digest |
| Workspace.FileErrorsFind | leira/audit/auditor.py:980-1010 | exactly which artifacts are reported, each for the first of path, presence, size and digest that is wrong |
| Workspace.CheckArtifactSchema | leira/audit/auditor.py:277-327 | the errors of artifact events and of artifact file events |
| Workspace.SchemaCheckExact | leira/audit/auditor.py:277-327 | no error if and only if every artifact event carries a typed artifact and belongs to a run created somewhere in the ledger, and every file event describes a file |
| Workspace.SchemaFinds | leira/audit/auditor.py:277-327 | otherwise exactly the other events are reported, by their ids |
| Workspace.LegalSchemaClean | leira/audit/auditor.py:277-305 | artifact events of created runs with a typed artifact pass the check |
| Workspace.WriteOnce | leira/workspace/workspace.py:144-162 | on legal histories no two file events name one intent and path |
| Api.SubmitIntent | leira/inbox/inbox.py:191-264 | state and result as told by `Effects.Submits`, without the kernel's own functions: it succeeds if and only if the payload is a dict that has a canonical form, the type is a name and the append succeeds; accepted or rejected, event, inbox row and intent row are literal; only a failed append, or a dict without canonical form under no usable name, leaves everything as it was; called as allowed in a sound state it leaves one, with every table the fold of the ledger and the audit clean |
| Effects.SubmitEffect | leira/inbox/inbox.py:164-264 | the refusals with their exact conditions and codes, the payload kept, the event's document and columns, and both rows |
| Effects.SubmitSucceeds | leira/inbox/inbox.py:164-264 | a submission succeeds if and only if the payload is a dict with a canonical form, the type is a name and the append succeeds; then the inbox holds that form and both rows are pending |
| Api.UpdateIntentProjection | leira/inbox/inbox.py:363-401 | a table that is the rebuild of a history becomes the rebuild of the history with the intent's next event, while the intent is open |
| Api.ClaimIntent | leira/claims/claims.py:269-317 | succeeds if and only if the owner has a name, the intent is pending, no claim stands and the append succeeds; every refusal has its condition, its code and its recorded rejection; called as allowed in a sound state it leaves one, with every table the fold of the ledger and the audit clean |
| Effects.ClaimEffectIs | leira/claims/claims.py:269-317 | every refusal in its order with its recorded rejection, and otherwise the claim's event and row, from the live tables |
| Api.ReleaseClaim | leira/claims/claims.py:319-353 | succeeds if and only if the standing claim is the owner's and the append succeeds; every refusal has its condition, its code and its recorded rejection; called as allowed in a sound state it leaves one, with every table the fold of the ledger and the audit clean |
| Effects.ReleaseEffectIs | leira/claims/claims.py:319-353 | every refusal in its order with its recorded rejection, and otherwise the release's event and the row gone, from the live tables |
| Api.RejectClaim | leira/claims/claims.py:355-365 | the rejection is recorded if it can be, nothing else moves |
| Api.RejectRelease | leira/claims/claims.py:367-378 | the rejection is recorded if it can be, nothing else moves |
| Api.UpdateFromEvent | leira/projection/state.py:68-94 | a run table that is the rebuild of a history becomes the rebuild of the history with the run's next event |
| Api.CreateRun | leira/dispatcher/lifecycle.py:167-208 | the literal run event under its operation and its row, or nothing; called as allowed in a sound state it leaves one, with every table the fold of the ledger and the audit clean |
| Effects.CreateEffectIs | leira/dispatcher/lifecycle.py:167-208 | refused for an empty operation or a failed append; otherwise the literal event under its operation and the row |
| Api.AppendLifecycle | leira/dispatcher/lifecycle.py:210-279 | succeeds if and only if the run's row stands where the event may follow, the payload can be recorded and the append succeeds; every refusal has its condition and code, and the event is literal; called as allowed in a sound state it leaves one, with every table the fold of the ledger and the audit clean |
| Effects.AdvanceEffectIs | leira/dispatcher/lifecycle.py:210-279 | every refusal in its order with its code, and otherwise the literal event and the row, from the live tables |
| Effects.ExtraIs | leira/dispatcher/lifecycle.py:252-258 | no extra payload is an empty one; anything else must be a dict with a canonical form |
| Inbox.ReadIntentPayload | leira/dispatcher/dispatcher.py:590-614 | the payload of the first submission that refers to the intent |
| Api.Begin | leira/dispatcher/dispatcher.py:129-147 | the refusals before anything is appended |
| Api.Conclude | leira/dispatcher/dispatcher.py:199-261 | artifact, terminal event and row, each only after the one before, told from the worker's response alone: a result that reports success ends COMPLETED with `intent_completed`, anything else FAILED with `intent_failed` and the response's error |
| Api.Execute | leira/dispatcher/dispatcher.py:174-212 | run, start, one invocation, then the conclusion, told from the response and the appends alone: how many of the four rows are recorded, their literal documents, the tables and the answer |
| Api.DispatchOnce | leira/dispatcher/dispatcher.py:115-261 | the state and result of a dispatch, wherever it stops, from the live tables, the response and the appends (`DispatchOutcome.Dispatching`); it succeeds if and only if the intent's row is pending, the worker has a name, its outputs have a canonical form and the five appends succeed; called as allowed in a sound state it leaves one, with every table the fold of the ledger and the audit clean |
| Api.DispatchByName | leira/dispatcher/dispatcher.py:497-515 | an unknown name stops before anything, a known one is dispatched and ends as told from its response; called as allowed in a sound state it leaves one, with every table the fold of the ledger and the audit clean |
| Api.Capture | leira/dispatcher/dispatcher.py:363-384 | one snapshot event, and the error that ends the dispatch if there is one |
| Api.FailAfterCapture | leira/dispatcher/dispatcher.py:264-305 | the intent is failed, if that can be recorded |
| Api.DispatchWithProvenance | leira/dispatcher/dispatcher.py:308-494 | the state and result of a dispatch with both snapshots, wherever it stops, from the live tables, the observations and the response, and exactly when it succeeds; called as allowed in a sound state it leaves one, with every table the fold of the ledger and the audit clean |
| Api.DispatchAndTrack | leira/dispatcher/dispatcher.py:518-556 | claim, dispatch and release in that order, each as it is on its own (`Outcomes.Tracks`); a refused claim stops it, a failed release is reported; called as allowed in a sound state it leaves one, with every table the fold of the ledger and the audit clean |
| Api.DispatchWithProvenanceAndTrack | leira/dispatcher/dispatcher.py:559-587 | the same around a dispatch with snapshots; called as allowed in a sound state it leaves one, with every table the fold of the ledger and the audit clean |
| Api.RegisterWorker | leira/registry/registry.py:109-170 | event, memory and table after a registration, accepted, refused or not recorded, literally; called as allowed in a sound state it leaves one, with every table the fold of the ledger and the audit clean |
| Effects.RegisterEffectIs | leira/registry/registry.py:109-170 | refusals and their recorded rejections, and otherwise event, memory and row |
| Effects.RegisterSucceeds | leira/registry/registry.py:109-170 | a registration succeeds if and only if this process has not registered the name and the append succeeds; after a restart every name is taken again |
| Api.UpdateWorkerProjection | leira/registry/registry.py:181-208 | a table of the first registrations of a history becomes that of the history with one more registration |
| Api.CreateSession | leira/sessions/sessions.py:136-159 | the creation event and an empty session row; called as allowed in a sound state it leaves one, with every table the fold of the ledger and the audit clean |
| Effects.OpenEffectIs | leira/sessions/sessions.py:136-159 | the literal event and an empty row if the append succeeds, nothing if not |
| Api.AddIntent | leira/sessions/sessions.py:162-212 | succeeds if and only if session and intent have rows, the intent has not joined and the append succeeds; every refusal has its condition, its code and its recorded rejection; called as allowed in a sound state it leaves one, with every table the fold of the ledger and the audit clean |
| Effects.JoinEffectIs | leira/sessions/sessions.py:162-212 | every refusal in its order with its recorded rejection, and otherwise event, member row and session row, the member placed right after those there are |
| Api.InsertMember | leira/sessions/sessions.py:190-211 | session tables that are the rebuild of a history become the rebuild of the history with one more membership |
| Api.RejectMember | leira/sessions/sessions.py:121-133 | the rejection is recorded if it can be, nothing else moves |
| Api.WriteArtifact | leira/workspace/workspace.py:144-194 | refusals with their conditions and codes, an exclusively created file, and its literal event and row if the append succeeds; called as allowed in a sound state it leaves one, with every table the fold of the ledger and the audit clean |
| Effects.WriteEffectIs | leira/workspace/workspace.py:144-194 | content, path and a free place decide; each refusal is noted if its path can be; the file stays even when its event cannot be appended; event and row carry size and digest |
| Api.ValidateOperation | leira/dispatcher/lifecycle.py:147-165 | one operation event, no table moves; called as allowed in a sound state it leaves one, with every table the fold of the ledger and the audit clean |
| Effects.ValidateEffectIs | leira/dispatcher/lifecycle.py:147-165 | one literal event if the append succeeds |
| Outcomes.Upheld | leira/audit/auditor.py:1405-1488 | every call lets the ledger only grow; an allowed call in a sound state leaves a sound one, its tables the folds of the ledger and its audit clean |
| Outcomes.ClaimSucceeds | leira/claims/claims.py:269-317 | a claim is granted if and only if the owner has a name, the intent's row is pending, no claim row stands and the append succeeds |
| Outcomes.ReleaseSucceeds | leira/claims/claims.py:319-353 | a release succeeds if and only if the claim row is the owner's and the append succeeds |
| Outcomes.AdvanceSucceeds | leira/dispatcher/lifecycle.py:210-279 | a lifecycle event is accepted if and only if the run's row stands where it may follow, its payload can be recorded and the append succeeds |
| Outcomes.AddSucceeds | leira/sessions/sessions.py:162-212 | an intent joins if and only if both rows are there, it has not joined and the append succeeds |
| Outcomes.WriteSucceeds | leira/workspace/workspace.py:144-194 | a write succeeds if and only if there is content, the path is accepted, no file is there and the append succeeds |
| Outcomes.DispatchAnswers | leira/dispatcher/dispatcher.py:115-261 | a dispatch that succeeds records exactly five rows of the five types, and intent row, answer and last event say COMPLETED if and only if the worker returned a result that reports success; the artifact holds the inbox entry's payload as inputs, the canonical outputs and the flag |
| Outcomes.ObservedAnswers | leira/dispatcher/dispatcher.py:308-494 | with snapshots there are seven rows and the artifact names both |
| Outcomes.TrackedIs | leira/dispatcher/dispatcher.py:518-556 | a tracked dispatch is its claim, its dispatch and its release, each as it is on its own |
| Outcomes.ObservedTrackedIs | leira/dispatcher/dispatcher.py:559-587 | so is one with snapshots |
| Outcomes.TracksSucceeds | leira/dispatcher/dispatcher.py:518-587 | it succeeds if and only if the claim is granted and the dispatch goes through; then the answer carries an error of the release, and the claim stands, if and only if the release could not be recorded |
| Outcomes.OtherRunStaysExact | leira/dispatcher/lifecycle.py:210-313 | whatever a caller attaches to an event of one run, the queried state of another stays that of its row if and only if no key of the data taken for `run_id` holds the other's id, up to case, or the other already stands there |
| Outcomes.TakenKeyMoves | leira/dispatcher/lifecycle.py:281-313 | without the hypothesis on keys: a payload of one run with the key `RUN_ID` naming another moves the queried state of the other and not its row |
| Invariant.InvNext | leira/audit/auditor.py:1405-1488 | an event that every check accepts keeps the whole invariant |
| IntentSteps.SubmitKeeps | leira/inbox/inbox.py:191-264 | the live rows of a submission are the fold's next step |
| IntentSteps.RunningKeeps | leira/dispatcher/dispatcher.py:150-169 | a pending intent may be marked running and the live row is the fold's |
| IntentSteps.DoneKeeps | leira/dispatcher/dispatcher.py:226-254 | a running intent may be concluded by its worker and the live row is the fold's |
| RunSteps.CreateKeeps | leira/dispatcher/lifecycle.py:181-201 | a new run keeps the invariant and is bridged to its operation |
| RunSteps.AppendKeeps | leira/dispatcher/lifecycle.py:210-279 | a lifecycle event keeps the invariant and every bridge |
| ClaimSteps.ClaimFacts | leira/claims/claims.py:189-217 | in reachable states the claim replayed from the ledger is the live row |
| ClaimSteps.ClaimIntentKeeps | leira/claims/claims.py:269-317 | a claim keeps the invariant, granted or refused |
| ClaimSteps.ReleaseClaimKeeps | leira/claims/claims.py:319-353 | a release keeps the invariant, granted or refused |
| ClaimSteps.LiveClaimExact | leira/claims/claims.py:309-316 | after a successful claim the live table equals the replay if and only if the owner was given in normal form |
| NormalForms.LiveRegistrationExact | leira/registry/registry.py:140-170 | after a recorded registration the worker table is the rebuild's if and only if the name was given in normal form or neither insert has anything to add |
| NormalForms.LiveWorkerExact | leira/dispatcher/dispatcher.py:150-261 | once a dispatch has claimed its intent, wherever it stops, the intent table is the rebuild's if and only if the worker's name was given in normal form |
| NormalForms.ObservedWorkerExact | leira/dispatcher/dispatcher.py:340-494 | the same for a dispatch with snapshots |
| RegistrySteps.RegisterKeeps | leira/registry/registry.py:109-170 | a registration keeps the invariant, accepted or refused |
| SessionSteps.CreateSessionKeeps | leira/sessions/sessions.py:136-159 | a new session keeps the invariant |
| SessionSteps.AddKeeps | leira/sessions/sessions.py:162-212 | a membership keeps the invariant, added or refused; the live order is the fold's |
| FileSteps.WriteKeeps | leira/workspace/workspace.py:144-194 | a write keeps the invariant whatever is refused or fails on the way |
| FileSteps.WriteSchemaExact | leira/audit/auditor.py:306-326 | after a successful write the schema check is clean if and only if the intent id was not empty, which the workspace does not ask |
| DispatchSteps.DispatchKeeps | leira/dispatcher/dispatcher.py:115-261 | a dispatch keeps the invariant, wherever it stops |
| DispatchSteps.ProvenanceKeeps | leira/dispatcher/dispatcher.py:308-494 | so does a dispatch with snapshots |
| DispatchSteps.InvokeKeeps | leira/dispatcher/dispatcher.py:195-197 | giving a running intent to its worker for the first time keeps the record of invocations |
| DispatchOutcome.DispatchSucceeds | leira/dispatcher/dispatcher.py:115-261 | a dispatch succeeds if and only if the intent is pending, the worker has a name, its outputs have a canonical form and the five appends succeed |
| DispatchOutcome.DispatchEffectIs | leira/dispatcher/dispatcher.py:115-261 | a dispatch is refused without a trace, or records a prefix of five literal rows: which ones the appends and the outputs decide; status, type, error and message of the last come from the response, the artifact holds the submitted payload, the canonical outputs and the success flag, and tables, invocation and answer follow |
| DispatchOutcome.NamedEffectIs | leira/dispatcher/dispatcher.py:497-515 | by name: unknown to this process, or the dispatch of that name |
| DispatchOutcome.ExecutedAsTold | leira/dispatcher/dispatcher.py:174-261 | the same from the run on |
| DispatchOutcome.ConcludedAsTold | leira/dispatcher/dispatcher.py:199-261 | the same from the worker's answer on |
| DispatchOutcome.ProvenanceSucceeds | leira/dispatcher/dispatcher.py:308-494 | with snapshots, if and only if both captures succeed as well |
| DispatchOutcome.ProvenanceEffectIs | leira/dispatcher/dispatcher.py:308-494 | with snapshots: each leaves its literal row, one that reports an error fails the intent with that error, and otherwise the run follows with both ids in its artifact |
| System.TrackKeeps | leira/dispatcher/dispatcher.py:518-556 | claim, dispatch and release together keep the invariant |
| System.ApplyKeeps | leira/audit/auditor.py:1405-1488 | every API call keeps the invariant |
| System.Reachable | leira/audit/auditor.py:1405-1488 | every state of every behaviour, with any appends failing, satisfies the invariant |
| Guarantees.LiveIsReplay | leira/inbox/inbox.py:267-275 | in every reachable state each table kept live equals what its rebuild computes from the ledger alone |
| Guarantees.AuditClean | leira/audit/auditor.py:1405-1488 | in every reachable state the audit reports nothing; after restarts the one thing it can report is a name registered again |
| Guarantees.LedgerGrows | leira/dispatcher/schema.sql:21-33 | every later state's ledger begins with the earlier one's |
| Guarantees.AtMostOnce | leira/dispatcher/dispatcher.py:195-197 | in every reachable state each intent was given to a worker at most once, always after its `intent_claimed` event, and with the payload of its inbox entry |
| Guarantees.TerminalForever | leira/inbox/inbox.py:339-343 | a rejected, completed or failed intent has the same status in every later state |
| Guarantees.ClaimExclusion | leira/claims/claims.py:269-353 | from a claim that was taken and left standing, by a claim or by a tracked dispatch whose release failed, until a successful release, in every state of every behaviour, no claim on the intent and no release by another owner succeeds |
| Guarantees.TrackedClaimStands | leira/dispatcher/dispatcher.py:518-556 | a tracked dispatch leaves its claim standing if and only if its release could not be recorded |
| Guarantees.LookupsExact | leira/dispatcher/lifecycle.py:295-303 | in every reachable state the `LIKE` lookup of an id in use finds an event if and only if its payload mentions that id under that key, and payloads mention ids in use only |
| Guarantees.QueriesReadTables | leira/inbox/inbox.py:331-336 | in every reachable state the `LIKE` queries for status and run state give what the live tables hold |
| Guarantees.SessionOrder | leira/sessions/sessions.py:162-212 | in every reachable state orders are exactly 1..n, and live, rebuilt and expected rows are the same |
| Guarantees.WriteOnceEvidence | leira/workspace/workspace.py:121-122 | in every reachable state no two file events share intent and path, and each is backed by its file |
| Guarantees.RegistryAcrossRestarts | leira/registry/registry.py:211-227 | over any number of restarts the names in memory were registered and the table holds each first registration |
| Guarantees.ReceiptsAgree | leira/audit/auditor.py:799-862 | in every reachable state the receipt of an intent is the auditor's group |
| Auditor.CheckRequiredFields | leira/audit/auditor.py:200-208 | one error per empty required column |
| Auditor.FieldCheckExact | leira/audit/auditor.py:200-208 | no error if and only if every required column of every event is filled |
| Auditor.FieldFinds | leira/audit/auditor.py:200-208 | exactly the empty columns are reported, each by event and name |
| Auditor.CheckDuplicateEventIds | leira/audit/auditor.py:211-221 | one error per id seen before |
| Auditor.DuplicateCheckExact | leira/audit/auditor.py:211-221 | no error if and only if all ids differ |
| Auditor.DuplicateFinds | leira/audit/auditor.py:211-221 | exactly the ids used again are reported |
| Auditor.CheckMonotonicOrdering | leira/audit/auditor.py:224-233 | one error per event earlier than the one before it |
| Auditor.OrderingCheckExact | leira/audit/auditor.py:224-233 | no error if and only if no event is earlier than any before it |
| Auditor.OrderingFinds | leira/audit/auditor.py:224-233 | exactly the events earlier than the one before them are reported |
| Auditor.Audit | leira/audit/auditor.py:1405-1488 | every error in its order; success if and only if the chain is valid, no position of the history breaks one of the eleven rules and every table and every file is as history says |
| Auditor.CheckChain | leira/audit/auditor.py:1416-1420 | the first event that breaks the chain, and whether its link or its hash is wrong |
| Auditor.ChainFinds | leira/audit/auditor.py:1416-1420 | the report is that one event alone, under the code of what is wrong with it |
| Auditor.HistoryReportEmpty | leira/audit/auditor.py:1424-1439 | the history checks together report nothing if and only if, by position, no event lacks a column, repeats an id, goes back in time, misses its run, leaves its path, carries no artifact, claims again, is concluded for another worker, claims or releases against a standing claim, joins wrongly or registers again |
| Auditor.AuditReportEmpty | leira/audit/auditor.py:1405-1488 | the whole report is empty if and only if the chain is valid, every position of the history keeps those rules and the tables and files are as history says |
| Auditor.GoodHistoryClean | leira/audit/auditor.py:1416-1439 | a history of events that each could follow passes every history check |
| Auditor.InvClean | leira/audit/auditor.py:1405-1488 | the invariant implies a clean audit, registrations repeated after a restart aside |
| Jsonl.LinesSplit | leira/archive/archive.py:93-94 | splitting the printed ledger into lines gives one line per event |
| Jsonl.LedgerReadsBack | leira/archive/archive.py:184-225 | all nine columns of every event survive printing, splitting, parsing and inserting |
| Jsonl.ReadLines | leira/archive/archive.py:190-196 | the documents of the lines, or the first line that is none |
| Jsonl.InsertRows | leira/archive/archive.py:209-225 | the rows as the TEXT columns keep them, or the first document that cannot be one |
| Refusals.RowsFail | leira/archive/archive.py:209-225 | the insertion fails with exactly the code of the first document with a gap, a value no text column keeps, or an id that is taken |
| Archive.CopyWorkspaceFiles | leira/archive/archive.py:108-123 | the copied files, or the first artifact that is missing, altered or already there |
| Acceptance.CopyIs | leira/archive/archive.py:108-123 | the copy goes through if and only if every artifact's file is whole and no two are at one place, and is then exactly those files |
| Refusals.CopyFails | leira/archive/archive.py:108-123 | the copy fails with exactly the code of the first artifact whose path, presence, size, digest or place is wrong |
| Archive.ExportArchive | leira/archive/archive.py:126-170 | the archive, or the reason there is none; `Acceptance.ExportAccepts` says exactly when and what it holds |
| Acceptance.ExportAccepts | leira/archive/archive.py:126-170 | an export succeeds if and only if the directory is free, the ledger holds a row and every artifact's file is whole, at a place of its own; it then holds exactly those files, the ledger's text and a literal manifest |
| Refusals.ExportStops | leira/archive/archive.py:126-170 | an export fails with exactly the code of the first of: its directory, an empty ledger, the first artifact whose file may not be copied |
| Archive.RestoreWorkspaceFiles | leira/archive/archive.py:228-254 | the restored files up to the first artifact that cannot be restored |
| Acceptance.RestoreIs | leira/archive/archive.py:228-254 | the restore goes through if and only if every artifact's file is whole in the archive and its place is free or already holds it |
| Refusals.RestoreFails | leira/archive/archive.py:228-254 | the restore fails with exactly the code of the first artifact that is missing, altered or not welcome |
| Archive.ReadArchive | leira/archive/archive.py:173-206 | everything checked before the target is touched; `Acceptance.UnpackIs` says exactly what passes |
| Acceptance.UnpackIs | leira/archive/archive.py:173-206 | an archive may be unpacked if and only if its manifest is an object that names the digests of its ledger text and of its files, every line is an object, and the manifest counts them and names the first and the last id |
| Refusals.UnpackFails | leira/archive/archive.py:173-206 | otherwise the code is that of the first of: manifest, ledger digest, the first line that is no object, count, first id, last id, digest of the files |
| Archive.RebuildProjection | leira/projection/rebuild.py:29-72 | runs, artifacts and sessions rebuilt, or as far as the rebuild that raises |
| Archive.ReplayHistory | leira/archive/replay.py:76-96 | every table rebuilt from the ledger, then the audit; or the state as far as the rebuild that raises |
| Archive.ImportArchive | leira/archive/archive.py:257-285 | how it ends and the state it leaves, whichever step stops it; before the rows are inserted a failure leaves no trace; `Acceptance.ImportAccepts` says exactly what passes |
| Acceptance.ImportAccepts | leira/archive/archive.py:173-285 | an import succeeds if and only if both digests match, the rows are objects counted and bounded by the manifest and fit their columns, the target holds none, the chain is valid, the rebuilds go through, every file is whole and welcome, and the audit finds nothing |
| Refusals.ImportStops | leira/archive/archive.py:173-285 | an import fails with exactly the code of the first step that objects: seals, target, rows, chain, rebuilds, files, audit, result |
| Acceptance.ImportRefuses | leira/archive/archive.py:173-285 | an archive that may not be inserted is refused and the target is as it was |
| Acceptance.ImportVouches | leira/archive/archive.py:173-285 | what a successful import says of manifest, digests, count and bounds, and the state and files it leaves |
| Acceptance.TamperedImport | leira/archive/archive.py:184-206 | what is imported under an exported manifest is the exported text and files, unless two texts or two trees share a digest |
| Acceptance.AlteredImport | leira/archive/archive.py:184-206 | an archive altered under its manifest is refused by name and without a trace: for its text first, then for its files; one that is not altered, by a target that holds events |
| RoundTrip.ArchiveRoundTrip | leira/archive/archive.py:126-285 | exporting a reachable state and importing it into an empty ledger reproduces every event in all nine columns, every table and every artifact file; the import succeeds with a clean audit if and only if no name was registered twice, and ends as an audit failure otherwise |
| Truncation.BuildCommandArtifact | leira/dispatcher/shell.py:121-158 | the first of the halving sequence that fits or has nothing left, after at most one pass plus one per bit of the two lengths; flagged if and only if a text changed; texts are prefixes |
| Truncation.BuildGitArtifact | leira/dispatcher/git.py:170-208 | the same, halving the longer text, the status first when equally long |
| Truncation.TextsSerial | leira/dispatcher/git.py:196-198 | both artifacts always have a canonical form |
| Truncation.BuildWorkerArtifact | leira/workers/base.py:144-193 | the same over three values and their renderings; it raises if and only if the first artifact is too large and a field is neither text nor dict |
| Truncation.FirstGoesFirst | leira/dispatcher/shell.py:149-153 | shell output is cut in order: the second text is whole while anything of the first is left |
| Truncation.CutEvenly | leira/dispatcher/git.py:199-204 | git output is cut evenly: neither text is cut below half of the other, the first of two of one length |
| Truncation.TrioCutEvenly | leira/workers/base.py:185-193 | so are a worker's three values |
| Truncation.SettledFits | leira/dispatcher/shell.py:145-147 | what settles is at most 64000 bytes of UTF-8 |
| Truncation.LengthIsUtf8 | leira/dispatcher/shell.py:146 | the byte count is the length of the encoding, which `Truncation.EncodedDecodes` shows to be decodable |
| Truncation.CommandDocument | leira/dispatcher/shell.py:134-143 | the canonical document of a command, member by member, `truncated` if and only if it was cut |
| Truncation.GitDocument | leira/dispatcher/git.py:182-194 | the same of a repository's status |
| Truncation.WorkerDocument | leira/workers/base.py:162-172 | the same of a worker's result, which holds the canonical forms of its three values |

## Left out

- Provenance and environment tables and their checks: the same pattern as the artifact table; a
  capture is one event with an outcome.
- SQLite itself: tables are maps, the ledger a sequence, a transaction all or nothing; the limit on the length of
  a `LIKE` pattern.
- Subprocesses, git inspection, clocks, id generation, the file system beyond files by intent and
  path: they are parameters. Links, case-insensitive names, failing directory creation and a file in
  the place of a directory are not modelled.
- YAML envelopes (leira/dispatcher/envelope.py): `Api.ValidateOperation` starts after the envelope was
  accepted.
- `run_worker_once`, `run_shell_once`, `run_git_status_once`: fixed sequences of
  `append_lifecycle_event`, which runs of `System` already contain; their artifact builders are modelled.
- Receipts.GetReceiptBundle: leaves out the artifact, provenance and environment lists of the bundle; they, like the
  session read functions, copy fields.
- Digests of whole archives: the digest of a text file and of a tree are functions; the framing of
  blobs is not injective and nothing relies on it.
- The order of artifact rows in export and restore is that of artifact ids; it decides only which of
  several errors is reported and which files were written before it.
- Floats and lone surrogates in JSON text: the parser refuses both; no canonical payload holds a float.
- A worker that changes its inputs or calls back into the dispatcher.
- Records, drafts, commits, manifests, prompts and policies outside the packages named above.
- Auditor.Audit: leaves out the provenance and environment checks of `audit`, whose tables are not modelled.
- Auditor.AuditReportEmpty: speaks of that audit.
- Guarantees.AuditClean: speaks of that audit.
