# Herdres: a verified model of its durable connector

Herdres carries instructions from Telegram to terminal workers (through Tendwire)
and turns from those workers back to Telegram. Everything hard about it is in what
survives: crashes, restarts, redelivered updates, racing processes, half-delivered
messages and truncated transcripts. This project models those parts in Dafny and
proves what they promise over whole runs.

| part | files | what is modelled |
|---|---|---|
| ingress lanes | `LaneSpool`, `LaneFifo`, `LaneLeases`, `LaneVisibility`, `IngressLanes`, `LanePoll` | the spool of received updates as a transition system (one SQL transaction is one step), the class that runs it, the dispatcher's snapshot, and one poll of one receiver |
| dispatcher | `Dispatcher` | the bounded hand-off between claim workers and service workers |
| ingress requests | `IngressRecords`, `RecordValidity`, `RecordMigration` | the lifecycle record with its validators, every transition, and the migrations |
| command path | `CommandProtocol`, `CommandOutcomes`, `CommandSafety`, `CommandBytes`, `CommandValidity`, `IngressCommand` | racing submitters of one request id: lock-held regions as atomic steps, the lock dropped around each RPC, and the submit loop itself |
| turn-final recovery | `RecoveryStore`, `RecoveryPreflight`, `RecoveryVerdict`, `RecoveryChain`, `RecoveryAgain`, `RecoveryCommand` | preflight, answer validation, the cutover to a replacement plan, and chains of recoveries |
| multipart delivery | `TextSpans`, `TableSpans`, `TurnPlanner`, `WriteBudget`, `FeedDelivery` | span splitting, table-aware cutting, the shrinking-limit planner, and write accounting through the send ladders |
| transcripts | `TailWindow`, `TailParser`, `CodexTranscript`, `CodexContents`, `KimiTranscript`, `KimiContents`, `ClaudeTranscript`, `ClaudeContents` | the bounded tail read, the three parsers, and what a turn contains read off the log alone |
| scanners | `HtmlSanitizer`, `InlineLinks` (with `Chars`, `Numbers`, `Options`) | the HTML allowlist machine and the one-pass link scan |

Code that works in place is a class or a method with its loops, proved equal to a
specification function. The theorems are about those functions and about runs of
them, and say independently of their bodies what they compute. A run is a list of states and a list of steps, so "any interleaving" is any
list of steps.

## Where the code and its documentation differ

The model follows the code. Where a promise turned out not to hold in general, a
lemma gives an input on which it fails and another the exact condition under which
it holds.

- The repository's README says that quarantine children use the checkpoint
  `advance`; the code builds them with `hold` (`herdres_connector/ingress_requests.py:1188`),
  and so does every outcome the command path stores (`CommandSafety.NeverAdvances`).
- `herdr_turn_adapter.py:330-333` promises that a tail read exposes the same recent
  turns as a full read because both parsers reset at a turn boundary. For Codex and
  Kimi the view is the same if and only if the tail completed as many turns as are
  exposed or the part before it completed none; completions that emit no turn break
  it (`CodexTranscript.SilentEndsHideTurns`). For Claude a user record that is not a
  real prompt is no reset at all (`ClaudeTranscript.InternalStartLosesTurn`): the full
  read completes what it had before the cut and then what the tail completes alone if
  and only if no record was pending at the cut, or the tail neither answers nor
  interrupts it before it takes over (`ClaudeTranscript.TailExactlyIfClean`). What is
  shown after any other cut is `ClaudeTranscript.UncleanViewExactly`, and what a reader
  of the tail alone can tell is `ClaudeTranscript.OnlyQuietTailsAreExact`.
- `herdres_connector/rendering.py:425-428` promises that complete table rows stay
  whole whenever they fit. That holds for every row but the first data row, which is
  only safe together with its header (`TableSpans.RowsStayWhole`, `TableSpans.FirstRowMayBeTorn`).
- `herdres_connector/rendering.py:593-594` intends never to split CRLF when another
  choice exists; the `\r\r` rule does (`TextSpans.SplitsCrlfExactly`, `TextSpans.PairRuleSplitsCrlf`).
- Consecutive end-turns are meant to coalesce (`herdr_turn_adapter.py:1655-1660`);
  under a compaction summary the second one is dropped (`ClaudeTranscript.CompactionDropsSecondReply`,
  `ClaudeTranscript.CompactionLogDropsReply`).
- A stored record is meant to stay valid. It does in every run except after three
  kinds of step, given exactly by `CommandValidity.ValidExactlyIfUnbroken`; each of
  the three does occur (`UnsettledReasonOccurs`, `OwnerCrashOccurs`,
  `LinkedWithoutTurnOccurs`).
- A preflight that passes promises an audit slot to the cutover
  (`herdres.py:1628-1640`). The cutover can need it again: exactly when, and that it
  happens, is `RecoveryChain.CrashExactly` and `RecoveryChain.CrashOccurs`.
- A dispatch slot is meant to come back however its service ends; a log call that
  raises before the release takes it along (`Dispatcher.SlotsConserved`).
- Migration is meant to be total; an old record quarantined without bytes cannot be
  migrated, read or pruned (`RecordMigration.AcceptedEvidence`).

## Model

| member | source | states |
|---|---|---|
| LaneFifo.StrictFifo | herdres_connector/ingress_lanes.py:466-571 | in every run, whatever workers, crashes and restarts interleave, a row that is processing, blocked or was ever leased has every earlier row of its lane done; so a lane has at most one held row |
| LaneFifo.NeverRedispatched | herdres_connector/ingress_lanes.py:991-1028 | a row that is blocked or done is never leased again |
| LaneFifo.RowHistory | herdres_connector/ingress_lanes.py:856-1080 | over any stretch of a run a row keeps its identity, done is absorbing, blocked only becomes done, a lane head stays a head, attempts and cursors never decrease |
| LaneFifo.RunIsSafe | herdres_connector/ingress_lanes.py:367-571 | every reachable spool has unique request ids and update ids, held rows only at lane heads, and every row below its receiver's cursor |
| LaneFifo.OnlyTheOwnerSettles | herdres_connector/ingress_lanes.py:884-1080 | outside claims and the restart reclaim only an action carrying the current lease owner's string takes a row out of processing |
| LaneFifo.LeasedByClaimsOnly | herdres_connector/ingress_lanes.py:518-571 | between two claims of a row nothing leases it or changes its owner |
| LaneFifo.NotificationClaimedOnce | herdres_connector/ingress_lanes.py:912-957 | after one successful notification claim the state never becomes pending again, as long as no settlement writes the initial state back |
| LaneFifo.DepthBounded | herdres_connector/ingress_lanes.py:416-427 | if every enqueue of a run uses a depth limit of at most d, no lane ever has more than d open rows |
| LaneFifo.LookupChoiceIrrelevant | herdres_connector/ingress_lanes.py:392-428 | the result of enqueue does not depend on which row its OR lookup returned |
| LaneFifo.EnqueueIdempotent | herdres_connector/ingress_lanes.py:367-464 | repeating an accepted enqueue changes nothing and names the same row |
| LaneFifo.SpooledBelowCursor | herdres_connector/ingress_lanes.py:317-340 | a spooled row stays spooled, below a cursor that never decreases |
| LaneFifo.EnqueueExactly | herdres_connector/ingress_lanes.py:367-464 | an update gets the row it already has, a collision exactly if its identity clashes, an overflow exactly if its lane holds the limit of open rows, or a new row; all but the collision move the cursor just past it, never back |
| LaneLeases.LeaseIsExclusive | herdres_connector/ingress_lanes.py:466-571 | in every run, a row claimed or renewed at t for L seconds stays its owner's until exactly t + max(0.1, L): unless its owner renews or settles it or a restart reclaims it, no earlier claim releases it or leases it to anyone, and the first claim from then on releases it |
| LaneLeases.ClaimEndsLease | herdres_connector/ingress_lanes.py:477-489 | a claim ends a lease if and only if its instant is not before the lease's end |
| LaneLeases.OwnerAlwaysSettles | herdres_connector/ingress_lanes.py:959-1080 | the owner's settlement always takes effect, frees the row, counts an attempt only for a retry, and changes no other row |
| LaneLeases.HoldIsBounded | herdres_connector/ingress_lanes.py:991-1028 | in every run, a blocked row stays blocked until exactly the earlier of its deadline and the end of its hold, and the first expiry from then on makes it done |
| LaneLeases.RetryWaits | herdres_connector/ingress_lanes.py:1030-1080 | in every run, a retried row is not leased before its backoff or its deadline is over, and may be from then on |
| LaneLeases.DelayDoubles | herdres_connector/ingress_lanes.py:1046-1054 | the delay starts at the backoff, doubles sixteen times and stops at five minutes |
| LaneLeases.SpooledRowIsDue | herdres_connector/ingress_lanes.py:429-464 | a spooled row is pending and due at once with its notification open; one already answered is done |
| LaneLeases.NotificationMoves | herdres_connector/ingress_lanes.py:912-957 | a pending notification is claimed and a claimed one sent, once each, and nothing else changes |
| LaneLeases.RestartFreesAll | herdres_connector/ingress_lanes.py:863-882 | a restart makes every processing row pending and due and touches no other |
| LaneVisibility.ClaimableRowsAreLanes | herdres_connector/ingress_lanes.py:610-753 | the snapshot's count of claimable rows is the number of distinct claimable lanes |
| LaneVisibility.ClaimAgreesWithSnapshot | herdres_connector/ingress_lanes.py:466-515 | claim returns nothing exactly when the snapshot after expiry counts no claimable lane; with nothing to expire it leases the reported first lane |
| LaneVisibility.EveryLaneVisible | herdres_connector/ingress_lanes.py:593-753 | in every run, in whatever order its transactions read their clocks, and at any instant none of them was ahead of, a lane with pending work is claimable, or its head has a known obstruction start and is reported stalled or retry-obstructed exactly once that start is stall_after old; a claimable lane is never reported |
| LaneVisibility.HeadDueByDeadline | herdres_connector/ingress_lanes.py:1052-1054 | whatever its backoff, a pending head is claimable once its deadline has come |
| LaneVisibility.ClocksAreNotReset | herdres_connector/ingress_lanes.py:884-910 | a renewal moves no obstruction clock, state_since moves only with the state or a lease, the retry clock is written by the first retry only |
| LaneVisibility.RetryClockNeverMoves | herdres_connector/ingress_lanes.py:1030-1080 | once written, the retry clock of a row has the same value for the rest of the run |
| LaneVisibility.BackoffMonotone | herdres_connector/ingress_lanes.py:1046-1054 | backoff delays never shrink from one attempt to the next and never exceed five minutes |
| LaneVisibility.RetryIsBounded | herdres_connector/ingress_lanes.py:1030-1080 | a retried row is next due no later than five minutes from now and its deadline |
| LaneVisibility.SnapshotCounts | herdres_connector/ingress_lanes.py:593-753 | in every run the snapshot counts rows by state, splits the lanes with work into claimable, backing off and held ones, and counts as stalled or retry-obstructed exactly those overdue |
| IngressLanes.IngressLaneSpool.Enqueue | herdres_connector/ingress_lanes.py:367-464 | collision, duplicate, overflow and insertion change rows and cursors exactly as the transaction says and keep the spool safe |
| IngressLanes.IngressLaneSpool.Claim | herdres_connector/ingress_lanes.py:466-571 | expires leases and holds, then leases the first due lane head, or nothing |
| IngressLanes.IngressLaneSpool.ReclaimProcessing | herdres_connector/ingress_lanes.py:863-882 | every processing row, and no other, is pending and due again |
| IngressLanes.IngressLaneSpool.RenewLease | herdres_connector/ingress_lanes.py:884-910 | a row its owner holds is leased until the new end and no other row changes; the reply says whether it did |
| IngressLanes.IngressLaneSpool.MarkDone | herdres_connector/ingress_lanes.py:959-989 | only the owner settles a row, and nothing else in the spool changes |
| IngressLanes.IngressLaneSpool.MarkBlocked | herdres_connector/ingress_lanes.py:991-1028 | only the owner moves a row into a bounded hold |
| IngressLanes.IngressLaneSpool.Retry | herdres_connector/ingress_lanes.py:1030-1080 | only the owner reschedules a row, with the attempt counted and the backoff applied |
| LanePoll.IngestOne | herdres_gateway.py:1029-1089 | one update gets a durable decision and moves the cursor past it, or nothing is committed at all |
| LanePoll.IngestBatch | herdres_gateway.py:1020-1094 | exactly the updates below the new cursor have a durable, recorded decision (spooled, duplicate, cached, overflow or dropped); the rest stay at or above it |
| LanePoll.PollOnce | herdres_gateway.py:980-1094 | a receiver without a cursor or legacy offset skips its backlog once; afterwards nothing below the cursor is undecided |
| LanePoll.InterleavedPoll | herdres_gateway.py:1020-1094 | whatever workers, restarts and other receivers commit between a poller's decisions, the updates below its cursor are exactly the decided ones, and every decision is durable |
| Dispatcher.SlotsConserved | herdres_gateway.py:1283-1526 | for every interleaving and every exception, held slots are the claims in flight, the queued items and the items in service, and the queue never overflows and no slot is released twice; lost are exactly the slots whose service worker ended by a log call before its release, and a quiet pool has all others back |
| Dispatcher.HandOffIsFifo | herdres_gateway.py:1400-1526 | what was served, then what is queued, is what was claimed, in order |
| Dispatcher.SlotsAreUsed | herdres_gateway.py:1283-1526 | a free slot is taken by a claim worker that asks, and each claim or service that ends gives exactly one back |
| RecordValidity.NewRecordValid | herdres_connector/ingress_requests.py:846-895 | a fresh record exists exactly for sane bounds and a valid id, and is valid |
| RecordValidity.QuarantineValid | herdres_connector/ingress_requests.py:1153-1208 | quarantine yields a valid record exactly when its two free texts reach a sanitizer fixpoint and a transport fact comes with bytes and no standing replay authorization |
| RecordValidity.AttachBytesValid | herdres_connector/ingress_requests.py:1293-1315 | bytes are attached once, to a resolving record, and never replaced |
| RecordValidity.RetryableValid | herdres_connector/ingress_requests.py:1318-1347 | mark_retryable yields a valid retryable record from any valid record with bytes, even a closed one |
| RecordValidity.TerminalShape | herdres_connector/ingress_requests.py:1350-1418 | exactly when a terminal outcome is recorded, and that it advances exactly if delivered |
| RecordValidity.TerminalValid | herdres_connector/ingress_requests.py:1350-1418 | the recorded outcome leaves a valid record exactly when its texts settle, delivery is handled and an unknown delivery has no replay authorization beside it |
| RecordValidity.MarkTerminalValid | herdres_connector/ingress_requests.py:1421-1450 | Tendwire's terminal answers always become holds, and the record stays valid unless an accepted one meets a replay authorization |
| RecordValidity.OwnerValid | herdres_connector/ingress_requests.py:1453-1478 | attaching an owner keeps validity exactly for retryable and terminal records or when it moves nothing |
| RecordValidity.OwnerThenBytesValid | herdres_connector/ingress_requests.py:1453-1478 | followed by the bytes, it repairs the resolving record |
| RecordValidity.ReceiptValid | herdres_connector/ingress_requests.py:1481-1535 | a receipt leaves the record alone, or is attached validly, or raises half written: exactly for an acceptable linked receipt with no turn id |
| RecordValidity.RejectedReceiptQuarantine | herdres.py:524-539 | the record quarantined after a rejected receipt is valid exactly when the receipt was rejected before it wrote |
| RecordValidity.StaleRefreshValid | herdres_connector/ingress_requests.py:1775-1801 | the byte rewrite happens at most once, drops only the fingerprint, and keeps validity exactly on a retryable record |
| RecordValidity.WitnessValid | herdres_connector/ingress_requests.py:1599-1677 | the exact states in which a dedup witness keeps a record valid |
| RecordValidity.WitnessRecorded | herdres_connector/ingress_requests.py:1599-1677 | what a witness records, when it is automatic, and that it touches nothing but itself and the operator's texts |
| RecordValidity.ValidatorsAgree | herdres_gateway.py:569-635 | the gateway's own validator accepts exactly the closed children the record store accepts, and advances exactly on delivered |
| RecordValidity.StoredOutcomeAccepted | herdres_gateway.py:569-635 | every outcome of a valid closed record is accepted verbatim |
| RecordValidity.BuiltChildAccepted | herdres_connector/ingress_requests.py:290-348 | a built child is accepted exactly when its reply settles and an advancing one is handled |
| RecordValidity.UnsettledReasonBreaksRecord | herdres_connector/ingress_requests.py:1153-1208 | because the sanitizer need not be idempotent, a quarantine reason can make a valid record invalid |
| RecordMigration.MigrationExact | herdres_connector/ingress_requests.py:950-1016 | a valid version 3 record migrates if and only if it is not quarantined without bytes; identity, times and bytes stay, and delivered is claimed exactly for an accepted record with a linked submission and a turn |
| RecordMigration.MigrationV2Exact | herdres_connector/ingress_requests.py:896-1021 | version 2 migrates under the same condition and never claims a delivery |
| RecordMigration.AcceptedEvidence | herdres_connector/ingress_requests.py:1211-1265 | accepted evidence of any version yields a valid current record, except the one kind that then also survives every prune |
| RecordMigration.LegacyMigrates | herdres_connector/ingress_requests.py:1211-1265 | a version 1 record becomes a retry of its own bytes, its bounds counted from its creation |
| CommandSafety.WriteOnce | herdres.py:371-661 | in every retention period a stored outcome is never replaced, nothing is sent after it, and all invocations that end with an outcome during the period end with that one |
| CommandSafety.NeverAdvances | herdres.py:477-614 | in every run, pruning included, the command path never stores or answers a delivery; its outcomes are holds |
| CommandSafety.SendDiscipline | herdres.py:390-448 | a send carries the stored bytes, starts before the deadline, and from no closed record that is still retained |
| CommandSafety.PruningForgets | herdres.py:700-731 | a step past retain_until does what it would do had there never been a record, or it is a failure that has saved nothing: a spooled caller's, or one without a sound record or shell |
| CommandSafety.PruningReplacesOutcome | herdres.py:700-746 | every entry past retain_until that does not fail saves a record with new bounds, whose outcome is the one it answered, or none after a retry or a send; a direct caller that fails leaves an empty shell, a spooled one the old record |
| CommandSafety.FinalityEndsWithRetention | herdres.py:700-727 | past retain_until a direct caller starts afresh and can store a different outcome |
| CommandSafety.SpooledReplayNeverSends | herdres.py:689-727 | an update with its spooled first-seen time sends nothing even then, and its old outcome is overwritten by the quarantine of a missed deadline |
| CommandOutcomes.AnswerMeans | herdres.py:457-661 | for an open record with the sent bytes, what each answer decides: accepted is held as written but unverified unless its receipt is refused, rejected and uncertain close with their own truth, lost, in progress and no receipt retry with that transport or send again, and a missed deadline quarantines |
| CommandOutcomes.EntryMeans | herdres.py:371-448 | what a new invocation does with an open record: quarantine past the deadline, send stored bytes again, store a local refusal's own reason and reply, or send exactly the routed bytes |
| CommandOutcomes.EveryOutcomeHasItsAnswer | herdres.py:371-661 | in every run a stored outcome has its cause: written-to-pty was accepted, terminal-rejected was rejected, terminal-uncertain was uncertain, and no transport fact means not delivered |
| CommandOutcomes.AnswerIsStored | herdres.py:457-614 | and conversely whoever reloads an open record with such an answer stores and returns that truth |
| CommandOutcomes.QuarantineShows | herdres_connector/ingress_requests.py:1153-1208 | verdict, transport, texts and answer of a quarantine, with the request untouched |
| CommandOutcomes.TerminalStores | herdres_connector/ingress_requests.py:1350-1418 | a terminal outcome carries its reply only if delivered and the operator's texts only if not |
| CommandOutcomes.ShellMeans | herdres_connector/ingress_requests.py:846-895 | a retained record is used as it is; a fresh one counts deadline and retention from when the update was first seen |
| CommandBytes.ByteStable | herdres.py:607-655 | in every retention period a later send repeats an earlier one or drops only its fingerprint; the request id never changes and the original never returns |
| CommandBytes.AtMostThreeSends | herdres.py:388-661 | one invocation makes at most three RPCs, whatever is answered and whoever runs in between |
| CommandValidity.ValidExactlyIfUnbroken | herdres.py:371-661 | the stored record of a run is valid exactly if no step was an unsettled local outcome, a crash between a direct caller's two saves, or an accepted linked receipt with no turn |
| CommandValidity.UnsettledReasonOccurs | herdres_connector/ingress_requests.py:1153-1208 | a refusal with a reason the sanitizer does not settle leaves an invalid record |
| CommandValidity.OwnerCrashOccurs | herdres.py:935-936 | a direct caller that dies between its two saves leaves an invalid record |
| CommandValidity.LinkedWithoutTurnOccurs | herdres.py:524-539 | a sent request accepted with a linked receipt that names no turn leaves an invalid record |
| CommandValidity.CorruptIsFinal | herdres_connector/ingress_requests.py:1101-1128 | an invalid record stops every later caller before it can repair, prune, answer or send |
| CommandValidity.BoundsNeverMove | herdres_connector/ingress_requests.py:846-895 | creation time, deadline and retention of a retained record never move |
| IngressCommand.Submission.Submit | herdres.py:371-661 | the submit loop terminates after at most three RPCs with byte-stable sends, and reports the stored outcome of a closed record or a retry of an open one |
| IngressCommand.Submission.Reduce | herdres.py:457-661 | the reconciliation after an RPC stores exactly what the answer means (CommandOutcomes.AnswerMeans) and returns what it stored |
| IngressCommand.Submission.AttachSubmissionReceipt | herdres_connector/ingress_requests.py:1481-1535 | the in-place receipt, half-written record included |
| RecoveryPreflight.ReadyMeans | herdres.py:1436-1688 | an unbound request passes preflight only for the unique plan of a routable entry whose receipts are an acknowledged prefix 0..k-1 followed only by failed jobs, with no message outside it and room in every table |
| RecoveryPreflight.ScanExact | herdres.py:1568-1609 | the receipt scan accepts exactly that pattern |
| RecoveryPreflight.ScanFault | herdres.py:1571-1609 | a refusal names the first receipt that breaks it: in flight, unproven, or invalid |
| RecoveryPreflight.InheritedFrom | herdres.py:1235-1342 | a plan some request is bound to inherits that request's audit and no other |
| RecoveryPreflight.CloneExact | herdres.py:1755-1812 | copying an acknowledged prefix into a ledger with room keeps every receipt, never reaches the cleanup, and gives each copy a fresh checkpoint number |
| RecoveryVerdict.ReadyExactly | herdres.py:1436-1688 | preflight is ready if and only if the request is unbound, the plan has a unique routable holder with sound coordinates and an identified past, its receipts are an acknowledged prefix and then failed jobs, no message lies outside that prefix and every table has room; it then names exactly that prefix and tail |
| RecoveryVerdict.RefusalExactly | herdres.py:1436-1688 | every other unbound request is refused for the first of these that fails, in the order of the code |
| RecoveryChain.OnlyAcceptedChanges | herdres.py:1929-1993 | a replayed or refused recovery changes nothing, and a replay must repeat the stored audit |
| RecoveryChain.RecoveryIsLossless | herdres.py:1744-1821 | with a sound ledger and a fresh replacement token, after a recovery no receipt has changed, the replacement holds exactly the acknowledged prefix, a new scan accepts all of it, and every message of the failed plan names the same sequence in the replacement |
| RecoveryChain.LinkConserves | herdres.py:1691-1741 | from one recovery to the next the generation rises by one, revision and total job count stay, and the retained failures grow by the new failed tail |
| RecoveryChain.ChainConserves | herdres.py:1436-1913 | along a chain from a first generation: generation n+1, the first plan's revision and job count, prefix plus suffix equal to it, retained failures equal to the sum of all failed tails |
| RecoveryChain.ChainKeepsParts | herdres.py:1823-1857 | the part count is the same in every generation, if the rest of the program moves bound plans unchanged and plan tokens are fresh |
| RecoveryChain.LiveAuditsSurvive | herdres.py:1343-1376 | eviction never drops an audit whose plan an entry still names |
| RecoveryChain.CrashExactly | herdres.py:1744-1913 | with a sound ledger and a fresh replacement token, a recovery that passed preflight fails at cutover if and only if its answer validates, the audit table is full and every audit in it will still be named, by the replacement or by an entry that stays |
| RecoveryChain.CrashOccurs | herdres.py:1897-1913 | for any tokens, a run from the empty store whose last recovery passes preflight, validates and fails |
| RecoveryChain.CrashMeansContestedSlot | herdres.py:1897-1913 | under the same premises, the audit slot promised to it is then needed again by the replacement's token or another entry's handle |
| RecoveryChain.CutoverFields | herdres.py:1823-1857 | the cut-over entry: copied prefix, jobs, generation, predecessor and turn, and nothing left of the failed plan |
| RecoveryAgain.AcceptedIsInherited | herdres.py:1235-1342 | an accepted recovery is the inherited past of its replacement with exactly its retained count, if that is not zero; a recovery that retained nothing identifies no past |
| RecoveryAgain.RecoverableAgain | herdres.py:1436-1913 | when the executable suffix of an accepted recovery has failed in turn, preflight of the replacement is ready with the copied receipts as prefix and the retained count inherited |
| RecoveryAgain.ReplayAnswers | herdres.py:1929-1993 | in every later state an accepted request is replayed unchanged while its audit is kept, and is a conflict afterwards and for any other plan |
| RecoveryCommand.RecoveryState.Preflight | herdres.py:1436-1688 | the scanning preflight computes the verdict that ReadyExactly and RefusalExactly characterise |
| RecoveryCommand.RecoveryState.CloneRecoveryPrefix | herdres.py:1744-1913 | the in-place cutover succeeds exactly when specified and leaves exactly the specified store |
| RecoveryCommand.RecoveryState.RecoverTurnFinal | herdres.py:1916-2019 | nothing is saved unless preflight, validation and the whole cutover succeed |
| TextSpans.SplitTextSpans | herdres_connector/rendering.py:622-639 | the splitting loop computes the specified spans, which tile the text with nonempty spans of at most the limit |
| TextSpans.TilingIsLossless | herdres_connector/rendering.py:642-645 | the pieces of such spans spell the text |
| TextSpans.PreferredExactly | herdres_connector/rendering.py:589-619 | the preferred boundary is the last blank line of the first kind present, else the last line end of any kind, else the last space or tab, else the hard end |
| TextSpans.CutsLate | herdres_connector/rendering.py:589-619 | a cut falls in the second half of its span, one short of the limit only to keep a CRLF, and the last span takes the rest |
| TextSpans.SplitsCrlfExactly | herdres_connector/rendering.py:589-619 | a boundary splits CRLF exactly if the span has room for the CR alone, or the double-CR rule fires on CR CR LF |
| TextSpans.SpansKeepCrlf | herdres_connector/rendering.py:622-639 | a text without CR CR LF is never cut inside CRLF by a limit of two or more |
| TextSpans.PairRuleSplitsCrlf | herdres_connector/rendering.py:603-606 | a text the double-CR rule cuts inside CRLF |
| TableSpans.MarkdownTableBlocks | herdres_connector/rendering.py:379-415 | the block scan computes the specified blocks from the recogniser's answers |
| TableSpans.BlocksAreOrdered | herdres_connector/rendering.py:379-415 | recognised tables are disjoint and in order |
| TableSpans.HeadersAreOwn | herdres_connector/rendering.py:402-404 | a block's header is its own header lines, ended by a line break |
| TableSpans.BlocksAreRecognised | herdres_connector/rendering.py:379-415 | every block is a table the recogniser found, with its own header and data lines |
| TableSpans.NoTableMissed | herdres_connector/rendering.py:379-415 | and every line at which the recogniser finds one lies in a block |
| TableSpans.SplitTableAwareSpans | herdres_connector/rendering.py:418-484 | the table-aware loop computes the specified spans, which tile the text within the limit |
| TableSpans.TableCutExactly | herdres_connector/rendering.py:443-479 | the ordinary boundary stands unless it falls inside a table; then it moves back to the last row end in the span, else in front of the table, else to the next row end if the limit allows |
| TableSpans.CutIsRowBoundaryExactly | herdres_connector/rendering.py:443-479 | a cut strictly inside a table is a row boundary, except exactly when the span starts in that table and the rest of its row exceeds the limit |
| TableSpans.RowsStayWhole | herdres_connector/rendering.py:425-428 | no cut falls strictly inside a data row that fits the limit, the first data row counted with its header |
| TableSpans.FirstRowMayBeTorn | herdres_connector/rendering.py:462-477 | a first data row that fits by itself can be cut |
| TableSpans.TableContinuationHeader | herdres_connector/rendering.py:487-510 | the header loop computes the specified header |
| TableSpans.ContinuationExact | herdres_connector/rendering.py:499-509 | a part that starts among a table's data rows repeats that table's header exactly if it fits |
| TableSpans.NoContinuation | herdres_connector/rendering.py:510-510 | a part that starts outside all data rows repeats nothing |
| TurnPlanner.PrepareTurnDeliveryParts | herdres_connector/rich_delivery.py:794-857 | the planning loop terminates and returns the specified plan |
| TurnPlanner.PlanIsExact | herdres_connector/rich_delivery.py:794-857 | a plan has ordinals 0..n-1, one or two spans a part and at most one per field, partitions both fields in order, and every part meets its bound and the executor's weaker one |
| TurnPlanner.PlanPairsSpans | herdres_connector/rich_delivery.py:649-685 | part i takes the i-th span of each field, and the spans are the splitters' own |
| TurnPlanner.WholeExactlyIfShort | herdres_connector/rich_delivery.py:806-824 | a short turn that fits goes out as one whole part, any other is planned from the source limit on |
| TurnPlanner.FirstFitting | herdres_connector/rich_delivery.py:826-857 | the plan is that of the first limit, halved from the source limit, at which every part fits |
| TurnPlanner.ExecutedPartIsSound | herdres_connector/source_sync.py:11718-11745 | the executor plans the turn again; whatever the turn has become, what it executes has the stored spans, passes its recheck and is not rejected |
| TurnPlanner.StoredPartsAreExecuted | herdres_connector/source_sync.py:11718-11745 | as long as the turn renders as it did, every stored part is executed as planned |
| TurnPlanner.GivesUpExactly | herdres_connector/rich_delivery.py:842-857 | the planner raises exactly if no limit it tries makes every part fit |
| TurnPlanner.MaterializeTurnDeliveryPart | herdres_connector/rich_delivery.py:688-753 | exactly the well-formed parts are materialised, with the specified fragments |
| TurnPlanner.PartStartsWithHeader | herdres_connector/rich_delivery.py:721-745 | a part that starts among a table's data rows begins with that table's header if it fits, any other with its own text |
| TurnPlanner.PlanRestoresFields | herdres_connector/rich_delivery.py:688-753 | no planned part is rejected, and the materialised parts spell both fields once repeated headers are removed |
| WriteBudget.TelegramClient.SendMessage | herdres_connector/telegram_delivery.py:189-343 | the calls made and the reply are exactly those of the send: chunks or variants in order, stopping at the first failure or success |
| WriteBudget.TelegramClient.SendRichMessage | herdres_connector/rich_delivery.py:1080-1225 | the calls made and the reply are exactly those of the ladder: the rich attempt, and the fallback only after a refusal that was definite |
| WriteBudget.RichIsReliable | herdres_connector/rich_delivery.py:1080-1225 | for every such log the reported writes are the calls made, but for two refusals made without one, and stay within the allowance |
| WriteBudget.AmbiguousRichEndsSend | herdres_connector/rich_delivery.py:1160-1170 | nothing is sent after a rich message refused as transient, or for bot access under a token: that refusal is the whole reply |
| WriteBudget.RefusedRichFallsBack | herdres_connector/rich_delivery.py:1160-1225 | any other refusal of a rich message is followed by the fallback if the allowance holds it |
| WriteBudget.AcceptedEndsSend | herdres_connector/telegram_delivery.py:189-343 | nothing is sent after an accepted call outside a split message, and nothing after a rate limit |
| WriteBudget.FormatsInOrder | herdres_connector/telegram_delivery.py:258-343 | HTML first, each variant once, plain text last and only if it differs |
| FeedDelivery.FeedSender.SendFeedItem | herdres_connector/rich_delivery.py:1459-1614 | on every normal return: calls <= reported writes <= allowance, parts in order, each with exactly the calls of its send, none after the first failure; a failure names the first undelivered part exactly if a part was delivered before it, the budget was gone, or a resumed delivery had one part left |
| FeedDelivery.AmbiguousCallEndsPart | herdres_connector/rich_delivery.py:1160-1170 | inside one part no call follows a rich message that may have arrived, and the part fails with an unknown outcome |
| FeedDelivery.ResumableExactly | herdres_connector/source_sync.py:2576-2610 | a failed delivery continues where it stopped if and only if it was no retry and delivered nothing, so that it starts over, or it names the part that failed and that part was definitely not delivered |
| FeedDelivery.AmbiguousSuffixIsHeld | herdres_connector/rich_delivery.py:963-982 | after an accepted part, one refused for a reason that may be the network's is never resumed |
| FeedDelivery.AmbiguousPartRepeats | herdres_connector/source_sync.py:8567-8595 | in any chain of deliveries a part that may have been delivered is attempted again only if it is the first part of a delivery that was no retry |
| FeedDelivery.ResumedDeliversOnce | herdres_connector/rich_delivery.py:1480-1592 | however often a delivery fails and is resumed where it may be, the delivered parts are consecutive, each once, in order; a final success delivers all |
| TailWindow.JsonlTailLines | herdr_turn_adapter.py:273-315 | the doubling window terminates for a positive cap and returns a suffix of the file's lines that starts a turn and holds enough ends or all that may be read; none means no start even at the ceiling; and no more is read than the cap or twice a window that was lacking |
| TailWindow.OpenJsonlTail | herdr_turn_adapter.py:319-351 | the parser gets the whole file or such a tail |
| TailWindow.WindowGrows | herdr_turn_adapter.py:310-315 | a positive window below its ceiling grows; an empty one never does |
| TailWindow.EnoughEnds | herdr_turn_adapter.py:282-288 | if starts and ends alternate, a window accepted for one end more than wanted keeps the wanted number after its first start |
| TailWindow.RecentExact | herdr_turn_adapter.py:1466-1466 | however many turns are shown, turns before a tail are invisible exactly if the tail has enough of its own, or there are none |
| TailParser.StartResynchronises | herdr_turn_adapter.py:330-333 | a parser that resets at starts completes the same turns and reaches the same state from any two states on lines that begin with one |
| TailParser.TailExact | herdr_turn_adapter.py:330-333 | for such a parser a tail exposes the turns of the whole file if and only if the part left out completed none or the tail completed as many as are exposed |
| TailParser.AcceptedTailIsExact | herdr_turn_adapter.py:273-333 | a tail accepted for its ends exposes exactly the turns of the whole file, when markers alternate and every end completes a turn |
| CodexTranscript.ExtractCodexTurn | herdr_turn_adapter.py:1385-1499 | the parsing loop computes the view and model that CodexContents reads off the log |
| CodexTranscript.TaskStartResets | herdr_turn_adapter.py:1407-1414 | from any two states, lines that begin with a turn start complete the same turns and reach the same state but the model |
| CodexTranscript.ModelFromTail | herdr_turn_adapter.py:1402-1406 | the model is missed only if no line of the tail names one |
| CodexTranscript.TailViewExact | herdr_turn_adapter.py:1465-1492 | the tail's view is the full view if and only if nothing completed before it or it completed as many turns as are exposed |
| CodexTranscript.AcceptedViewIsExact | herdr_turn_adapter.py:273-333 | with alternating markers and ends that all complete a turn, the accepted tail shows what the whole file shows |
| CodexTranscript.SilentEndsHideTurns | herdr_turn_adapter.py:1436-1461 | completions without a prompt, one more than is shown, satisfy the window and hide the file's only turn |
| CodexContents.ViewFromLog | herdr_turn_adapter.py:1385-1499 | what the parser reports, from the log alone: the recent ones of the turns its completions make, the open turn, and the last model named |
| CodexContents.CompletedTurnSays | herdr_turn_adapter.py:1436-1461 | every completed turn has the last prompt since its turn start, its completion's time, and the completion's own message or else the last assistant message since that start |
| KimiTranscript.ExtractKimiTurn | herdr_turn_adapter.py:2022-2128 | the parsing loop computes the view that KimiContents reads off the log |
| KimiTranscript.PromptResets | herdr_turn_adapter.py:2036-2058 | a user prompt resets the parser completely |
| KimiTranscript.TailViewExact | herdr_turn_adapter.py:2106-2128 | the same exact condition for the tail's view |
| KimiTranscript.AcceptedViewIsExact | herdr_turn_adapter.py:273-333 | the accepted tail is exact under the same two premises |
| KimiContents.ViewFromLog | herdr_turn_adapter.py:2022-2128 | what the parser reports, from the log alone: the recent turns and the open prompt with what was last seen of it |
| KimiContents.CompletedTurnSays | herdr_turn_adapter.py:2059-2105 | every completed turn has a usable prompt with its steers, and the joined text of the step whose end completed it, nothing blank |
| ClaudeTranscript.ClaudeParser.Extract | herdr_turn_adapter.py:1515-1678 | the parsing loop computes the turns that ClaudeContents reads off the log, and the state |
| ClaudeTranscript.CompletedTurnsAreDistinctPrompts | herdr_turn_adapter.py:1516-1678 | with distinct user uuids the completed turns belong to distinct user events in log order, and a done turn has a prompt unless a compaction summary opened it |
| ClaudeTranscript.EndTurnsCoalesce | herdr_turn_adapter.py:1655-1660 | a second end-turn under the same prompt replaces the first |
| ClaudeTranscript.CompactionDropsSecondReply | herdr_turn_adapter.py:1631-1666 | under a compaction summary the second end-turn is lost |
| ClaudeTranscript.CompactionLogDropsReply | herdr_turn_adapter.py:1631-1666 | a whole log on which that happens |
| ClaudeTranscript.TailExactlyIfClean | herdr_turn_adapter.py:1516-1678 | with distinct uuids, for every cut of every log: the full read completes what it had before the cut and then what the tail completes alone, if and only if no record was pending, or it was answered and is not answered differently, or nothing answers or interrupts it before a record takes over |
| ClaudeTranscript.PromptSynchronises | herdr_turn_adapter.py:330-333 | a tail with no end-turn and no counted interrupt before its first real prompt completes exactly the turns the full read completes after its earlier ones |
| ClaudeTranscript.OnlyQuietTailsAreExact | herdr_turn_adapter.py:363-368 | and only such a tail is safe after every log: one prompt before any other tail makes it lose or invent a turn |
| ClaudeTranscript.EnoughTurnsHideTheCut | herdr_turn_adapter.py:330-333 | whatever comes first, a tail that completes enough turns from its first real prompt on shows what the full read shows |
| ClaudeTranscript.UncleanViewExactly | herdr_turn_adapter.py:1703-1709 | after any other cut the tail shows what the full read shows if and only if it completes as many turns as are shown after the record pending at the cut is settled |
| ClaudeTranscript.InternalStartLosesTurn | herdr_turn_adapter.py:363-368 | a tail that starts at an internal user record loses the turn the full read completes |
| ClaudeContents.TurnsFromLog | herdr_turn_adapter.py:1515-1678 | with distinct uuids, the completed turns from the log alone: the replies and interrupts of the record in force, a second reply in the place of the first |
| ClaudeContents.CompletedTurnSays | herdr_turn_adapter.py:1631-1678 | every completed turn quotes the record it belongs to and has the text and time of the event that ended it, or the interim text of an interrupted one |
| HtmlSanitizer.Sanitizer.HandleEndTag | herdres_connector/rendering.py:149-164 | the closing loop pops and writes exactly through the named tag |
| HtmlSanitizer.OutputIsWellNested | herdres_connector/rendering.py:58-181 | for any event sequence the finished output is a well-nested word of allowed tags with only code inside pre, links have an accepted destination, and no text is markup |
| HtmlSanitizer.TextSurvives | herdres_connector/rendering.py:166-173 | everything reported as text is written, escaped, in order |
| HtmlSanitizer.AllowedMarkupIsKept | herdres_connector/rendering.py:58-181 | a well-nested word of allowed tags comes out token by token unchanged |
| HtmlSanitizer.EndTagClosesExactly | herdres_connector/rendering.py:149-164 | a misnested end tag closes everything from the innermost open tag of its name on and nothing below it; any other leaves the tags alone |
| HtmlSanitizer.AnchorExactly | herdres_connector/rendering.py:92-118 | an anchor is kept exactly if its first href with a value is nonempty and accepted |
| HtmlSanitizer.OtherTagsAreStripped | herdres_connector/rendering.py:88-127 | any other allowed tag loses its attributes but the mark of an expandable quote |
| HtmlSanitizer.SelfClosing | herdres_connector/rendering.py:138-147 | a self-closing tag leaves open what was open, but an unaccepted self-closing anchor closes the link around it |
| HtmlSanitizer.BreaksStartLines | herdres_connector/rendering.py:75-77 | a break, or the end of an unwrapped block, starts a new line and never makes an empty one |
| HtmlSanitizer.PreKeepsTagsAsText | herdres_connector/rendering.py:85-91 | inside pre any tag but code is kept as text |
| HtmlSanitizer.RowIsJoined | herdres_connector/rendering.py:128-136 | the cells of a table row become one line with the canonical separator |
| Chars.EscapeIsLossless | herdres_connector/rendering.py:166-173 | escaping can be undone: the escaped text has one reading, the text |
| InlineLinks.ReplaceInlineLinks | herdres_connector/rich_delivery.py:106-236 | pieces cover the text, each is the link that starts there or exactly what the rejected candidate consumes, and all loops together make at most twice as many rounds as there are characters |
| InlineLinks.LinkReplacedExactly | herdres_connector/rich_delivery.py:115-117 | a valid link is replaced if and only if no earlier candidate, rejected or accepted, consumed its start |
| InlineLinks.LinkRoundTrip | herdres_connector/rich_delivery.py:106-236 | any caption and destination written as a link, anywhere and whatever follows, is read back as just that link if the destination is accepted, is copied whole if not, and is no link behind an image mark |
| InlineLinks.OpenLabelHidesNothing | herdres_connector/rich_delivery.py:130-172 | a label that is not closed hides no later bracket |
| InlineLinks.ScanDestination | herdres_connector/rich_delivery.py:179-215 | the destination scan finds the closing parenthesis, resolves escapes and reports every rule broken |
| InlineLinks.CoveringIsLossless | herdres_connector/rich_delivery.py:120-236 | the source slices of the pieces spell the text |
| InlineLinks.DestinationsBalance | herdres_connector/rich_delivery.py:111-113 | the unescaped parentheses of a destination balance |

## Assumptions

- Times are real numbers; rounding and clock steps backwards are not modelled
  (the steps of the command path read their clock under the state lock, so it is
  nondecreasing along a run; the spool's transactions need not be in clock order).
- JSON text is a canonical encoding of a request or some other bytes; the canonical
  encoding is injective. Hashes (request keys, lane keys) are taken as injective.
- The sanitizer is a parameter. Nothing is assumed of it but that it leaves the
  program's own short texts alone; idempotence is never assumed.
- Each dictionary is a list in insertion order, with Python's dynamic type checks
  folded into the types. A spool row's `seq` is its position: rows are never deleted.
- Tendwire, Telegram, routing, previews and table recognition are arbitrary
  functions or arbitrary answers.
- `HERDRES_RECENT_TURNS` is any natural number; as in the slice that uses it, zero
  shows every turn.
- Recovery: every receipt in the ledger has a revision and a bot kind that a
  reservation accepts (`SoundLedger`), and a replacement token names nothing in the
  ledger yet (`Unused`); the theorems that need this say so.
- Source sync reports a linked submission only with its turn.
- A file's bytes are characters; newline bytes never occur inside a UTF-8 sequence.

## Left out

- CommandSafety.WriteOnce: holds within a retention period; any command that starts after `retain_until` opens the next one, however short its RPCs are, and PruningReplacesOutcome says what becomes of the outcome.
- LaneFifo.NotificationClaimedOnce: assumes that no settlement writes the state "pending" back; the spool would accept it, and the gateway, its only caller, writes "sent" or nothing (`herdres_gateway.py:1583`).
- RecoveryChain.ChainKeepsParts: the part count is not in the audit, so this one conclusion needs the rest of the program to move bound plans unchanged.
- FeedDelivery.ResumedDeliversOnce: counts a part as delivered when its send reports success; a part whose split fallback failed halfway is sent again as a whole, and a rate limit that escapes as an exception reports no part at all.
- IngressCommand.Submission.Submit: what other processes store between a send and its reload is an input, not a second running process; the interleavings are in CommandProtocol.
- LanePoll.PollOnce: the loop runs by itself; the poll among all other transactions is LanePoll.InterleavedPoll.
- Dispatcher.SlotsConserved: threads, timeouts, wake-ups, heartbeats and the stop sentinel are not modelled; between `put_nowait` and the clearing of the slot flag only the clock is read.
- The working card sent after an accepted receipt, instant acknowledgements and success replies: presentation beside the lifecycle.
- The partial-final record that a recovery marks as authorised, and the pending start time it writes.
- `edit_message`, `edit_rich_message` and the outbox drain: the same accounting as the send ladders.
- The snapshot's names of the first stalled and first retrying lane, and its ages.
- Version 1 records beyond their fields' validation; schema migrations of the spool table.
- Open-turn fields, decisions and API-error fields of the Claude result; the Devin parser.
- Text-mode newline translation of a lone carriage return when a transcript is read whole: a JSON line holds none.
- HTML rendering of Markdown: the planner only sees whether a part fits its bounds.
- Configuration clamps, account and quota footers, speech, pinned boards, decisions, plugin installation, key-file checks.
