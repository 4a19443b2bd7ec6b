/**
  Durable lifecycle records of mutating ingress requests: the record and child
  shapes, their validators, and one function per transition.  A transition that
  raises says so and still gives the record as the exception leaves it.

  `fix` stands for `sanitize_text(., 160)` throughout.  It need not be
  idempotent; where that matters the contracts say so with `Settled`.
 */
module IngressRecords {
  import opened Chars
  import opened Options

  type Sanitizer = string -> string

  datatype RecordState = Resolving | Retryable | Terminal | Quarantined

  datatype Transport =
    | NoReceipt | InProgress | TerminalAccepted | TerminalRejected | TerminalUncertain
    | WrittenToPty | Submitted | PromptNotReceived | PromptUnsubmitted | PromptStalled | InputPending

  datatype Phase = PhaseResolving | Ready | PhaseRetryable | RetryAuthorized | AcceptedUnverified | Queued | PhaseTerminal

  datatype Verdict = Delivered | NotDelivered | DeliveryUnknown

  datatype Checkpoint = RetryUpdate | HoldUpdate | AdvanceUpdate

  datatype Child = Child(
    handled: bool, requestId: string, checkpoint: Checkpoint, transport: Option<Transport>,
    phase: Phase, verdict: Option<Verdict>, reply: string)

  datatype Target =
    | Worker(workerId: string, fingerprint: Option<string>)
    | Space(spaceId: string)
    | Named(name: string, inSpace: Option<string>)

  datatype Request = Request(requestId: string, target: Target, text: string, responseV3: bool)

  /** A stored request string: the (injective) canonical encoding of a request, or any other bytes. */
  datatype RequestJson = Canonical(request: Request) | OtherBytes(bytes: string)

  datatype Owner = Owner(stableKey: string, version: int)

  datatype SubmissionState = PendingObservation | Observed | Complete | Linked

  datatype Comparison = Match | Different | Unreadable

  datatype ProviderVerdict = VerdictNotReceived | VerdictUnsubmitted | VerdictStalled | VerdictWritten

  datatype Witness = Witness(
    promptFingerprint: string, composerFingerprint: Option<string>, comparison: Comparison,
    verdict: ProviderVerdict, ownerGeneration: Option<string>, observedAt: real, automatic: bool)

  datatype Record = Record(
    requestId: string, createdAt: real, updatedAt: real, deadlineAt: real, retainUntil: real,
    state: RecordState, requestJson: Option<RequestJson>,
    transport: Option<Transport>, phase: Phase, verdict: Option<Verdict>,
    checkpointAlreadyAdvanced: bool, attention: bool,
    blockedReason: Option<string>, nextAction: Option<string>, dedupWitness: Option<Witness>,
    staleTargetRefreshed: bool,
    terminalAt: Option<real>, quarantinedAt: Option<real>, quarantineReason: Option<string>,
    outcome: Option<Child>,
    submissionId: Option<string>, submissionState: Option<SubmissionState>, turnId: Option<string>,
    targetOwner: Option<Owner>, submittedAt: Option<real>, linkedAt: Option<real>)

  // ----- fixed public texts -------------------------------------------------------

  const QUARANTINE_REPLY := "Could not send safely. Refresh status and choose the target again."
  const TRUTH_UNAVAILABLE := "delivery truth unavailable"
  const NOT_DELIVERED := "request was not delivered"
  const INSPECT_EVIDENCE := "inspect ingress evidence and resolve manually"
  const REVIEW_FAILURE := "review the failure before requesting a retry"
  const UNVERIFIED := "transport accepted but submission was not verified"
  const INSPECT_COMPOSER := "inspect the composer before any replay"
  const PROVIDER_REJECTED := "provider rejected the instruction"
  const REVIEW_REJECTION := "review the rejection before requesting a retry"
  const COMPOSER_UNREADABLE := "composer could not be read"
  const INSPECT_PANE := "inspect the pane before any replay"
  const HISTORICAL_ACTION := "inspect historical ingress evidence"
  const HISTORICAL_UNVERIFIED := "historical_terminal_accepted_unverified"
  const HISTORICAL_REJECTION := "historical_provider_rejection"
  const HISTORICAL_UNKNOWN := "historical_delivery_truth_unrecoverable"

  /** The sanitizer leaves the program's own short texts alone. */
  ghost predicate Sane(fix: Sanitizer) {
    forall text | text in {"", QUARANTINE_REPLY, TRUTH_UNAVAILABLE, NOT_DELIVERED, INSPECT_EVIDENCE, REVIEW_FAILURE,
                           UNVERIFIED, INSPECT_COMPOSER, PROVIDER_REJECTED, REVIEW_REJECTION, COMPOSER_UNREADABLE,
                           INSPECT_PANE, HISTORICAL_ACTION, HISTORICAL_UNVERIFIED, HISTORICAL_REJECTION,
                           HISTORICAL_UNKNOWN} :: fix(text) == text
  }

  /** One sanitizing pass reaches a fixpoint on this text. */
  predicate Settled(fix: Sanitizer, text: string) { fix(fix(text)) == fix(text) }

  // ----- validators -----------------------------------------------------------------

  /** 43 URL-safe base64 digits of a 32-byte digest, so the last digit has no spare bits. */
  predicate ValidRequestId(id: string) {
    && |id| == 48 && id[..5] == "hri1_"
    && (forall i | 5 <= i < 48 :: 'A' <= id[i] <= 'Z' || 'a' <= id[i] <= 'z' || '0' <= id[i] <= '9' || id[i] == '-' || id[i] == '_')
    && id[47] in "AEIMQUYcgkosw048"
  }

  predicate ValidCommandRequest(request: Request) {
    && ValidRequestId(request.requestId) && request.text != ""
    && match request.target
       case Worker(id, mark) => NonBlank(id) && (mark.Some? ==> NonBlank(mark.value))
       case Space(id) => NonBlank(id)
       case Named(name, space) => NonBlank(name) && (space.Some? ==> NonBlank(space.value))
  }

  function RequestIdOf(json: RequestJson): Option<string> {
    if json.Canonical? && ValidCommandRequest(json.request) then Some(json.request.requestId) else None
  }

  predicate ValidOwner(owner: Owner) {
    && |owner.stableKey| == 69 && owner.stableKey[..5] == "wsk1_" && owner.version == 1
    && forall i | 5 <= i < 69 :: '0' <= owner.stableKey[i] <= '9' || 'a' <= owner.stableKey[i] <= 'f'
  }

  predicate Stamp(t: Option<real>) { t.Some? && t.value >= 0.0 }

  predicate ValidSubmission(r: Record) {
    && (r.targetOwner.Some? ==> ValidOwner(r.targetOwner.value))
    && if r.submissionId.None? then
         r.submissionState.None? && r.turnId.None? && r.submittedAt.None? && r.linkedAt.None?
       else
         && NonBlank(r.submissionId.value) && |r.submissionId.value| <= 200
         && r.submissionState.Some?
         && (r.turnId.Some? ==> NonBlank(r.turnId.value))
         && r.targetOwner.Some?
         && Stamp(r.submittedAt) && r.createdAt <= r.submittedAt.value <= r.updatedAt
         && (r.submissionState == Some(Linked) ==> r.turnId.Some?)
         && if r.turnId.None? then r.linkedAt.None?
            else Stamp(r.linkedAt) && r.submittedAt.value <= r.linkedAt.value <= r.updatedAt
  }

  predicate ShortText(text: string) { 0 < |text| <= 200 }

  predicate ValidWitness(w: Witness) {
    && ShortText(w.promptFingerprint)
    && (w.composerFingerprint.Some? ==> ShortText(w.composerFingerprint.value))
    && (w.ownerGeneration.Some? ==> ShortText(w.ownerGeneration.value))
    && w.observedAt >= 0.0
    && if w.comparison == Unreadable then w.composerFingerprint.None? && !w.automatic
       else
         && w.composerFingerprint.Some?
         && (w.comparison == Match <==> w.composerFingerprint.value == w.promptFingerprint)
         && (w.automatic ==> w.verdict == VerdictNotReceived && w.comparison == Different)
  }

  predicate Persisted(t: Option<Transport>) { t != Some(TerminalAccepted) }

  /** Which transport facts may justify a verdict. */
  predicate TransportProves(v: Verdict, t: Option<Transport>) {
    match v
    case Delivered => t == Some(Submitted)
    case NotDelivered => t in {None, Some(NoReceipt), Some(TerminalRejected), Some(PromptNotReceived),
                               Some(PromptUnsubmitted), Some(InputPending)}
    case DeliveryUnknown => t in {None, Some(WrittenToPty), Some(TerminalUncertain), Some(PromptStalled)}
  }

  predicate PhaseAllows(v: Verdict, p: Phase) {
    p == PhaseTerminal || (v == DeliveryUnknown && p in {AcceptedUnverified, Queued})
  }

  predicate ValidChild(fix: Sanitizer, c: Child, id: string) {
    && c.requestId == id && c.checkpoint != RetryUpdate && Persisted(c.transport)
    && c.verdict.Some? && fix(c.reply) == c.reply
    && (c.checkpoint == AdvanceUpdate <==> c.verdict == Some(Delivered))
    && TransportProves(c.verdict.value, c.transport) && PhaseAllows(c.verdict.value, c.phase)
    && (!c.handled ==> c.transport.None? && c.reply == "")
  }

  predicate FixedText(fix: Sanitizer, text: Option<string>) {
    text.Some? ==> text.value != "" && fix(text.value) == text.value
  }

  predicate AutomaticWitness(r: Record) { r.dedupWitness.Some? && r.dedupWitness.value.automatic }

  predicate RetryTransport(t: Option<Transport>) { t in {None, Some(NoReceipt), Some(InProgress)} }

  predicate OpenRecord(r: Record) {
    && r.verdict.None? && !r.checkpointAlreadyAdvanced && !r.attention
    && r.blockedReason.None? && r.nextAction.None? && r.terminalAt.None?
    && r.quarantinedAt.None? && r.quarantineReason.None? && r.outcome.None?
  }

  predicate ValidRecord(fix: Sanitizer, r: Record, id: string) {
    && r.requestId == id
    && 0.0 <= r.createdAt <= r.updatedAt && r.createdAt < r.deadlineAt < r.retainUntil
    && Persisted(r.transport)
    && FixedText(fix, r.blockedReason) && FixedText(fix, r.nextAction)
    && (r.dedupWitness.Some? ==> ValidWitness(r.dedupWitness.value))
    && ValidSubmission(r)
    && (r.requestJson.Some? ==> RequestIdOf(r.requestJson.value) == Some(id))
    && (r.staleTargetRefreshed ==> r.requestJson.Some?)
    && !(r.verdict == Some(DeliveryUnknown) && AutomaticWitness(r))
    && (if r.verdict == Some(NotDelivered) || r.verdict == Some(DeliveryUnknown)
        then r.attention && r.blockedReason.Some? && r.nextAction.Some? else !r.attention)
    && match r.state
       case Resolving =>
         && r.requestJson.None? && r.updatedAt == r.createdAt && r.transport.None?
         && r.phase == PhaseResolving && r.dedupWitness.None? && !r.staleTargetRefreshed && OpenRecord(r)
       case Retryable =>
         && r.requestJson.Some? && RetryTransport(r.transport)
         && r.phase in {Ready, PhaseRetryable, RetryAuthorized} && OpenRecord(r)
       case Terminal =>
         && ValidOutcome(fix, r, id) && r.requestJson.Some?
         && r.quarantinedAt.None? && r.quarantineReason.None?
       case Quarantined =>
         && ValidOutcome(fix, r, id) && (r.requestJson.Some? || r.transport.None?)
         && r.quarantinedAt == Some(r.updatedAt)
         && r.quarantineReason.Some? && r.quarantineReason.value != ""
  }

  predicate ValidOutcome(fix: Sanitizer, r: Record, id: string) {
    && Stamp(r.terminalAt) && r.terminalAt.value <= r.updatedAt
    && r.outcome.Some? && ValidChild(fix, r.outcome.value, id)
    && r.outcome.value.transport == r.transport
    && r.outcome.value.phase == r.phase && r.outcome.value.verdict == r.verdict
  }

  predicate Closed(r: Record) { r.state == Terminal || r.state == Quarantined }

  // ----- transitions ------------------------------------------------------------------

  /** The record after the call, and the call's value unless it raised. */
  datatype Effect<T> = Returned(record: Record, value: T) | Raised(record: Record)

  function Normalize(t: Option<Transport>): Option<Transport> {
    if t == Some(TerminalAccepted) then Some(WrittenToPty) else t
  }

  function ChildResult(fix: Sanitizer, id: string, checkpoint: Checkpoint, transport: Option<Transport>,
                       phase: Phase, verdict: Option<Verdict>, reply: string, handled: bool): Option<Child>
  {
    var t := Normalize(transport);
    if !ValidRequestId(id) then None
    else if checkpoint == RetryUpdate then
      if !handled || !RetryTransport(t) || phase !in {Ready, PhaseRetryable, RetryAuthorized} || verdict.Some?
      then None else Some(Child(handled, id, checkpoint, t, phase, verdict, fix("")))
    else if checkpoint == AdvanceUpdate then
      if verdict != Some(Delivered) || phase != PhaseTerminal || t != Some(Submitted)
      then None else Some(Child(handled, id, checkpoint, t, phase, verdict, fix(reply)))
    else
      if verdict.None? || verdict == Some(Delivered) || !TransportProves(verdict.value, t)
         || !PhaseAllows(verdict.value, phase) || (!handled && (t.Some? || reply != ""))
      then None else Some(Child(handled, id, checkpoint, t, phase, verdict, fix(reply)))
  }

  function OrElse(text: string, fallback: string): string { if text != "" then text else fallback }

  function QuarantineRequest(fix: Sanitizer, r: Record, reason: string, now: real,
                             disposition: Option<Transport>, reply: string, handled: bool): Effect<Child>
  {
    var verdict := if disposition == Some(TerminalUncertain) then DeliveryUnknown else NotDelivered;
    var child := ChildResult(fix, r.requestId, HoldUpdate, disposition, PhaseTerminal, Some(verdict), reply, handled);
    if disposition !in {None, Some(TerminalUncertain)} || now < 0.0 || child.None? then Raised(r)
    else
      var blocked := OrElse(fix(reason), if verdict == DeliveryUnknown then TRUTH_UNAVAILABLE else NOT_DELIVERED);
      Returned(
        r.(state := Quarantined, updatedAt := now, transport := disposition, phase := PhaseTerminal,
           verdict := Some(verdict), checkpointAlreadyAdvanced := false, attention := true,
           blockedReason := Some(blocked),
           nextAction := Some(if verdict == DeliveryUnknown then INSPECT_EVIDENCE else REVIEW_FAILURE),
           terminalAt := Some(now), quarantinedAt := Some(now), quarantineReason := Some(blocked),
           outcome := child),
        child.value)
  }

  function NewRecord(id: string, now: real, horizon: real, retention: real): Option<Record> {
    if now < 0.0 || horizon <= 0.0 || retention <= horizon || !ValidRequestId(id) then None
    else Some(Record(id, now, now, now + horizon, now + retention, Resolving, None, None, PhaseResolving, None,
                     false, false, None, None, None, false, None, None, None, None, None, None, None, None, None, None))
  }

  function AttachRequestJson(r: Record, json: RequestJson, now: real): Effect<bool> {
    if !ValidRequestId(r.requestId) || RequestIdOf(json) != Some(r.requestId) then Raised(r)
    else if r.requestJson.Some? then
      if r.requestJson.value != json then Raised(r) else Returned(r, false)
    else if r.state != Resolving || now < 0.0 then Raised(r)
    else Returned(r.(requestJson := Some(json), state := Retryable, phase := Ready, updatedAt := now), true)
  }

  function MarkRetryable(fix: Sanitizer, r: Record, disposition: Option<Transport>, now: real): Effect<Child> {
    if !RetryTransport(disposition) || r.requestJson.None? || now < 0.0 then Raised(r)
    else
      var r' := r.(state := Retryable, updatedAt := now, transport := disposition, phase := PhaseRetryable,
                   verdict := None, checkpointAlreadyAdvanced := false, attention := false,
                   blockedReason := None, nextAction := None, terminalAt := None,
                   quarantinedAt := None, quarantineReason := None, outcome := None);
      var child := ChildResult(fix, r.requestId, RetryUpdate, disposition, PhaseRetryable, None, "", true);
      if child.None? then Raised(r') else Returned(r', child.value)
  }

  function RecordTerminalOutcome(fix: Sanitizer, r: Record, transport: Option<Transport>, phase: Phase,
                                 verdict: Verdict, now: real, reply: string, blockedReason: string,
                                 nextAction: string, handled: bool): Effect<Child>
  {
    var t := Normalize(transport);
    var delivered := verdict == Delivered;
    var child := ChildResult(fix, r.requestId, if delivered then AdvanceUpdate else HoldUpdate, t, phase, Some(verdict),
                             if delivered then reply else "", handled);
    if !TransportProves(verdict, t) || r.requestJson.None? || now < 0.0 || !PhaseAllows(verdict, phase) || child.None?
    then Raised(r)
    else
      var unknown := verdict == DeliveryUnknown;
      Returned(
        r.(state := Terminal, updatedAt := now, transport := t, phase := phase, verdict := Some(verdict),
           checkpointAlreadyAdvanced := false, attention := !delivered,
           blockedReason := if delivered then None
             else Some(OrElse(fix(blockedReason), if unknown then TRUTH_UNAVAILABLE else NOT_DELIVERED)),
           nextAction := if delivered then None
             else Some(OrElse(fix(nextAction), if unknown then INSPECT_EVIDENCE else REVIEW_FAILURE)),
           terminalAt := Some(now), quarantinedAt := None, quarantineReason := None, outcome := child),
        child.value)
  }

  function MarkTerminal(fix: Sanitizer, r: Record, disposition: Transport, now: real): Effect<Child> {
    if disposition == TerminalAccepted then
      RecordTerminalOutcome(fix, r, Some(WrittenToPty), AcceptedUnverified, DeliveryUnknown, now, "",
                            UNVERIFIED, INSPECT_COMPOSER, true)
    else if disposition == TerminalRejected then
      RecordTerminalOutcome(fix, r, Some(TerminalRejected), PhaseTerminal, NotDelivered, now, "",
                            PROVIDER_REJECTED, REVIEW_REJECTION, true)
    else Raised(r)
  }

  function AttachTargetOwner(r: Record, owner: Owner, now: real): Effect<bool> {
    if !ValidOwner(owner) then Raised(r)
    else if r.targetOwner.Some? then
      if r.targetOwner.value != owner then Raised(r) else Returned(r, false)
    else if now < 0.0 then Raised(r)
    else Returned(r.(targetOwner := Some(owner), updatedAt := now), true)
  }

  /** A receipt as the response carries it; `state` is None for a spelling that is no submission state. */
  datatype Receipt = Receipt(submissionId: string, state: Option<SubmissionState>, turnId: Option<string>)

  predicate AcceptableReceipt(r: Record, receipt: Receipt, now: real) {
    && now >= 0.0 && NonBlank(receipt.submissionId) && |receipt.submissionId| <= 200 && receipt.state.Some?
    && (receipt.turnId.Some? ==> NonBlank(receipt.turnId.value))
    && r.targetOwner.Some? && ValidOwner(r.targetOwner.value)
    && (r.submissionId.Some? ==> r.submissionId.value == receipt.submissionId)
    && (r.turnId.Some? && receipt.turnId.Some? ==> r.turnId == receipt.turnId)
  }

  /** Raises late: a linked receipt without any turn id is rejected after the record was changed. */
  function AttachSubmissionReceipt(r: Record, receipt: Receipt, now: real): Effect<bool> {
    if !AcceptableReceipt(r, receipt, now) then Raised(r)
    else
      var r1 := r.(submissionId := Some(receipt.submissionId), submissionState := receipt.state,
                   turnId := if receipt.turnId.Some? then receipt.turnId else r.turnId,
                   submittedAt := if r.submittedAt.None? then Some(now) else r.submittedAt);
      if receipt.state == Some(Linked) && r1.turnId.None? then Raised(r1)
      else
        var r2 := if r1.turnId.Some? && r1.linkedAt.None? then r1.(linkedAt := Some(now)) else r1;
        if r2 == r then Returned(r, false) else Returned(r2.(updatedAt := now), true)
  }

  /** The one byte rewrite: drop `target.worker_fingerprint`. */
  function WithoutFingerprint(json: RequestJson): RequestJson
    requires json.Canonical? && json.request.target.Worker?
  {
    Canonical(json.request.(target := json.request.target.(fingerprint := None)))
  }

  predicate HasFingerprint(json: RequestJson) {
    json.Canonical? && json.request.target.Worker? && json.request.target.fingerprint.Some?
  }

  function StaleTargetRefresh(r: Record, now: real): Effect<Option<RequestJson>> {
    if r.staleTargetRefreshed || r.requestJson.None? || !HasFingerprint(r.requestJson.value) then Returned(r, None)
    else if now < 0.0 || !ValidCommandRequest(WithoutFingerprint(r.requestJson.value).request) then Raised(r)
    else
      var refreshed := WithoutFingerprint(r.requestJson.value);
      Returned(r.(requestJson := Some(refreshed), staleTargetRefreshed := true, updatedAt := now,
                  transport := Some(NoReceipt), phase := PhaseRetryable),
               Some(refreshed))
  }

  function RecordDedupWitness(r: Record, prompt: string, composer: Option<string>, readable: bool,
                              verdict: ProviderVerdict, generation: Option<string>, now: real): Effect<bool>
  {
    var comparison := if composer.None? then Unreadable else if composer.value == prompt then Match else Different;
    var evidence := Witness(prompt, composer, comparison, verdict, generation, now,
                           verdict == VerdictNotReceived && comparison == Different && r.verdict != Some(DeliveryUnknown));
    if readable != composer.Some? || !ValidWitness(evidence) then Raised(r)
    else if r.dedupWitness == Some(evidence) then Returned(r, false)
    else
      var r1 := r.(dedupWitness := Some(evidence), updatedAt := now);
      Returned(if comparison != Unreadable then r1
               else r1.(attention := true, blockedReason := Some(COMPOSER_UNREADABLE), nextAction := Some(INSPECT_PANE)),
               true)
  }

  // ----- the gateway's own validator ---------------------------------------------------

  /** `_validated_child_response`: whether the gateway takes a child's answer verbatim. */
  predicate GatewayAccepts(fix: Sanitizer, c: Child, id: string) {
    && c.requestId == id && Persisted(c.transport) && fix(c.reply) == c.reply
    && if c.checkpoint == RetryUpdate then
         RetryTransport(c.transport) && c.verdict.None? && c.reply == ""
       else
         && (if c.checkpoint == AdvanceUpdate then
               c.verdict == Some(Delivered) && c.phase == PhaseTerminal && c.transport == Some(Submitted)
             else
               && c.verdict.Some? && c.verdict != Some(Delivered)
               && TransportProves(c.verdict.value, c.transport) && PhaseAllows(c.verdict.value, c.phase))
         && (!c.handled ==> c.transport.None? && c.reply == "")
  }
}
