/**
  Which transitions keep a record valid, exactly.  A transition that can break a
  record is given with the condition under which it does not, in both directions.
 */
module RecordValidity {
  import opened Options
  import opened IngressRecords

  /** The lifecycle bounds and the identity, which no transition may move. */
  predicate SameBounds(r: Record, r': Record) {
    && r'.requestId == r.requestId && r'.createdAt == r.createdAt
    && r'.deadlineAt == r.deadlineAt && r'.retainUntil == r.retainUntil
  }

  lemma Texts(fix: Sanitizer)
    requires Sane(fix)
    ensures fix("") == "" && fix(QUARANTINE_REPLY) == QUARANTINE_REPLY
    ensures fix(TRUTH_UNAVAILABLE) == TRUTH_UNAVAILABLE && fix(NOT_DELIVERED) == NOT_DELIVERED
    ensures fix(INSPECT_EVIDENCE) == INSPECT_EVIDENCE && fix(REVIEW_FAILURE) == REVIEW_FAILURE
    ensures fix(UNVERIFIED) == UNVERIFIED && fix(INSPECT_COMPOSER) == INSPECT_COMPOSER
    ensures fix(PROVIDER_REJECTED) == PROVIDER_REJECTED && fix(REVIEW_REJECTION) == REVIEW_REJECTION
    ensures fix(COMPOSER_UNREADABLE) == COMPOSER_UNREADABLE && fix(INSPECT_PANE) == INSPECT_PANE
    ensures fix(HISTORICAL_ACTION) == HISTORICAL_ACTION
    ensures fix(HISTORICAL_UNVERIFIED) == HISTORICAL_UNVERIFIED
    ensures fix(HISTORICAL_REJECTION) == HISTORICAL_REJECTION
    ensures fix(HISTORICAL_UNKNOWN) == HISTORICAL_UNKNOWN
  {
  }

  /** The part of validity that is about identity, times, bytes and submission. */
  predicate SoundBase(r: Record) {
    && 0.0 <= r.createdAt <= r.updatedAt && r.createdAt < r.deadlineAt < r.retainUntil
    && (r.dedupWitness.Some? ==> ValidWitness(r.dedupWitness.value))
    && ValidSubmission(r)
    && (r.requestJson.Some? ==> RequestIdOf(r.requestJson.value) == Some(r.requestId))
    && (r.staleTargetRefreshed ==> r.requestJson.Some?)
  }

  /** The part of validity that does not depend on the lifecycle survives a later `updated_at`. */
  lemma LaterBase(r: Record, r': Record)
    requires SameBounds(r, r') && r'.updatedAt >= r.updatedAt && r'.requestJson == r.requestJson
    requires r'.dedupWitness == r.dedupWitness && r'.staleTargetRefreshed == r.staleTargetRefreshed
    requires r'.submissionId == r.submissionId && r'.submissionState == r.submissionState && r'.turnId == r.turnId
    requires r'.submittedAt == r.submittedAt && r'.linkedAt == r.linkedAt && r'.targetOwner == r.targetOwner
    ensures SoundBase(r) ==> SoundBase(r')
  {
  }

  lemma LaterSubmission(r: Record, r': Record)
    requires r'.updatedAt >= r.updatedAt && r'.createdAt == r.createdAt && r'.targetOwner == r.targetOwner
    requires r'.submissionId == r.submissionId && r'.submissionState == r.submissionState && r'.turnId == r.turnId
    requires r'.submittedAt == r.submittedAt && r'.linkedAt == r.linkedAt
    ensures ValidSubmission(r) ==> ValidSubmission(r')
  {
  }

  lemma BaseOf(fix: Sanitizer, r: Record)
    ensures ValidRecord(fix, r, r.requestId) ==> SoundBase(r)
  {
  }

  /** What the attention flag and the operator texts must say. */
  predicate Attended(fix: Sanitizer, r: Record) {
    && FixedText(fix, r.blockedReason) && FixedText(fix, r.nextAction)
    && !(r.verdict == Some(DeliveryUnknown) && AutomaticWitness(r))
    && (if r.verdict == Some(NotDelivered) || r.verdict == Some(DeliveryUnknown)
        then r.attention && r.blockedReason.Some? && r.nextAction.Some? else !r.attention)
  }

  /** Validity of a closed or retryable record, beyond its base. */
  lemma LifecycleForm(fix: Sanitizer, r: Record)
    requires SoundBase(r) && r.state != Resolving
    ensures ValidRecord(fix, r, r.requestId) <==>
      && Persisted(r.transport) && Attended(fix, r)
      && if r.state == Retryable then
           r.requestJson.Some? && RetryTransport(r.transport) && r.phase in {Ready, PhaseRetryable, RetryAuthorized} && OpenRecord(r)
         else
           && ValidOutcome(fix, r, r.requestId)
           && if r.state == Terminal then r.requestJson.Some? && r.quarantinedAt.None? && r.quarantineReason.None?
              else (r.requestJson.Some? || r.transport.None?) && r.quarantinedAt == Some(r.updatedAt)
                   && r.quarantineReason.Some? && r.quarantineReason.value != ""
  {
    hide ValidSubmission, RequestIdOf, ValidWitness, ValidOutcome;
  }

  /** A fresh record is valid and still resolving. */
  lemma NewRecordValid(fix: Sanitizer, id: string, now: real, horizon: real, retention: real)
    ensures NewRecord(id, now, horizon, retention).Some? <==>
      now >= 0.0 && 0.0 < horizon < retention && ValidRequestId(id)
    ensures NewRecord(id, now, horizon, retention).Some? ==>
      ValidRecord(fix, NewRecord(id, now, horizon, retention).value, id)
  {
  }

  /** A fixed text built with a fallback is stored as a fixpoint exactly when its source settles. */
  lemma FallbackFixed(fix: Sanitizer, text: string, fallback: string)
    requires fix("") == "" && fix(fallback) == fallback && fallback != ""
    ensures FixedText(fix, Some(OrElse(fix(text), fallback))) <==> Settled(fix, text)
  {
  }

  /** Which held children exist, and when they are valid. */
  lemma HeldChild(fix: Sanitizer, id: string, transport: Option<Transport>, phase: Phase, verdict: Verdict, reply: string, handled: bool)
    requires ValidRequestId(id) && Persisted(transport) && verdict != Delivered && fix("") == ""
    ensures var child := ChildResult(fix, id, HoldUpdate, transport, phase, Some(verdict), reply, handled);
      && (child.Some? <==> TransportProves(verdict, transport) && PhaseAllows(verdict, phase)
                           && (handled || (transport.None? && reply == "")))
      && (child.Some? ==> child.value.transport == transport && child.value.phase == phase && child.value.verdict == Some(verdict)
                          && child.value.checkpoint == HoldUpdate
                          && (ValidChild(fix, child.value, id) <==> Settled(fix, reply)))
  {
  }

  /** A delivered child exists for one transport and phase only, and advances the cursor. */
  lemma AdvancingChild(fix: Sanitizer, id: string, transport: Option<Transport>, phase: Phase, reply: string, handled: bool)
    requires ValidRequestId(id) && Persisted(transport)
    ensures var child := ChildResult(fix, id, AdvanceUpdate, transport, phase, Some(Delivered), reply, handled);
      && (child.Some? <==> TransportProves(Delivered, transport) && PhaseAllows(Delivered, phase))
      && (child.Some? ==> child.value.transport == transport && child.value.phase == phase && child.value.verdict == Some(Delivered)
                          && child.value.checkpoint == AdvanceUpdate
                          && (ValidChild(fix, child.value, id) <==> Settled(fix, reply) && handled))
  {
  }

  /**
    Quarantine makes a record valid exactly when its two free texts settle, no
    standing replay authorization contradicts an unknown delivery, and a record
    without bytes is not given a transport fact.
   */
  lemma QuarantineValid(fix: Sanitizer, r: Record, reason: string, now: real,
                        disposition: Option<Transport>, reply: string, handled: bool)
    requires Sane(fix) && SoundBase(r) && ValidRequestId(r.requestId) && now >= r.updatedAt
    requires disposition in {None, Some(TerminalUncertain)}
    ensures var e := QuarantineRequest(fix, r, reason, now, disposition, reply, handled);
      && (e.Returned? <==> handled || (disposition.None? && reply == ""))
      && SameBounds(r, e.record)
      && (e.Raised? ==> e.record == r)
      && (e.Returned? ==>
            && e.record.state == Quarantined && e.record.outcome == Some(e.value)
            && (ValidRecord(fix, e.record, r.requestId) <==>
                  && Settled(fix, reason) && Settled(fix, reply)
                  && (disposition.Some? ==> r.requestJson.Some? && !AutomaticWitness(r))))
  {
    Texts(fix);
    var verdict := if disposition == Some(TerminalUncertain) then DeliveryUnknown else NotDelivered;
    HeldChild(fix, r.requestId, disposition, PhaseTerminal, verdict, reply, handled);
    FallbackFixed(fix, reason, if verdict == DeliveryUnknown then TRUTH_UNAVAILABLE else NOT_DELIVERED);
    var e := QuarantineRequest(fix, r, reason, now, disposition, reply, handled);
    BaseOf(fix, r);
    LaterBase(r, e.record);
    if e.Returned? { LifecycleForm(fix, e.record); }
    hide ChildResult, ValidChild, OrElse, Settled, SoundBase, ValidRecord, ValidRequestId;
  }

  /** Exact bytes are attached once, to a resolving record; other bytes never replace them. */
  lemma AttachBytesValid(fix: Sanitizer, r: Record, json: RequestJson, now: real)
    requires ValidRecord(fix, r, r.requestId) && ValidRequestId(r.requestId) && now >= r.updatedAt
    ensures var e := AttachRequestJson(r, json, now);
      && SameBounds(r, e.record) && ValidRecord(fix, e.record, r.requestId)
      && (e.Raised? ==> e.record == r)
      && (r.requestJson.Some? ==> e.record == r)
      && (e.Returned? ==> e.record.requestJson == Some(json))
      && (e.Returned? && e.value <==> r.state == Resolving && RequestIdOf(json) == Some(r.requestId))
  {
  }

  /** `mark_retryable` always yields a valid retryable record, and it does so even on a closed one. */
  lemma RetryableValid(fix: Sanitizer, r: Record, disposition: Option<Transport>, now: real)
    requires Sane(fix) && ValidRecord(fix, r, r.requestId) && ValidRequestId(r.requestId) && now >= r.updatedAt
    requires RetryTransport(disposition)
    ensures var e := MarkRetryable(fix, r, disposition, now);
      && (e.Returned? <==> r.requestJson.Some?)
      && SameBounds(r, e.record) && ValidRecord(fix, e.record, r.requestId)
      && (e.Returned? ==> e.record.state == Retryable && GatewayAccepts(fix, e.value, r.requestId))
  {
    Texts(fix);
    var e := MarkRetryable(fix, r, disposition, now);
    BaseOf(fix, r);
    LaterBase(r, e.record);
    if e.Returned? { LifecycleForm(fix, e.record); }
    hide SoundBase, ValidRecord, ValidRequestId;
  }

  /** When a terminal outcome is recorded at all, and what it stores. */
  lemma TerminalShape(fix: Sanitizer, r: Record, transport: Option<Transport>, phase: Phase, verdict: Verdict, now: real,
                      reply: string, blockedReason: string, nextAction: string, handled: bool)
    requires Sane(fix) && ValidRequestId(r.requestId) && now >= 0.0
    ensures var e := RecordTerminalOutcome(fix, r, transport, phase, verdict, now, reply, blockedReason, nextAction, handled);
      && SameBounds(r, e.record) && e.record.requestJson == r.requestJson && (e.Raised? ==> e.record == r)
      && (e.Returned? <==>
            && r.requestJson.Some? && TransportProves(verdict, Normalize(transport)) && PhaseAllows(verdict, phase)
            && (verdict == Delivered || handled || Normalize(transport).None?))
      && (e.Returned? ==>
            && e.record.state == Terminal && e.record.outcome == Some(e.value)
            && e.value.transport == e.record.transport && e.value.phase == e.record.phase && e.value.verdict == e.record.verdict
            && (e.value.checkpoint == AdvanceUpdate <==> verdict == Delivered)
            && (e.value.checkpoint == HoldUpdate <==> verdict != Delivered)
            && (ValidChild(fix, e.value, r.requestId) <==> (verdict == Delivered ==> handled && Settled(fix, reply))))
  {
    Texts(fix);
    var t := Normalize(transport);
    AdvancingChild(fix, r.requestId, t, phase, reply, handled);
    if verdict != Delivered { HeldChild(fix, r.requestId, t, phase, verdict, "", handled); }
    hide ChildResult, ValidChild, ValidRequestId;
  }

  /**
    A terminal outcome leaves a valid record exactly when its texts settle, an
    unhandled outcome does not claim delivery, and an unknown delivery does not
    sit beside a standing replay authorization.
   */
  lemma TerminalValid(fix: Sanitizer, r: Record, transport: Option<Transport>, phase: Phase, verdict: Verdict, now: real,
                      reply: string, blockedReason: string, nextAction: string, handled: bool)
    requires Sane(fix) && ValidRecord(fix, r, r.requestId) && ValidRequestId(r.requestId) && now >= r.updatedAt
    ensures var e := RecordTerminalOutcome(fix, r, transport, phase, verdict, now, reply, blockedReason, nextAction, handled);
      e.Returned? ==>
        (ValidRecord(fix, e.record, r.requestId) <==>
           && (if verdict == Delivered then handled && Settled(fix, reply)
               else Settled(fix, blockedReason) && Settled(fix, nextAction))
           && !(verdict == DeliveryUnknown && AutomaticWitness(r)))
  {
    Texts(fix);
    TerminalShape(fix, r, transport, phase, verdict, now, reply, blockedReason, nextAction, handled);
    FallbackFixed(fix, blockedReason, if verdict == DeliveryUnknown then TRUTH_UNAVAILABLE else NOT_DELIVERED);
    FallbackFixed(fix, nextAction, if verdict == DeliveryUnknown then INSPECT_EVIDENCE else REVIEW_FAILURE);
    var e := RecordTerminalOutcome(fix, r, transport, phase, verdict, now, reply, blockedReason, nextAction, handled);
    BaseOf(fix, r);
    LaterBase(r, e.record);
    if e.Returned? { LifecycleForm(fix, e.record); }
    hide ChildResult, ValidChild, OrElse, SoundBase, ValidRecord, ValidRequestId, TransportProves, PhaseAllows;
  }

  /** The reduction of Tendwire's terminal answers: never a claim of delivery. */
  lemma MarkTerminalValid(fix: Sanitizer, r: Record, disposition: Transport, now: real)
    requires Sane(fix) && ValidRecord(fix, r, r.requestId) && ValidRequestId(r.requestId) && now >= r.updatedAt
    ensures var e := MarkTerminal(fix, r, disposition, now);
      && (e.Returned? <==> disposition in {TerminalAccepted, TerminalRejected} && r.requestJson.Some?)
      && SameBounds(r, e.record)
      && (e.Returned? ==>
            && e.value.checkpoint == HoldUpdate && e.record.outcome == Some(e.value) && e.record.state == Terminal
            && e.record.requestJson == r.requestJson
            && (ValidRecord(fix, e.record, r.requestId) <==> !(disposition == TerminalAccepted && AutomaticWitness(r))))
  {
    Texts(fix);
    TerminalShape(fix, r, Some(WrittenToPty), AcceptedUnverified, DeliveryUnknown, now, "", UNVERIFIED, INSPECT_COMPOSER, true);
    TerminalValid(fix, r, Some(WrittenToPty), AcceptedUnverified, DeliveryUnknown, now, "", UNVERIFIED, INSPECT_COMPOSER, true);
    TerminalShape(fix, r, Some(TerminalRejected), PhaseTerminal, NotDelivered, now, "", PROVIDER_REJECTED, REVIEW_REJECTION, true);
    TerminalValid(fix, r, Some(TerminalRejected), PhaseTerminal, NotDelivered, now, "", PROVIDER_REJECTED, REVIEW_REJECTION, true);
    hide RecordTerminalOutcome, ValidRecord, ValidChild;
  }

  /**
    Attaching an owner moves `updated_at`, which a resolving or quarantined record
    pins; so it keeps validity exactly there where it moves nothing.
   */
  lemma OwnerValid(fix: Sanitizer, r: Record, owner: Owner, now: real)
    requires ValidRecord(fix, r, r.requestId) && now >= r.updatedAt
    ensures var e := AttachTargetOwner(r, owner, now);
      && SameBounds(r, e.record)
      && (e.Raised? ==> e.record == r)
      && (ValidRecord(fix, e.record, r.requestId) <==>
            e.record == r || r.state in {Retryable, Terminal} || now == r.updatedAt)
  {
    hide ValidWitness, ValidChild, ValidOwner, RequestIdOf, FixedText;
  }

  /** On the command path the bytes follow at once, and that repairs the resolving record. */
  lemma OwnerThenBytesValid(fix: Sanitizer, r: Record, owner: Owner, json: RequestJson, now: real, later: real)
    requires ValidRecord(fix, r, r.requestId) && ValidRequestId(r.requestId) && r.state == Resolving
    requires r.updatedAt <= now <= later && ValidOwner(owner) && RequestIdOf(json) == Some(r.requestId)
    requires r.targetOwner.None? || r.targetOwner == Some(owner)
    ensures var owned := AttachTargetOwner(r, owner, now);
      var e := AttachRequestJson(owned.record, json, later);
      && owned.Returned? && e.Returned? && ValidRecord(fix, e.record, r.requestId)
      && e.record.targetOwner == Some(owner) && SameBounds(r, e.record)
  {
  }

  /** With only submission fields and a later `updated_at` changed, validity is theirs alone. */
  lemma SubmissionFieldsOnly(fix: Sanitizer, r: Record, r': Record)
    requires ValidRecord(fix, r, r.requestId) && r.state in {Retryable, Terminal} && r'.updatedAt >= r.updatedAt
    requires r' == r.(updatedAt := r'.updatedAt, submissionId := r'.submissionId, submissionState := r'.submissionState,
                      turnId := r'.turnId, submittedAt := r'.submittedAt, linkedAt := r'.linkedAt)
    ensures ValidRecord(fix, r', r.requestId) <==> ValidSubmission(r')
  {
  }

  lemma ReceiptSubmission(r: Record, receipt: Receipt, now: real)
    requires ValidSubmission(r) && 0.0 <= r.createdAt <= r.updatedAt <= now
    ensures ValidSubmission(AttachSubmissionReceipt(r, receipt, now).record) <==> !HalfWritten(r, receipt, now)
  {
  }

  /** The receipt that `attach_submission_receipt` rejects only after writing it. */
  predicate HalfWritten(r: Record, receipt: Receipt, now: real) {
    AcceptableReceipt(r, receipt, now) && receipt.state == Some(Linked) && receipt.turnId.None? && r.turnId.None?
  }

  lemma ReceiptEffect(r: Record, receipt: Receipt, now: real)
    requires r.updatedAt <= now
    ensures var e := AttachSubmissionReceipt(r, receipt, now);
      && e.record.updatedAt >= r.updatedAt
      && e.record == r.(updatedAt := e.record.updatedAt, submissionId := e.record.submissionId,
                        submissionState := e.record.submissionState, turnId := e.record.turnId,
                        submittedAt := e.record.submittedAt, linkedAt := e.record.linkedAt)
      && (e.Raised? ==> e.record == r || HalfWritten(r, receipt, now))
      && (e.Returned? ==> e.record.submissionId == Some(receipt.submissionId)
                          && (r.turnId.Some? ==> e.record.turnId == r.turnId))
  {
  }

  /**
    A receipt either leaves the record untouched, or is attached and keeps it
    valid (retryable and terminal records), or raises after half of it is written:
    that happens exactly for an acceptable linked receipt with no turn id at all.
   */
  lemma ReceiptValid(fix: Sanitizer, r: Record, receipt: Receipt, now: real)
    requires ValidRecord(fix, r, r.requestId) && now >= r.updatedAt && r.state in {Retryable, Terminal}
    ensures var e := AttachSubmissionReceipt(r, receipt, now);
      && SameBounds(r, e.record)
      && (ValidRecord(fix, e.record, r.requestId) <==> !HalfWritten(r, receipt, now))
      && (e.Returned? ==> e.record.submissionId == Some(receipt.submissionId)
                          && (r.turnId.Some? ==> e.record.turnId == r.turnId))
      && (e.Raised? && ValidRecord(fix, e.record, r.requestId) ==> e.record == r)
  {
    ReceiptEffect(r, receipt, now);
    ReceiptSubmission(r, receipt, now);
    SubmissionFieldsOnly(fix, r, AttachSubmissionReceipt(r, receipt, now).record);
  }

  /**
    The caller answers a rejected receipt by quarantining and saving what is left.
    The saved record is valid exactly when the receipt was rejected before it
    touched the record: the half-written linked receipt survives quarantine.
   */
  lemma RejectedReceiptQuarantine(fix: Sanitizer, r: Record, receipt: Receipt, now: real, reason: string)
    requires Sane(fix) && Settled(fix, reason)
    requires ValidRecord(fix, r, r.requestId) && ValidRequestId(r.requestId) && now >= r.updatedAt && r.state == Retryable
    requires AttachSubmissionReceipt(r, receipt, now).Raised?
    ensures var left := AttachSubmissionReceipt(r, receipt, now).record;
      var e := QuarantineRequest(fix, left, reason, now, None, QUARANTINE_REPLY, true);
      && e.Returned?
      && (ValidRecord(fix, e.record, r.requestId) <==> !AcceptableReceipt(r, receipt, now))
  {
    Texts(fix);
    var left := AttachSubmissionReceipt(r, receipt, now).record;
    if AcceptableReceipt(r, receipt, now) { assert !ValidSubmission(left); }
  }

  /** The byte rewrite keeps validity exactly on a retryable record, and happens at most once. */
  lemma StaleRefreshValid(fix: Sanitizer, r: Record, now: real)
    requires ValidRecord(fix, r, r.requestId) && now >= r.updatedAt
    ensures var e := StaleTargetRefresh(r, now);
      && e.Returned? && SameBounds(r, e.record)
      && (e.value.None? ==> e.record == r)
      && (e.value.Some? <==> !r.staleTargetRefreshed && r.requestJson.Some? && HasFingerprint(r.requestJson.value))
      && (e.value.Some? ==>
            && e.record.requestJson == Some(WithoutFingerprint(r.requestJson.value))
            && e.record.staleTargetRefreshed && RequestIdOf(e.value.value) == Some(r.requestId)
            && (ValidRecord(fix, e.record, r.requestId) <==> r.state == Retryable))
  {
    if r.requestJson.Some? && HasFingerprint(r.requestJson.value) {
      assert ValidCommandRequest(WithoutFingerprint(r.requestJson.value).request);
      assert RequestIdOf(WithoutFingerprint(r.requestJson.value)) == Some(r.requestId);
    }
    LaterSubmission(r, StaleTargetRefresh(r, now).record);
    hide Sane, ValidSubmission, RequestIdOf, ValidWitness, ValidRequestId, ValidCommandRequest, ValidChild;
  }

  /** The stored comparison; a replay is authorized only by a provider that saw no prompt beside a different composer. */
  predicate Witnessed(r: Record, w: Witness, prompt: string, composer: Option<string>, verdict: ProviderVerdict) {
    && w.promptFingerprint == prompt && w.composerFingerprint == composer && w.verdict == verdict
    && (w.comparison == Unreadable <==> composer.None?) && (w.comparison == Match <==> composer == Some(prompt))
    && (w.automatic <==> verdict == VerdictNotReceived && composer.Some? && composer != Some(prompt) && r.verdict != Some(DeliveryUnknown))
  }

  /** What a witness records, and that it touches nothing but itself and the operator's texts. */
  lemma WitnessRecorded(r: Record, prompt: string, composer: Option<string>, readable: bool,
                        verdict: ProviderVerdict, generation: Option<string>, now: real)
    ensures var e := RecordDedupWitness(r, prompt, composer, readable, verdict, generation, now);
      && (e.Returned? ==> e.record.dedupWitness.Some? && Witnessed(r, e.record.dedupWitness.value, prompt, composer, verdict))
      && e.record == r.(dedupWitness := e.record.dedupWitness, updatedAt := e.record.updatedAt, attention := e.record.attention,
                        blockedReason := e.record.blockedReason, nextAction := e.record.nextAction)
  {
    hide ValidWitness;
  }

  /**
    A dedup witness keeps validity exactly when it changes nothing, or the record's
    state allows a witness and, for an unreadable composer, already asks for attention.
   */
  lemma WitnessValid(fix: Sanitizer, r: Record, prompt: string, composer: Option<string>, readable: bool,
                     verdict: ProviderVerdict, generation: Option<string>, now: real)
    requires Sane(fix) && ValidRecord(fix, r, r.requestId) && now >= r.updatedAt
    ensures var e := RecordDedupWitness(r, prompt, composer, readable, verdict, generation, now);
      && SameBounds(r, e.record)
      && (e.Raised? ==> e.record == r)
      && (ValidRecord(fix, e.record, r.requestId) <==>
            || e.record == r
            || (r.state in {Retryable, Terminal} && (composer.Some? || r.attention))
            || (r.state == Quarantined && now == r.updatedAt && (composer.Some? || r.attention)))
  {
    Texts(fix);
    LaterSubmission(r, RecordDedupWitness(r, prompt, composer, readable, verdict, generation, now).record);
    hide Sane, ValidSubmission, RequestIdOf, ValidRequestId, ValidChild;
  }

  // ----- two independent validators --------------------------------------------------

  /**
    The gateway validates children on its own.  On closed outcomes it accepts
    exactly the children the record store accepts, so a stored outcome is taken
    verbatim; and only a delivered one lets the cursor advance.
   */
  lemma ValidatorsAgree(fix: Sanitizer, c: Child, id: string)
    ensures c.checkpoint != RetryUpdate ==> (GatewayAccepts(fix, c, id) <==> ValidChild(fix, c, id))
    ensures GatewayAccepts(fix, c, id) ==> (c.checkpoint == AdvanceUpdate <==> c.verdict == Some(Delivered))
  {
  }

  lemma StoredOutcomeAccepted(fix: Sanitizer, r: Record)
    requires ValidRecord(fix, r, r.requestId) && Closed(r)
    ensures r.outcome.Some? && GatewayAccepts(fix, r.outcome.value, r.requestId)
    ensures r.outcome.value.checkpoint == AdvanceUpdate <==> r.verdict == Some(Delivered)
  {
    ValidatorsAgree(fix, r.outcome.value, r.requestId);
  }

  /** Whatever `child_result` builds, the gateway accepts it as soon as its reply settles. */
  lemma BuiltChildAccepted(fix: Sanitizer, id: string, checkpoint: Checkpoint, transport: Option<Transport>,
                           phase: Phase, verdict: Option<Verdict>, reply: string, handled: bool)
    requires Sane(fix)
    ensures var c := ChildResult(fix, id, checkpoint, transport, phase, verdict, reply, handled);
      c.Some? ==>
        (GatewayAccepts(fix, c.value, id) <==>
           (checkpoint == RetryUpdate || Settled(fix, reply)) && (checkpoint == AdvanceUpdate ==> handled))
  {
    Texts(fix);
  }

  // ----- the sanitizer is not idempotent ------------------------------------------------

  /** One pass over a text may expose what the next pass removes; such a reason breaks the record. */
  lemma UnsettledReasonBreaksRecord(id: string, now: real)
    requires ValidRequestId(id) && now >= 0.0
    ensures exists fix: Sanitizer, r: Record, reason: string ::
      && Sane(fix) && ValidRecord(fix, r, id)
      && !ValidRecord(fix, QuarantineRequest(fix, r, reason, now, None, QUARANTINE_REPLY, true).record, id)
  {
    var fix: Sanitizer := (s: string) => if |s| == 3 then s[..2] else if |s| == 2 then "" else s;
    var r := NewRecord(id, now, 1.0, 2.0).value;
    var reason := "abc";
    assert Sane(fix);
    NewRecordValid(fix, id, now, 1.0, 2.0);
    assert !Settled(fix, reason);
    QuarantineValid(fix, r, reason, now, None, QUARANTINE_REPLY, true);
  }
}
