/**
  Reading records of earlier schema versions: which of them migrate to a valid
  current record, and what migration may claim about delivery.
 */
module RecordMigration {
  import opened Chars
  import opened Options
  import opened IngressRecords
  import opened RecordValidity

  datatype LegacyChild = LegacyChild(
    handled: bool, requestId: string, checkpoint: Checkpoint, disposition: Option<Transport>, reply: string)

  datatype SubmissionFields = SubmissionFields(
    submissionId: Option<string>, submissionState: Option<SubmissionState>, turnId: Option<string>,
    targetOwner: Option<Owner>, submittedAt: Option<real>, linkedAt: Option<real>)

  /** A version 2 record; version 3 adds the submission fields. */
  datatype OldRecord = OldRecord(
    requestId: string, createdAt: real, updatedAt: real, deadlineAt: real, retainUntil: real,
    state: RecordState, requestJson: Option<RequestJson>, lastDisposition: Option<Transport>,
    staleTargetRefreshed: bool, terminalAt: Option<real>, quarantinedAt: Option<real>,
    quarantineReason: Option<string>, outcome: Option<LegacyChild>)

  datatype Evidence =
    | V4(record: Record)
    | V3(prior: OldRecord, submission: SubmissionFields)
    | V2(prior: OldRecord)
    | V1(json: RequestJson, createdAt: real, updatedAt: real, terminalAt: Option<real>, lastStatus: Option<string>)

  const NO_SUBMISSION: SubmissionFields := SubmissionFields(None, None, None, None, None, None)

  predicate ValidLegacyChild(fix: Sanitizer, c: LegacyChild, id: string) {
    && c.requestId == id && c.checkpoint == AdvanceUpdate
    && c.disposition in {None, Some(TerminalAccepted), Some(TerminalRejected), Some(TerminalUncertain)}
    && fix(c.reply) == c.reply && (!c.handled ==> c.disposition.None? && c.reply == "")
  }

  /** The record `migrated.update` produces before the state is looked at. */
  function Carried(prior: OldRecord, sub: SubmissionFields): Record {
    Record(prior.requestId, prior.createdAt, prior.updatedAt, prior.deadlineAt, prior.retainUntil,
           prior.state, prior.requestJson, Normalize(prior.lastDisposition), PhaseResolving, None,
           false, false, None, None, None, prior.staleTargetRefreshed,
           prior.terminalAt, prior.quarantinedAt, prior.quarantineReason, None,
           sub.submissionId, sub.submissionState, sub.turnId, sub.targetOwner, sub.submittedAt, sub.linkedAt)
  }

  /** The shared validator of versions 2 and 3; only version 3 lets a receipt follow the terminal time. */
  predicate ValidOld(fix: Sanitizer, prior: OldRecord, sub: SubmissionFields, id: string, version3: bool) {
    && prior.requestId == id
    && 0.0 <= prior.createdAt <= prior.updatedAt && prior.createdAt < prior.deadlineAt < prior.retainUntil
    && (prior.requestJson.Some? ==> RequestIdOf(prior.requestJson.value) == Some(id))
    && (if version3 then ValidSubmission(Carried(prior, sub)) else sub == NO_SUBMISSION)
    && (prior.staleTargetRefreshed ==> prior.requestJson.Some?)
    && match prior.state
       case Resolving =>
         && prior.requestJson.None? && prior.updatedAt == prior.createdAt && prior.lastDisposition.None?
         && !prior.staleTargetRefreshed && prior.terminalAt.None? && prior.quarantinedAt.None?
         && prior.quarantineReason.None? && prior.outcome.None?
       case Retryable =>
         && prior.requestJson.Some? && RetryTransport(prior.lastDisposition) && prior.terminalAt.None?
         && prior.quarantinedAt.None? && prior.quarantineReason.None? && prior.outcome.None?
       case Terminal =>
         && prior.requestJson.Some? && prior.lastDisposition in {Some(TerminalAccepted), Some(TerminalRejected)}
         && Stamp(prior.terminalAt) && prior.terminalAt.value <= prior.updatedAt
         && (version3 || prior.terminalAt.value == prior.updatedAt)
         && prior.quarantinedAt.None? && prior.quarantineReason.None?
         && prior.outcome.Some? && ValidLegacyChild(fix, prior.outcome.value, id)
         && prior.outcome.value.disposition == prior.lastDisposition
       case Quarantined =>
         && prior.lastDisposition in {None, Some(TerminalUncertain)}
         && (prior.lastDisposition.None? || prior.requestJson.Some?)
         && prior.terminalAt.None? && prior.quarantinedAt == Some(prior.updatedAt)
         && prior.quarantineReason.Some? && prior.quarantineReason.value != ""
         && prior.outcome.Some? && ValidLegacyChild(fix, prior.outcome.value, id)
         && prior.outcome.value.disposition == prior.lastDisposition
  }

  /** Transport, phase, verdict and reason that history supports. */
  function HistoricalOutcome(disposition: Option<Transport>, linked: bool): (Option<Transport>, Phase, Verdict, Option<string>) {
    if disposition == Some(TerminalAccepted) then
      if linked then (Some(Submitted), PhaseTerminal, Delivered, None)
      else (Some(WrittenToPty), AcceptedUnverified, DeliveryUnknown, Some(HISTORICAL_UNVERIFIED))
    else if disposition == Some(TerminalRejected) then
      (Some(TerminalRejected), PhaseTerminal, NotDelivered, Some(HISTORICAL_REJECTION))
    else (Normalize(disposition), PhaseTerminal, DeliveryUnknown, Some(HISTORICAL_UNKNOWN))
  }

  predicate LinkedTurn(sub: SubmissionFields) {
    sub.submissionState == Some(Linked) && sub.turnId.Some? && NonBlank(sub.turnId.value)
  }

  /** Python's `or` on timestamps: zero counts as missing. */
  function OrTime(t: Option<real>, fallback: real): real {
    if t.Some? && t.value != 0.0 then t.value else fallback
  }

  /** The record migration builds, before it is validated. */
  function Migrated(fix: Sanitizer, prior: OldRecord, sub: SubmissionFields, id: string): Record {
    var base := Carried(prior, sub);
    if prior.state == Resolving then base
    else if prior.state == Retryable then base.(phase := PhaseRetryable)
    else
      var (transport, phase, verdict, reason) :=
        HistoricalOutcome(prior.lastDisposition, prior.lastDisposition == Some(TerminalAccepted) && LinkedTurn(sub));
      var delivered := verdict == Delivered;
      base.(state := Terminal, transport := transport, phase := phase, verdict := Some(verdict),
            checkpointAlreadyAdvanced := true, attention := !delivered, blockedReason := reason,
            nextAction := if delivered then None else Some(HISTORICAL_ACTION),
            terminalAt := Some(OrTime(prior.terminalAt, OrTime(prior.quarantinedAt, prior.updatedAt))),
            quarantinedAt := None, quarantineReason := None,
            outcome := ChildResult(fix, id, if delivered then AdvanceUpdate else HoldUpdate, transport, phase,
                                   Some(verdict), "", true))
  }

  function MigrateV3(fix: Sanitizer, prior: OldRecord, sub: SubmissionFields, id: string): Option<Record> {
    if !ValidOld(fix, prior, sub, id, true) then None
    else
      var migrated := Migrated(fix, prior, sub, id);
      if ValidRecord(fix, migrated, id) then Some(migrated) else None
  }

  function MigrateV2(fix: Sanitizer, prior: OldRecord, id: string): Option<Record> {
    if !ValidOld(fix, prior, NO_SUBMISSION, id, false) then None else MigrateV3(fix, prior, NO_SUBMISSION, id)
  }

  /** A quarantined record whose request never got its bytes. */
  predicate QuarantinedWithoutBytes(prior: OldRecord) { prior.state == Quarantined && prior.requestJson.None? }

  /** What migration keeps of a record, and what it may claim. */
  predicate Preserves(prior: OldRecord, sub: SubmissionFields, r: Record) {
    && r.requestId == prior.requestId && r.createdAt == prior.createdAt && r.updatedAt == prior.updatedAt
    && r.deadlineAt == prior.deadlineAt && r.retainUntil == prior.retainUntil && r.requestJson == prior.requestJson
    && (r.verdict == Some(Delivered) <==>
          prior.state == Terminal && prior.lastDisposition == Some(TerminalAccepted) && LinkedTurn(sub))
    && (r.checkpointAlreadyAdvanced <==> prior.state in {Terminal, Quarantined})
    && (Closed(r) <==> prior.state in {Terminal, Quarantined})
    && r.staleTargetRefreshed == prior.staleTargetRefreshed && r.targetOwner == sub.targetOwner
    && r.submissionId == sub.submissionId && r.submissionState == sub.submissionState && r.turnId == sub.turnId
    && r.submittedAt == sub.submittedAt && r.linkedAt == sub.linkedAt
    && if !Closed(r) then r.state == prior.state && r.transport == prior.lastDisposition && r.verdict.None?
       else ClaimsNoMore(prior, r)
  }

  /** A rejection stays one, an acceptance without a linked turn becomes unknown, and so does every quarantine. */
  predicate ClaimsNoMore(prior: OldRecord, r: Record) {
    match prior.lastDisposition
    case Some(TerminalRejected) => r.verdict == Some(NotDelivered) && r.transport == Some(TerminalRejected)
    case Some(TerminalAccepted) =>
      if r.verdict == Some(Delivered) then r.transport == Some(Submitted)
      else r.verdict == Some(DeliveryUnknown) && r.transport == Some(WrittenToPty)
    case _ => r.verdict == Some(DeliveryUnknown) && r.transport == prior.lastDisposition
  }

  lemma ClosedOutcome(fix: Sanitizer, prior: OldRecord, sub: SubmissionFields, id: string)
    requires Sane(fix) && ValidRequestId(id) && ValidOld(fix, prior, sub, id, true) && prior.state in {Terminal, Quarantined}
    ensures ValidOutcome(fix, Migrated(fix, prior, sub, id), id)
  {
    Texts(fix);
  }

  lemma ClosedTexts(fix: Sanitizer, prior: OldRecord, sub: SubmissionFields, id: string)
    requires Sane(fix) && ValidRequestId(id) && ValidOld(fix, prior, sub, id, true) && prior.state in {Terminal, Quarantined}
    ensures var r := Migrated(fix, prior, sub, id);
      && FixedText(fix, r.blockedReason) && FixedText(fix, r.nextAction) && Persisted(r.transport)
      && r.verdict.Some? && (if r.verdict == Some(Delivered) then !r.attention
                             else r.attention && r.blockedReason.Some? && r.nextAction.Some?)
      && Preserves(prior, sub, r)
  {
    Texts(fix);
  }

  lemma ClosedMigrates(fix: Sanitizer, prior: OldRecord, sub: SubmissionFields, id: string)
    requires Sane(fix) && ValidRequestId(id) && ValidOld(fix, prior, sub, id, true) && prior.state in {Terminal, Quarantined}
    ensures ValidRecord(fix, Migrated(fix, prior, sub, id), id) <==> prior.requestJson.Some?
    ensures GatewayAccepts(fix, Migrated(fix, prior, sub, id).outcome.value, id)
  {
    var r := Migrated(fix, prior, sub, id);
    ClosedOutcome(fix, prior, sub, id);
    ClosedTexts(fix, prior, sub, id);
    assert ValidSubmission(r) by { assert ValidSubmission(Carried(prior, sub)); }
    ValidatorsAgree(fix, r.outcome.value, id);
  }

  /**
    Migration is exact: a valid version 3 record migrates if and only if it is not
    quarantined without bytes.  It keeps identity, times and bytes, and claims a
    delivery exactly for an accepted record with a linked submission and a turn.
   */
  lemma MigrationExact(fix: Sanitizer, prior: OldRecord, sub: SubmissionFields, id: string)
    requires Sane(fix) && ValidRequestId(id) && ValidOld(fix, prior, sub, id, true)
    ensures MigrateV3(fix, prior, sub, id).Some? <==> !QuarantinedWithoutBytes(prior)
    ensures MigrateV3(fix, prior, sub, id).Some? ==>
      var r := MigrateV3(fix, prior, sub, id).value;
      ValidRecord(fix, r, id) && Preserves(prior, sub, r) && (Closed(r) ==> GatewayAccepts(fix, r.outcome.value, id))
  {
    if prior.state in {Terminal, Quarantined} {
      ClosedTexts(fix, prior, sub, id);
      ClosedMigrates(fix, prior, sub, id);
    } else {
      OpenMigrates(fix, prior, sub, id);
    }
  }

  lemma OpenMigrates(fix: Sanitizer, prior: OldRecord, sub: SubmissionFields, id: string)
    requires Sane(fix) && ValidRequestId(id) && ValidOld(fix, prior, sub, id, true) && prior.state !in {Terminal, Quarantined}
    ensures ValidRecord(fix, Migrated(fix, prior, sub, id), id) && Preserves(prior, sub, Migrated(fix, prior, sub, id))
  {
    assert ValidSubmission(Carried(prior, sub));
  }

  /** Version 2 migrates under the same condition and, having no receipts, never claims a delivery. */
  lemma MigrationV2Exact(fix: Sanitizer, prior: OldRecord, id: string)
    requires Sane(fix) && ValidRequestId(id) && ValidOld(fix, prior, NO_SUBMISSION, id, false)
    ensures MigrateV2(fix, prior, id).Some? <==> !QuarantinedWithoutBytes(prior)
    ensures MigrateV2(fix, prior, id).Some? ==>
      var r := MigrateV2(fix, prior, id).value;
      ValidRecord(fix, r, id) && Preserves(prior, NO_SUBMISSION, r) && r.verdict != Some(Delivered)
  {
    assert ValidSubmission(Carried(prior, NO_SUBMISSION));
    MigrationExact(fix, prior, NO_SUBMISSION, id);
  }

  // ----- the store's view of one piece of evidence ---------------------------------------

  predicate ValidV1(e: Evidence, id: string, now: real)
    requires e.V1?
  {
    && 0.0 <= e.createdAt <= e.updatedAt && e.createdAt <= now
    && (e.lastStatus.Some? ==> e.lastStatus.value != "")
    && (e.terminalAt.Some? ==> e.terminalAt.value >= 0.0 && e.terminalAt.value >= e.createdAt)
    && RequestIdOf(e.json) == Some(id)
  }

  /** `_validated_records_mapping` accepts this evidence. */
  predicate Accepted(fix: Sanitizer, e: Evidence, id: string, now: real) {
    match e
    case V4(r) => ValidRecord(fix, r, id)
    case V3(prior, sub) => ValidOld(fix, prior, sub, id, true)
    case V2(prior) => ValidOld(fix, prior, NO_SUBMISSION, id, false)
    case V1(_, _, _, _, _) => ValidV1(e, id, now)
  }

  /** `ensure_request_shell` on retained evidence; None is the corrupt-store error. */
  function EnsureShell(fix: Sanitizer, e: Evidence, id: string, now: real, horizon: real, retention: real): Option<Record> {
    if !Accepted(fix, e, id, now) then None
    else match e
      case V4(r) => Some(r)
      case V3(prior, sub) => MigrateV3(fix, prior, sub, id)
      case V2(prior) => MigrateV2(fix, prior, id)
      case V1(json, createdAt, updatedAt, _, _) =>
        var shell := NewRecord(id, createdAt, horizon, retention);
        if shell.None? then None
        else Some(shell.value.(updatedAt := updatedAt, state := Retryable, requestJson := Some(json), phase := PhaseRetryable))
  }

  /** `prune_requests` on one accepted record: migrate what migrates, drop what expired. */
  function Prune(fix: Sanitizer, e: Evidence, id: string, now: real): Option<Evidence> {
    var migrated := match e
      case V3(prior, sub) => MigrateV3(fix, prior, sub, id)
      case V2(prior) => MigrateV2(fix, prior, id)
      case _ => None;
    var e' := if migrated.Some? then V4(migrated.value) else e;
    if e'.V4? && ValidRecord(fix, e'.record, id) && now > e'.record.retainUntil then None else Some(e')
  }

  predicate Stuck(e: Evidence) { (e.V3? || e.V2?) && QuarantinedWithoutBytes(e.prior) }

  /**
    Accepted evidence yields a valid current record unless it is an old record
    quarantined without bytes; that one passes validation, fails every lookup, and
    is never pruned, so it stays for good.
   */
  lemma AcceptedEvidence(fix: Sanitizer, e: Evidence, id: string, now: real, horizon: real, retention: real)
    requires Sane(fix) && ValidRequestId(id) && Accepted(fix, e, id, now) && 0.0 < horizon < retention
    ensures EnsureShell(fix, e, id, now, horizon, retention).Some? <==> !Stuck(e)
    ensures EnsureShell(fix, e, id, now, horizon, retention).Some? ==>
      ValidRecord(fix, EnsureShell(fix, e, id, now, horizon, retention).value, id)
    ensures Stuck(e) ==> Prune(fix, e, id, now) == Some(e)
    ensures !Stuck(e) && !e.V1? ==>
      (Prune(fix, e, id, now).None? <==> now > EnsureShell(fix, e, id, now, horizon, retention).value.retainUntil)
  {
    match e
    case V4(_) =>
    case V3(prior, sub) => MigrationExact(fix, prior, sub, id);
    case V2(prior) => MigrationV2Exact(fix, prior, id);
    case V1(_, createdAt, _, _, _) => NewRecordValid(fix, id, createdAt, horizon, retention);
  }

  /** A version 1 record becomes a retry of its own bytes, its deadline counted from its creation. */
  lemma LegacyMigrates(fix: Sanitizer, e: Evidence, id: string, now: real, horizon: real, retention: real)
    requires e.V1? && ValidRequestId(id) && Accepted(fix, e, id, now) && 0.0 < horizon < retention
    ensures var r := EnsureShell(fix, e, id, now, horizon, retention);
      && r.Some? && r.value.requestId == id && r.value.requestJson == Some(e.json) && r.value.state == Retryable
      && r.value.createdAt == e.createdAt && r.value.updatedAt == e.updatedAt && r.value.verdict.None? && r.value.outcome.None?
      && r.value.deadlineAt - e.createdAt == horizon && r.value.retainUntil - e.createdAt == retention
  {
  }
}
