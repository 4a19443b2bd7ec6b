/**
  What an answer of Tendwire means for the record: which outcome each answer
  stores, which reply a local refusal gives, and, over whole runs, which answer a
  stored outcome must have come from.
 */
module CommandOutcomes {
  import opened Options
  import opened IngressRecords
  import opened RecordValidity
  import opened CommandProtocol
  import opened CommandSafety

  // ----- what transitions store --------------------------------------------------------

  /** Identity, bytes, owner, submission and witness are as they were. */
  predicate SameRequest(r: Record, r': Record) {
    && SameBounds(r, r') && r'.requestJson == r.requestJson && r'.staleTargetRefreshed == r.staleTargetRefreshed
    && r'.targetOwner == r.targetOwner && r'.dedupWitness == r.dedupWitness
    && r'.submissionId == r.submissionId && r'.submissionState == r.submissionState && r'.turnId == r.turnId
    && r'.submittedAt == r.submittedAt && r'.linkedAt == r.linkedAt
  }

  /** The record is closed with this truth, on hold for its operator, and its outcome says the same. */
  predicate Shows(r: Record, verdict: Verdict, transport: Option<Transport>, phase: Phase, reply: string, handled: bool) {
    && Closed(r) && r.verdict == Some(verdict) && r.transport == transport && r.phase == phase
    && r.attention && !r.checkpointAlreadyAdvanced && r.blockedReason.Some? && r.nextAction.Some?
    && r.terminalAt == Some(r.updatedAt)
    && r.outcome == Some(Child(handled, r.requestId, HoldUpdate, transport, phase, Some(verdict), reply))
  }

  /** The texts an operator sees; an empty one is replaced by a standard text for the verdict. */
  predicate Tells(r: Record, reason: string, action: string) {
    && (reason != "" ==> r.blockedReason == Some(reason)) && (action != "" ==> r.nextAction == Some(action))
    && (reason == "" ==> r.blockedReason == Some(if r.verdict == Some(DeliveryUnknown) then TRUTH_UNAVAILABLE else NOT_DELIVERED))
    && (action == "" ==> r.nextAction == Some(if r.verdict == Some(DeliveryUnknown) then INSPECT_EVIDENCE else REVIEW_FAILURE))
  }

  lemma QuarantineShows(fix: Sanitizer, r: Record, reason: string, now: real, disposition: Option<Transport>, reply: string, handled: bool)
    ensures var e := QuarantineRequest(fix, r, reason, now, disposition, reply, handled);
      && (e.Returned? ==> disposition in {None, Some(TerminalUncertain)})
      && (e.Returned? ==>
            && e.record.state == Quarantined && SameRequest(r, e.record) && e.record.updatedAt == now
            && e.record.quarantinedAt == Some(now) && e.record.quarantineReason == e.record.blockedReason
            && Shows(e.record, if disposition.None? then NotDelivered else DeliveryUnknown, disposition, PhaseTerminal, fix(reply), handled)
            && Tells(e.record, fix(reason), "")
            && e.record.outcome == Some(e.value))
  {
  }

  lemma TerminalShows(fix: Sanitizer, r: Record, disposition: Transport, now: real)
    ensures var e := MarkTerminal(fix, r, disposition, now);
      && (e.Returned? ==> disposition in {TerminalAccepted, TerminalRejected})
      && (e.Returned? ==>
            && e.record.state == Terminal && SameRequest(r, e.record) && e.record.updatedAt == now
            && e.record.quarantinedAt.None? && e.record.quarantineReason.None? && e.record.outcome == Some(e.value)
            && if disposition == TerminalAccepted then
                 && Shows(e.record, DeliveryUnknown, Some(WrittenToPty), AcceptedUnverified, fix(""), true)
                 && Tells(e.record, fix(UNVERIFIED), fix(INSPECT_COMPOSER))
               else
                 && Shows(e.record, NotDelivered, Some(TerminalRejected), PhaseTerminal, fix(""), true)
                 && Tells(e.record, fix(PROVIDER_REJECTED), fix(REVIEW_REJECTION)))
  {
  }

  /** A retry keeps the request as it is and answers that it may be tried again. */
  predicate RetriesWith(r: Record, r': Record, child: Child, transport: Option<Transport>, now: real) {
    && SameRequest(r, r') && r'.state == Retryable && r'.phase == PhaseRetryable && r'.transport == transport
    && r'.updatedAt == now && OpenRecord(r')
    && child.handled && child.requestId == r.requestId && child.checkpoint == RetryUpdate
    && child.transport == transport && child.phase == PhaseRetryable && child.verdict.None?
  }

  lemma RetryableShows(fix: Sanitizer, r: Record, disposition: Option<Transport>, now: real)
    ensures var e := MarkRetryable(fix, r, disposition, now);
      e.Returned? ==> RetryTransport(disposition) && RetriesWith(r, e.record, e.value, disposition, now)
  {
  }

  /** A terminal outcome in general: the reply only of a delivery, the operator's texts only of anything else. */
  lemma TerminalStores(fix: Sanitizer, r: Record, transport: Option<Transport>, phase: Phase, verdict: Verdict, now: real,
                       reply: string, reason: string, action: string, handled: bool)
    ensures var e := RecordTerminalOutcome(fix, r, transport, phase, verdict, now, reply, reason, action, handled);
      var t := if transport == Some(TerminalAccepted) then Some(WrittenToPty) else transport;
      e.Returned? ==>
        && e.record.state == Terminal && SameRequest(r, e.record) && e.record.updatedAt == now && e.record.terminalAt == Some(now)
        && e.record.outcome == Some(e.value)
        && if verdict == Delivered then
             && e.record.verdict == Some(Delivered) && e.record.transport == t && e.record.phase == phase && !e.record.attention
             && e.record.blockedReason.None? && e.record.nextAction.None?
             && e.value == Child(handled, r.requestId, AdvanceUpdate, t, phase, Some(Delivered), fix(reply))
           else Shows(e.record, verdict, t, phase, fix(""), handled) && Tells(e.record, fix(reason), fix(action))
  {
  }

  /** A fresh shell counts its deadline and its retention from when the update was first seen. */
  lemma ShellMeans(c: Config, disk: Option<Record>, firstSeen: Option<real>, now: real)
    ensures var shell := Shell(c, disk, firstSeen, now);
      && (disk.Some? && now <= disk.value.retainUntil ==> shell == disk)
      && (shell.Some? && !(disk.Some? && now <= disk.value.retainUntil) ==>
            var seen := if firstSeen.Some? && firstSeen.value <= now then firstSeen.value else now;
            && shell.value.requestId == c.id && shell.value.createdAt == shell.value.updatedAt == seen
            && shell.value.deadlineAt == seen + c.horizon && shell.value.retainUntil == seen + c.retention
            && shell.value.state == Resolving && shell.value.requestJson.None? && shell.value.outcome.None?)
  {
  }

  // ----- what an answer decides ------------------------------------------------------------

  predicate Quarantines(r: Record, d: Decision, reason: string, reply: string, handled: bool) {
    && d.Answer? && d.record.state == Quarantined && d.record.outcome == Some(d.child)
    && Shows(d.record, NotDelivered, None, PhaseTerminal, reply, handled) && Tells(d.record, reason, "")
    && SameBounds(r, d.record) && d.record.requestJson == r.requestJson
  }

  predicate Retries(r: Record, d: Decision, transport: Option<Transport>, now: real) {
    d.Answer? && RetriesWith(r, d.record, d.child, transport, now)
  }

  /** Delivered to the terminal as far as anyone knows: held as unknown, never sent again. */
  predicate HeldUnverified(r: Record, d: Decision) {
    && d.Answer? && d.record.state == Terminal && d.record.outcome == Some(d.child) && d.record.requestJson == r.requestJson
    && d.record.verdict == Some(DeliveryUnknown) && d.record.transport == Some(WrittenToPty)
    && d.record.phase == AcceptedUnverified && d.child.checkpoint == HoldUpdate && SameBounds(r, d.record)
  }

  /** The receipt that came with an acceptance cannot be attached. */
  predicate ReceiptRefused(r: Record, receipt: Receipt, owner: Option<Owner>, now: real) {
    !AcceptableReceipt(Owned(r, owner), receipt, now) || (receipt.state == Some(Linked) && receipt.turnId.None? && r.turnId.None?)
  }

  /** A target owner that is no owner key stops the caller. */
  predicate BadOwner(r: Record, owner: Option<Owner>) { r.targetOwner.None? && owner.Some? && !ValidOwner(owner.value) }

  /** What the record stores and the caller gets, answer by answer. */
  predicate AnswerDecides(c: Config, r: Record, bytes: RequestJson, replayed: bool, answer: Response, now: real, retryAt: real, d: Decision) {
    match answer
    case Accepted(None, _) => HeldUnverified(r, d)
    case Accepted(Some(receipt), owner) =>
      if BadOwner(r, owner) then d.Fails?
      else if ReceiptRefused(r, receipt, owner, now) then Quarantines(r, d, c.fix(INVALID_RECEIPT), c.fix(QUARANTINE_REPLY), true)
      else HeldUnverified(r, d) && d.record.submissionId == Some(receipt.submissionId) && d.record.submissionState == receipt.state
           && (receipt.turnId.Some? ==> d.record.turnId == receipt.turnId)
    case Rejected =>
      && d.Answer? && d.record.state == Terminal && d.record.outcome == Some(d.child) && SameRequest(r, d.record)
      && Shows(d.record, NotDelivered, Some(TerminalRejected), PhaseTerminal, c.fix(""), true)
    case Uncertain =>
      && d.Answer? && d.record.state == Quarantined && d.record.outcome == Some(d.child) && SameRequest(r, d.record)
      && Shows(d.record, DeliveryUnknown, Some(TerminalUncertain), PhaseTerminal, c.fix(QUARANTINE_REPLY), true)
    case BadAnswer => Quarantines(r, d, c.fix(INVALID_RESULT), c.fix(QUARANTINE_REPLY), true)
    case ProcessLost =>
      if now >= r.deadlineAt then Quarantines(r, d, c.fix(DEADLINE_REACHED), c.fix(QUARANTINE_REPLY), true)
      else Retries(r, d, None, now)
    case StillInProgress =>
      if !replayed then d == Again(r, true, false)
      else if now >= r.deadlineAt then Quarantines(r, d, c.fix(DEADLINE_REACHED), c.fix(QUARANTINE_REPLY), true)
      else Retries(r, d, Some(InProgress), now)
    case NoReceiptYet(stale) =>
      if now >= r.deadlineAt || (stale && retryAt >= r.deadlineAt) then
        Quarantines(r, d, c.fix(DEADLINE_REACHED), c.fix(QUARANTINE_REPLY), true)
      else if stale && !r.staleTargetRefreshed && HasFingerprint(bytes) then
        d.Again? && d.refreshed && d.replayed == replayed && d.record.requestJson == Some(WithoutFingerprint(bytes))
      else Retries(r, d, Some(NoReceipt), now)
  }

  /**
    The answer to a sent request decides what its open record stores: an accepted
    one is held as unverified unless its receipt is refused, a rejected one was not
    delivered, an uncertain one may have been, and everything else before the
    deadline is a retry that says what was seen.
   */
  lemma AnswerMeans(c: Config, r: Record, bytes: RequestJson, replayed: bool, answer: Response, now: real, retryAt: real)
    requires Calm(c) && !Closed(r) && r.requestId == c.id && r.requestJson == Some(bytes)
    requires RequestIdOf(bytes) == Some(c.id) && 0.0 <= now <= retryAt
    ensures AnswerDecides(c, r, bytes, replayed, answer, now, retryAt, AfterRpc(c, r, bytes, replayed, answer, now, retryAt))
  {
    hide Quarantine, MarkTerminal, MarkRetryable, AfterAccepted, StaleTargetRefresh, Quarantines, Retries, Calm;
    match answer
    case Accepted(_, _) => AcceptedMeans(c, r, bytes, answer, now);
    case Rejected => RejectedMeans(c, r, now);
    case Uncertain => UncertainMeans(c, r, now);
    case BadAnswer => OwnQuarantine(c, r, INVALID_RESULT, now);
    case ProcessLost =>
      OwnQuarantine(c, r, DEADLINE_REACHED, now);
      CanRetry(c, r, None, now);
    case StillInProgress =>
      OwnQuarantine(c, r, DEADLINE_REACHED, now);
      CanRetry(c, r, Some(InProgress), now);
    case NoReceiptYet(_) =>
      OwnQuarantine(c, r, DEADLINE_REACHED, now);
      OwnQuarantine(c, r, DEADLINE_REACHED, retryAt);
      CanRetry(c, r, Some(NoReceipt), now);
      RefreshMeans(c, r, bytes, retryAt);
  }

  lemma RejectedMeans(c: Config, r: Record, now: real)
    requires Calm(c) && r.requestId == c.id && r.requestJson.Some? && now >= 0.0
    ensures var d := Done(MarkTerminal(c.fix, r, TerminalRejected, now));
      && d.Answer? && d.record.state == Terminal && d.record.outcome == Some(d.child) && SameRequest(r, d.record)
      && Shows(d.record, NotDelivered, Some(TerminalRejected), PhaseTerminal, c.fix(""), true)
  {
    TerminalShows(c.fix, r, TerminalRejected, now);
  }

  lemma UncertainMeans(c: Config, r: Record, now: real)
    requires Calm(c) && r.requestId == c.id && r.requestJson.Some? && now >= 0.0
    ensures var d := Quarantine(c, r, UNCERTAIN, now, Some(TerminalUncertain));
      && d.Answer? && d.record.state == Quarantined && d.record.outcome == Some(d.child) && SameRequest(r, d.record)
      && Shows(d.record, DeliveryUnknown, Some(TerminalUncertain), PhaseTerminal, c.fix(QUARANTINE_REPLY), true)
  {
    QuarantineShows(c.fix, r, UNCERTAIN, now, Some(TerminalUncertain), QUARANTINE_REPLY, true);
  }

  lemma RefreshMeans(c: Config, r: Record, bytes: RequestJson, now: real)
    requires r.requestJson == Some(bytes) && RequestIdOf(bytes).Some? && now >= 0.0
    ensures var e := StaleTargetRefresh(r, now);
      && e.Returned?
      && (if !r.staleTargetRefreshed && HasFingerprint(bytes) then e.value.Some? && e.record.requestJson == Some(WithoutFingerprint(bytes))
          else e.value.None? && e.record == r)
  {
    if HasFingerprint(bytes) { RefreshStaysValid(bytes); }
  }

  /** The sanitizer leaves the program's own texts alone, and the request id is one. */
  ghost predicate Calm(c: Config) { Sane(c.fix) && ValidRequestId(c.id) }

  lemma OwnQuarantine(c: Config, r: Record, reason: string, now: real)
    requires Calm(c) && r.requestId == c.id && now >= 0.0
    ensures Quarantines(r, Quarantine(c, r, reason, now), c.fix(reason), c.fix(QUARANTINE_REPLY), true)
  {
    QuarantineShows(c.fix, r, reason, now, None, QUARANTINE_REPLY, true);
  }

  lemma CanRetry(c: Config, r: Record, transport: Option<Transport>, now: real)
    requires Calm(c) && r.requestId == c.id && r.requestJson.Some? && now >= 0.0 && RetryTransport(transport)
    ensures Retries(r, Done(MarkRetryable(c.fix, r, transport, now)), transport, now)
  {
    RetryableShows(c.fix, r, transport, now);
  }

  lemma RefreshStaysValid(bytes: RequestJson)
    requires HasFingerprint(bytes) && RequestIdOf(bytes).Some?
    ensures ValidCommandRequest(WithoutFingerprint(bytes).request)
  {
  }

  lemma AcceptedMeans(c: Config, r: Record, bytes: RequestJson, answer: Response, now: real)
    requires Calm(c) && !Closed(r) && r.requestId == c.id && r.requestJson == Some(bytes) && answer.Accepted? && now >= 0.0
    ensures AnswerDecides(c, r, bytes, false, answer, now, now, AfterAccepted(c, r, answer, now))
  {
    if answer.receipt.None? {
      TerminalHolds(c, r, r, now);
    } else {
      hide AttachSubmissionReceipt, MarkTerminal, QuarantineRequest, Sane, ReceiptRefused, WithOwner, BadOwner, Quarantines, HeldUnverified;
      var owned := WithOwner(r, answer.owner, now);
      var attached := AttachSubmissionReceipt(owned.record, answer.receipt.value, now);
      ReceiptAttached(r, answer.receipt.value, answer.owner, now);
      if owned.Returned? {
        if attached.Raised? { OwnQuarantine(c, attached.record, INVALID_RECEIPT, now); QuarantinesSame(r, attached.record, Quarantine(c, attached.record, INVALID_RECEIPT, now), c.fix(INVALID_RECEIPT), c.fix(QUARANTINE_REPLY)); }
        else { TerminalHolds(c, r, attached.record, now); }
      }
    }
  }

  lemma QuarantinesSame(r: Record, left: Record, d: Decision, reason: string, reply: string)
    requires SameBounds(r, left) && left.requestJson == r.requestJson && Quarantines(left, d, reason, reply, true)
    ensures Quarantines(r, d, reason, reply, true)
  {
  }

  /** An acceptance on what is left of `r` after its owner and receipt. */
  lemma TerminalHolds(c: Config, r: Record, left: Record, now: real)
    requires Calm(c) && r.requestId == c.id && SameBounds(r, left) && left.requestJson == r.requestJson && r.requestJson.Some? && now >= 0.0
    ensures var d := Done(MarkTerminal(c.fix, left, TerminalAccepted, now));
      HeldUnverified(r, d) && SameRequest(left, d.record)
  {
    TerminalShows(c.fix, left, TerminalAccepted, now);
  }

  function Owned(r: Record, owner: Option<Owner>): Record { if r.targetOwner.None? then r.(targetOwner := owner) else r }

  lemma OwnerAttached(r: Record, owner: Option<Owner>, now: real)
    requires now >= 0.0
    ensures var e := WithOwner(r, owner, now);
      && (e.Raised? <==> BadOwner(r, owner)) && SameBounds(r, e.record) && e.record.requestJson == r.requestJson
      && e.record.turnId == r.turnId && e.record.submissionId == r.submissionId && e.record.state == r.state
      && (e.Returned? ==> e.record.targetOwner == Owned(r, owner).targetOwner)
  {
    hide ValidOwner;
  }

  lemma ReceiptTaken(r: Record, receipt: Receipt, now: real)
    ensures var e := AttachSubmissionReceipt(r, receipt, now);
      && SameBounds(r, e.record) && e.record.requestJson == r.requestJson
      && (e.Raised? <==> !AcceptableReceipt(r, receipt, now) || (receipt.state == Some(Linked) && receipt.turnId.None? && r.turnId.None?))
      && (e.Returned? ==> e.record.submissionId == Some(receipt.submissionId) && e.record.submissionState == receipt.state
                          && (receipt.turnId.Some? ==> e.record.turnId == receipt.turnId))
  {
    hide AcceptableReceipt;
  }

  /** An owner and a receipt change no more than they say, and take exactly the receipts that are not refused. */
  lemma ReceiptAttached(r: Record, receipt: Receipt, owner: Option<Owner>, now: real)
    requires now >= 0.0
    ensures WithOwner(r, owner, now).Raised? <==> BadOwner(r, owner)
    ensures var e := AttachSubmissionReceipt(WithOwner(r, owner, now).record, receipt, now);
      && SameBounds(r, e.record) && e.record.requestJson == r.requestJson
      && (!BadOwner(r, owner) ==> (e.Raised? <==> ReceiptRefused(r, receipt, owner, now)))
      && (e.Returned? ==> e.record.submissionId == Some(receipt.submissionId) && e.record.submissionState == receipt.state
                          && (receipt.turnId.Some? ==> e.record.turnId == receipt.turnId))
  {
    var owned := WithOwner(r, owner, now).record;
    OwnerAttached(r, owner, now);
    ReceiptTaken(owned, receipt, now);
    if !BadOwner(r, owner) {
      assert AcceptableReceipt(owned, receipt, now) <==> AcceptableReceipt(Owned(r, owner), receipt, now);
    }
    hide AttachSubmissionReceipt, WithOwner, AcceptableReceipt, BadOwner;
  }

  // ----- what an entry decides ------------------------------------------------------------------

  predicate EntryDecides(c: Config, r: Record, now: real, route: Route, later: real, topOwner: Option<Owner>, d: Decision) {
    if now >= r.deadlineAt then Quarantines(r, d, c.fix(DEADLINE_REACHED), c.fix(QUARANTINE_REPLY), true)
    else if r.requestJson.Some? then SendsOrEnds(c, r, r.requestJson.value, later, topOwner, d)
    else match route
      case Local(reason, reply, handled) =>
        if handled || reply == "" then Quarantines(r, d, c.fix(reason), c.fix(reply), handled) else d.Fails?
      case Instruct(owner, json) =>
        if BadOwner(r, owner) then d.Fails?
        else if RequestIdOf(json) != Some(c.id) || r.state != Resolving then
          Quarantines(r, d, c.fix(CONFLICTING), c.fix(QUARANTINE_REPLY), true)
        else if later >= r.deadlineAt then
          d.Answer? && d.record.requestJson == Some(json) && Quarantines(d.record, d, c.fix(DEADLINE_REACHED), c.fix(QUARANTINE_REPLY), true)
        else if d.Fails? then BadOwner(Owned(r, owner), topOwner)
        else d.Send? && d.bytes == json && d.record.requestJson == Some(json)
  }

  predicate SendsOrEnds(c: Config, r: Record, bytes: RequestJson, later: real, topOwner: Option<Owner>, d: Decision) {
    if later >= r.deadlineAt then Quarantines(r, d, c.fix(DEADLINE_REACHED), c.fix(QUARANTINE_REPLY), true)
    else if d.Fails? then BadOwner(r, topOwner)
    else
      && d.Send? && d.bytes == bytes && d.record.requestJson == r.requestJson
      && d.record.targetOwner == (if bytes.Canonical? && bytes.request.responseV3 then Owned(r, topOwner).targetOwner else r.targetOwner)
  }

  lemma LoopTopMeans(c: Config, r: Record, later: real, topOwner: Option<Owner>)
    requires Calm(c) && !Closed(r) && r.requestId == c.id && r.requestJson.Some? && later >= 0.0
    ensures SendsOrEnds(c, r, r.requestJson.value, later, topOwner, LoopTop(c, r, later, topOwner))
  {
    OwnQuarantine(c, r, DEADLINE_REACHED, later);
    hide ValidOwner, QuarantineRequest;
  }

  /**
    What a new invocation does with an open record: past the deadline it is
    quarantined, stored bytes are sent again, a local refusal stores its own reason
    and reply, and a routed request is sent with exactly the routed bytes.
   */
  lemma EntryMeans(c: Config, r: Record, now: real, route: Route, later: real, topOwner: Option<Owner>)
    requires Calm(c) && !Closed(r) && r.requestId == c.id && 0.0 <= now <= later
    ensures EntryDecides(c, r, now, route, later, topOwner, Entry(c, r, now, route, later, topOwner))
  {
    Texts(c.fix);
    OwnQuarantine(c, r, DEADLINE_REACHED, now);
    if r.requestJson.Some? {
      LoopTopMeans(c, r, later, topOwner);
    } else if now < r.deadlineAt {
      match route
      case Local(reason, reply, handled) => LocalMeans(c, r, reason, reply, handled, later);
      case Instruct(owner, json) => InstructMeans(c, r, owner, json, later, topOwner);
    }
    hide *;
  }

  lemma LocalMeans(c: Config, r: Record, reason: string, reply: string, handled: bool, later: real)
    requires Calm(c) && r.requestId == c.id && later >= 0.0
    ensures var d := Done(QuarantineRequest(c.fix, r, reason, later, None, reply, handled));
      if handled || reply == "" then Quarantines(r, d, c.fix(reason), c.fix(reply), handled) else d.Fails?
  {
    QuarantineShows(c.fix, r, reason, later, None, reply, handled);
  }

  lemma InstructMeans(c: Config, r: Record, owner: Option<Owner>, json: RequestJson, later: real, topOwner: Option<Owner>)
    requires Calm(c) && !Closed(r) && r.requestId == c.id && r.requestJson.None? && later >= 0.0
    ensures var owned := WithOwner(r, owner, later);
      && (owned.Raised? <==> BadOwner(r, owner))
      && (owned.Returned? ==>
            var e := AttachRequestJson(owned.record, json, later);
            var d := if e.Raised? then Quarantine(c, e.record, CONFLICTING, later) else LoopTop(c, e.record, later, topOwner);
            if RequestIdOf(json) != Some(c.id) || r.state != Resolving then
              Quarantines(r, d, c.fix(CONFLICTING), c.fix(QUARANTINE_REPLY), true)
            else if later >= r.deadlineAt then
              d.Answer? && d.record.requestJson == Some(json) && Quarantines(d.record, d, c.fix(DEADLINE_REACHED), c.fix(QUARANTINE_REPLY), true)
            else if d.Fails? then BadOwner(Owned(r, owner), topOwner)
            else d.Send? && d.bytes == json && d.record.requestJson == Some(json))
  {
    hide Quarantine, QuarantineRequest, LoopTop, WithOwner, AttachRequestJson, ValidOwner, Calm, RequestIdOf, Quarantines, BadOwner;
    OwnerAttached(r, owner, later);
    var owned := WithOwner(r, owner, later);
    if owned.Returned? {
      var e := AttachRequestJson(owned.record, json, later);
      BytesAttached(c, owned.record, json, later);
      if e.Raised? {
        OwnQuarantine(c, e.record, CONFLICTING, later);
        QuarantinesSame(r, e.record, Quarantine(c, e.record, CONFLICTING, later), c.fix(CONFLICTING), c.fix(QUARANTINE_REPLY));
      } else {
        LoopTopMeans(c, e.record, later, topOwner);
        SendsAttached(c, r, owner, e.record, json, later, topOwner, LoopTop(c, e.record, later, topOwner));
      }
    }
  }

  lemma BytesAttached(c: Config, r: Record, json: RequestJson, later: real)
    requires Calm(c) && r.requestId == c.id && r.requestJson.None? && later >= 0.0
    ensures var e := AttachRequestJson(r, json, later);
      && SameBounds(r, e.record) && e.record.targetOwner == r.targetOwner
      && (e.Raised? <==> RequestIdOf(json) != Some(c.id) || r.state != Resolving) && (e.Raised? ==> e.record == r)
      && (e.Returned? ==> e.record.requestJson == Some(json) && e.record.state == Retryable)
  {
    hide RequestIdOf;
  }

  lemma SendsAttached(c: Config, r: Record, owner: Option<Owner>, r': Record, json: RequestJson, later: real, topOwner: Option<Owner>, d: Decision)
    requires SendsOrEnds(c, r', json, later, topOwner, d) && r'.requestJson == Some(json)
    requires SameBounds(r, r') && r'.targetOwner == Owned(r, owner).targetOwner
    ensures if later >= r.deadlineAt then
              d.Answer? && d.record.requestJson == Some(json) && Quarantines(d.record, d, c.fix(DEADLINE_REACHED), c.fix(QUARANTINE_REPLY), true)
            else if d.Fails? then BadOwner(Owned(r, owner), topOwner)
            else d.Send? && d.bytes == json && d.record.requestJson == Some(json)
  {
  }

  // ----- where a stored outcome comes from ---------------------------------------------------------

  /** The event that closes a record with this transport fact and verdict. */
  predicate ClosesWith(e: Event, transport: Option<Transport>, verdict: Option<Verdict>) {
    match transport
    case Some(WrittenToPty) => verdict == Some(DeliveryUnknown) && e.Reload? && e.answer.Accepted?
    case Some(TerminalRejected) => verdict == Some(NotDelivered) && e.Reload? && e.answer.Rejected?
    case Some(TerminalUncertain) => verdict == Some(DeliveryUnknown) && e.Reload? && e.answer.Uncertain?
    case None => verdict == Some(NotDelivered) && (e.Enter? || e.Reload?)
    case _ => false
  }

  lemma ClosingShows(c: Config, r: Record, reason: string, now: real, disposition: Option<Transport>)
    ensures var d := Quarantine(c, r, reason, now, disposition);
      d.Answer? ==> d.record.transport == disposition && disposition in {None, Some(TerminalUncertain)}
                    && d.record.verdict == Some(if disposition.None? then NotDelivered else DeliveryUnknown)
  {
    QuarantineShows(c.fix, r, reason, now, disposition, QUARANTINE_REPLY, true);
  }

  lemma AcceptedCloses(c: Config, r: Record, answer: Response, now: real)
    requires answer.Accepted?
    ensures var d := AfterAccepted(c, r, answer, now);
      && (d.Answer? || d.Fails?)
      && (d.Answer? ==> (d.record.transport == None && d.record.verdict == Some(NotDelivered))
                        || (d.record.transport == Some(WrittenToPty) && d.record.verdict == Some(DeliveryUnknown)))
  {
    TerminalShows(c.fix, r, TerminalAccepted, now);
    if answer.receipt.Some? {
      var left := AttachSubmissionReceipt(WithOwner(r, answer.owner, now).record, answer.receipt.value, now).record;
      TerminalShows(c.fix, left, TerminalAccepted, now);
      ClosingShows(c, left, INVALID_RECEIPT, now, None);
    }
    hide Shows, Tells, SameRequest, MarkTerminal, QuarantineRequest, WithOwner, AttachSubmissionReceipt;
  }

  predicate CloseExplained(e: Event, d: Decision) {
    d.Answer? && Closed(d.record) ==> ClosesWith(e, d.record.transport, d.record.verdict)
  }

  lemma RefusalExplained(c: Config, r: Record, e: Event, reason: string, now: real)
    requires e.Enter? || e.Reload?
    ensures CloseExplained(e, Quarantine(c, r, reason, now))
  {
    ClosingShows(c, r, reason, now, None);
    hide Quarantine;
  }

  lemma LocalExplained(c: Config, r: Record, e: Event, reason: string, now: real, reply: string, handled: bool)
    requires e.Enter?
    ensures CloseExplained(e, Done(QuarantineRequest(c.fix, r, reason, now, None, reply, handled)))
  {
    QuarantineShows(c.fix, r, reason, now, None, reply, handled);
    hide QuarantineRequest, Tells, SameRequest;
  }

  lemma TopExplained(c: Config, r: Record, e: Event, now: real, owner: Option<Owner>)
    requires e.Enter? || e.Reload?
    ensures CloseExplained(e, LoopTop(c, r, now, owner))
  {
    RefusalExplained(c, r, e, DEADLINE_REACHED, now);
    RefusalExplained(c, r, e, MISSING_JSON, now);
    hide Quarantine, ClosesWith, WithOwner;
  }

  lemma EntryCloses(c: Config, r: Record, e: Event)
    requires !Closed(r) && e.Enter?
    ensures CloseExplained(e, Entry(c, r, e.now, e.route, e.later, e.topOwner))
  {
    hide Quarantine, QuarantineRequest, ClosesWith, WithOwner, AttachRequestJson, LoopTop, CloseExplained;
    RefusalExplained(c, r, e, DEADLINE_REACHED, e.now);
    TopExplained(c, r, e, e.later, e.topOwner);
    if e.route.Local? {
      LocalExplained(c, r, e, e.route.reason, e.later, e.route.reply, e.route.handled);
    } else {
      var attached := AttachRequestJson(WithOwner(r, e.route.owner, e.later).record, e.route.json, e.later).record;
      RefusalExplained(c, attached, e, CONFLICTING, e.later);
      TopExplained(c, attached, e, e.later, e.topOwner);
      FailureExplains(e);
    }
  }

  lemma FailureExplains(e: Event)
    ensures CloseExplained(e, Fails)
  {
  }

  lemma RetryExplained(c: Config, r: Record, e: Event, transport: Option<Transport>, now: real)
    ensures CloseExplained(e, Done(MarkRetryable(c.fix, r, transport, now)))
  {
    RetryableShows(c.fix, r, transport, now);
    hide MarkRetryable;
  }

  lemma AcceptedExplained(c: Config, r: Record, e: Event)
    requires e.Reload? && e.answer.Accepted?
    ensures CloseExplained(e, AfterAccepted(c, r, e.answer, e.now))
  {
    AcceptedCloses(c, r, e.answer, e.now);
    hide AfterAccepted;
  }

  lemma RejectedExplained(c: Config, r: Record, e: Event)
    requires e.Reload? && e.answer.Rejected?
    ensures CloseExplained(e, Done(MarkTerminal(c.fix, r, TerminalRejected, e.now)))
  {
    TerminalShows(c.fix, r, TerminalRejected, e.now);
    hide MarkTerminal, Tells, SameRequest;
  }

  lemma UncertainExplained(c: Config, r: Record, e: Event)
    requires e.Reload? && e.answer.Uncertain?
    ensures CloseExplained(e, Quarantine(c, r, UNCERTAIN, e.now, Some(TerminalUncertain)))
  {
    ClosingShows(c, r, UNCERTAIN, e.now, Some(TerminalUncertain));
    hide Quarantine;
  }

  lemma StaleExplained(c: Config, r: Record, e: Event)
    requires e.Reload? && !Closed(r)
    ensures CloseExplained(e, Done(MarkRetryable(c.fix, StaleTargetRefresh(r, e.retryAt).record, Some(NoReceipt), e.now)))
  {
    RetryExplained(c, StaleTargetRefresh(r, e.retryAt).record, e, Some(NoReceipt), e.now);
  }

  lemma ReloadCloses(c: Config, r: Record, e: Event, bytes: RequestJson, replayed: bool)
    requires !Closed(r) && e.Reload?
    ensures CloseExplained(e, AfterRpc(c, r, bytes, replayed, e.answer, e.now, e.retryAt))
  {
    hide ClosesWith, Quarantine, MarkTerminal, MarkRetryable, AfterAccepted, StaleTargetRefresh, CloseExplained;
    RefusalExplained(c, r, e, CONFLICTING, e.now);
    RefusalExplained(c, r, e, DEADLINE_REACHED, e.now);
    RefusalExplained(c, r, e, DEADLINE_REACHED, e.retryAt);
    match e.answer
    case Accepted(_, _) => AcceptedExplained(c, r, e);
    case Rejected => RejectedExplained(c, r, e);
    case Uncertain => UncertainExplained(c, r, e);
    case BadAnswer => RefusalExplained(c, r, e, INVALID_RESULT, e.now);
    case ProcessLost => RetryExplained(c, r, e, None, e.now);
    case StillInProgress => RetryExplained(c, r, e, Some(InProgress), e.now); LoopsExplained(e, r);
    case NoReceiptYet(_) =>
      RetryExplained(c, r, e, Some(NoReceipt), e.now);
      StaleExplained(c, r, e);
      LoopsExplained(e, StaleTargetRefresh(r, e.retryAt).record);
  }

  lemma LoopsExplained(e: Event, r: Record)
    ensures CloseExplained(e, Fails) && forall replayed, refreshed :: CloseExplained(e, Again(r, replayed, refreshed))
  {
  }

  /** A closed record has the truth it had, or this step's event explains it. */
  predicate TruthExplained(s: System, e: Event, s': System) {
    s'.disk.Some? && Closed(s'.disk.value) ==>
      || ClosesWith(e, s'.disk.value.transport, s'.disk.value.verdict)
      || (s.disk.Some? && Closed(s.disk.value)
          && s'.disk.value.transport == s.disk.value.transport && s'.disk.value.verdict == s.disk.value.verdict)
  }

  lemma SettleTruth(s: System, r: Record, e: Event, pid: nat, d: Decision, replayed: bool, refreshed: bool, sends: nat, clock: real)
    requires CloseExplained(e, d) && !d.Again? && !Closed(r) && Sound(r, d)
    requires s.disk.Some? ==> !Closed(s.disk.value)
    ensures TruthExplained(s, e, Settle(s, pid, d, replayed, refreshed, sends, clock))
  {
    hide ClosesWith;
  }

  /** A record that answers with its outcome is left as it is. */
  lemma SettleKeeps(s: System, r: Record, e: Event, pid: nat, d: Decision, replayed: bool, refreshed: bool, sends: nat, clock: real)
    requires s.disk == Some(r) && d.Answer? && d.record == r && Closed(r)
    ensures TruthExplained(s, e, Settle(s, pid, d, replayed, refreshed, sends, clock))
  {
    hide ClosesWith;
  }

  lemma EnterTruth(c: Config, s: System, e: Event)
    requires Enabled(s, e) && e.Enter?
    ensures TruthExplained(s, e, Step(c, s, e))
  {
    var shell := Shell(c, s.disk, e.firstSeen, e.now);
    if !Corrupt(c, s.disk) && shell.Some? {
      Regions(c, s, e);
      ClosedRegions(c, s, e);
      hide Entry, ValidRecord, Sound, ClosesWith, Settle, CloseExplained;
      var d := Entry(c, shell.value, e.now, e.route, e.later, e.topOwner);
      var saved := if e.firstSeen.None? then s.(disk := shell) else s;
      if Closed(shell.value) {
        SettleKeeps(saved, shell.value, e, e.pid, d, false, false, 0, e.later);
      } else {
        EntryCloses(c, shell.value, e);
        EnterOpenTruth(s, saved, shell.value, e, d);
      }
    }
    hide ClosesWith;
  }

  /** An open shell, whether it replaced a dropped record or not. */
  lemma EnterOpenTruth(s: System, saved: System, r: Record, e: Event, d: Decision)
    requires e.Enter? && CloseExplained(e, d) && !d.Again? && !Closed(r) && Sound(r, d)
    requires saved == s || saved == s.(disk := Some(r))
    ensures TruthExplained(s, e, Settle(saved, e.pid, d, false, false, 0, e.later))
  {
    hide ClosesWith;
  }

  lemma ReloadTruth(c: Config, s: System, e: Event)
    requires Enabled(s, e) && e.Reload?
    ensures TruthExplained(s, e, Step(c, s, e))
  {
    var shell, p := Reloaded(c, s.disk, e.now), s.procs[e.pid];
    if !Corrupt(c, s.disk) && shell.Some? {
      Regions(c, s, e);
      ClosedRegions(c, s, e);
      hide AfterRpc, LoopTop, ValidRecord, ClosesWith, Settle, CloseExplained;
      var d := AfterRpc(c, shell.value, p.bytes, p.replayed, e.answer, e.now, e.retryAt);
      if Closed(shell.value) {
        SettleKeeps(s.(disk := shell), shell.value, e, e.pid, d, p.replayed, p.refreshed, p.sends, e.topAt);
      } else {
        ReloadCloses(c, shell.value, e, p.bytes, p.replayed);
        if d.Again? {
          TopExplained(c, d.record, e, e.topAt, e.topOwner);
          SettleTruth(s.(disk := Some(d.record)), d.record, e, e.pid, LoopTop(c, d.record, e.topAt, e.topOwner),
                      d.replayed, p.refreshed || d.refreshed, p.sends, e.topAt);
        } else {
          SettleTruth(s.(disk := shell), shell.value, e, e.pid, d, p.replayed, p.refreshed, p.sends, e.topAt);
        }
      }
    }
    hide ClosesWith, Settle;
  }

  lemma TruthStep(c: Config, s: System, e: Event)
    requires Enabled(s, e)
    ensures TruthExplained(s, e, Step(c, s, e))
  {
    if e.Enter? {
      EnterTruth(c, s, e);
    } else if e.Reload? {
      ReloadTruth(c, s, e);
    } else {
      AttachingKeepsTruth(c, s, e);
      hide AttachTargetOwner, AttachSubmissionReceipt, ValidRecord, ClosesWith;
    }
  }

  lemma AttachingKeepsTruth(c: Config, s: System, e: Event)
    requires Enabled(s, e)
    ensures e.OwnerSavedThenCrash? && Shell(c, s.disk, None, e.now).Some? ==>
      var r := Shell(c, s.disk, None, e.now).value;
      AttachTargetOwner(r, e.owner, e.later).record.state == r.state
    ensures e.Link? && s.disk.Some? && s.disk.value.submissionId.Some? ==>
      var r := s.disk.value;
      var r' := AttachSubmissionReceipt(r, Receipt(r.submissionId.value, Some(e.progress), e.turnId), e.now).record;
      r'.state == r.state && r'.transport == r.transport && r'.verdict == r.verdict
  {
  }

  /**
    In every run a stored truth comes from the answer that says so: an outcome that
    reports a rejection from a `Rejected` answer, an unverified acceptance from an
    `Accepted` one, an uncertain delivery from an `Uncertain` one; and what was
    refused without an answer claims no transport fact and no delivery.
   */
  lemma {:induction false} EveryOutcomeHasItsAnswer(c: Config, states: seq<System>, events: seq<Event>, n: nat)
    requires Run(c, states, events) && n <= |events|
    ensures states[n].disk.Some? && Closed(states[n].disk.value) ==>
      exists k :: 0 <= k < n && ClosesWith(events[k], states[n].disk.value.transport, states[n].disk.value.verdict)
  {
    hide Step, ClosesWith;
    if n > 0 {
      EveryOutcomeHasItsAnswer(c, states, events, n - 1);
      TruthStep(c, states[n - 1], events[n - 1]);
    }
  }

  /** And the other way round: whoever reloads an open record with such an answer stores that truth and returns it. */
  lemma AnswerIsStored(c: Config, s: System, e: Event)
    requires Calm(c) && Enabled(s, e) && e.Reload? && !Corrupt(c, s.disk) && s.disk.Some? && !Closed(s.disk.value)
    requires s.disk.value.requestJson == Some(s.procs[e.pid].bytes) && 0.0 <= e.now
    ensures var s' := Step(c, s, e);
      && (e.answer in {Rejected, Uncertain, Accepted(None, None)} ==>
            && s'.disk.Some? && Stored(s').Some? && s'.procs[e.pid] == Answered(Stored(s').value) && s'.sent == s.sent)
      && (e.answer.Rejected? ==> s'.disk.value.transport == Some(TerminalRejected) && s'.disk.value.verdict == Some(NotDelivered))
      && (e.answer.Uncertain? ==> s'.disk.value.transport == Some(TerminalUncertain) && s'.disk.value.verdict == Some(DeliveryUnknown))
      && (e.answer == Accepted(None, None) ==>
            s'.disk.value.transport == Some(WrittenToPty) && s'.disk.value.verdict == Some(DeliveryUnknown))
  {
    var r, p := s.disk.value, s.procs[e.pid];
    OwnBytes(c, r);
    AnswerMeans(c, r, p.bytes, p.replayed, e.answer, e.now, e.retryAt);
    hide AfterRpc, LoopTop, ValidRecord, Calm;
  }

  lemma OwnBytes(c: Config, r: Record)
    requires ValidRecord(c.fix, r, c.id) && r.requestJson.Some?
    ensures r.requestId == c.id && RequestIdOf(r.requestJson.value) == Some(c.id)
  {
  }
}
