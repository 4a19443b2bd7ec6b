/**
  Exactly which runs of the command path leave the stored record valid.  An
  invalid record stops every later caller, so one breaking step is final.
 */
module CommandValidity {
  import opened Chars
  import opened Options
  import opened IngressRecords
  import opened RecordValidity
  import opened CommandProtocol
  import opened CommandSafety

  /** The sanitizer keeps the program's texts and settles its quarantine reasons. */
  ghost predicate Calm(c: Config) {
    && Sane(c.fix) && ValidRequestId(c.id) && 0.0 < c.horizon < c.retention
    && Settled(c.fix, DEADLINE_REACHED) && Settled(c.fix, CONFLICTING) && Settled(c.fix, MISSING_JSON)
    && Settled(c.fix, INVALID_RECEIPT) && Settled(c.fix, UNCERTAIN) && Settled(c.fix, INVALID_RESULT)
  }

  predicate GoodRecord(c: Config, r: Record, clock: real) {
    && ValidRecord(c.fix, r, c.id) && r.updatedAt <= clock
    && r.dedupWitness.None? && (r.submissionId.Some? ==> r.state == Terminal)
  }

  predicate Good(c: Config, s: System) {
    0.0 <= s.clock && (s.disk.Some? ==> GoodRecord(c, s.disk.value, s.clock))
  }

  /** A local outcome whose free texts do not settle. */
  predicate UnsettledLocal(c: Config, r: Record, now: real, route: Route) {
    && !Closed(r) && now < r.deadlineAt && r.requestJson.None?
    && route.Local? && (route.handled || route.reply == "")
    && !(Settled(c.fix, route.reason) && Settled(c.fix, route.reply))
  }

  /** An accepted answer whose receipt says linked but names no turn. */
  predicate LinkedWithoutTurn(r: Record, bytes: RequestJson, answer: Response, now: real) {
    && !Closed(r) && r.requestJson == Some(bytes) && answer.Accepted? && answer.receipt.Some?
    && WithOwner(r, answer.owner, now).Returned?
    && HalfWritten(WithOwner(r, answer.owner, now).record, answer.receipt.value, now)
  }

  /** The three ways a step can break a good record. */
  predicate Breaks(c: Config, s: System, e: Event)
    requires Enabled(s, e)
  {
    match e
    case Enter(_, now, firstSeen, route, _, _) =>
      var shell := Shell(c, s.disk, firstSeen, now);
      shell.Some? && UnsettledLocal(c, shell.value, now, route)
    case OwnerSavedThenCrash(_, now, owner, later) =>
      var shell := Shell(c, s.disk, None, now);
      && shell.Some? && shell.value.state == Resolving && now < shell.value.deadlineAt
      && shell.value.targetOwner.None? && ValidOwner(owner) && later != shell.value.updatedAt
    case Reload(pid, now, answer, _, _, _) =>
      var shell := Reloaded(c, s.disk, now);
      shell.Some? && LinkedWithoutTurn(shell.value, s.procs[pid].bytes, answer, now)
    case _ => false
  }

  /** The record a decision saves. */
  function Saved(d: Decision): Option<Record> { if d.Fails? then None else Some(d.record) }

  predicate GoodDecision(c: Config, d: Decision, clock: real) {
    Saved(d).Some? ==> GoodRecord(c, Saved(d).value, clock)
  }

  lemma QuarantineGood(c: Config, r: Record, reason: string, now: real, disposition: Option<Transport>, reply: string, handled: bool)
    requires Calm(c) && SoundBase(r) && r.requestId == c.id && r.updatedAt <= now
    requires r.dedupWitness.None? && r.submissionId.None?
    requires disposition == None || (disposition == Some(TerminalUncertain) && r.requestJson.Some?)
    ensures var d := Done(QuarantineRequest(c.fix, r, reason, now, disposition, reply, handled));
      && (d.Fails? <==> !handled && (disposition.Some? || reply != ""))
      && (d.Fails? || d.Answer?)
      && (d.Answer? ==> (GoodRecord(c, d.record, now) <==> Settled(c.fix, reason) && Settled(c.fix, reply))
                        && (ValidRecord(c.fix, d.record, c.id) <==> Settled(c.fix, reason) && Settled(c.fix, reply)))
  {
    QuarantineValid(c.fix, r, reason, now, disposition, reply, handled);
  }

  /** A quarantine with one of the program's own reasons. */
  lemma OwnQuarantineGood(c: Config, r: Record, reason: string, now: real, disposition: Option<Transport>)
    requires Calm(c) && GoodRecord(c, r, now) && !Closed(r) && Settled(c.fix, reason)
    requires disposition == None || (disposition == Some(TerminalUncertain) && r.requestJson.Some?)
    ensures GoodDecision(c, Quarantine(c, r, reason, now, disposition), now)
  {
    Texts(c.fix);
    QuarantineGood(c, r, reason, now, disposition, QUARANTINE_REPLY, true);
  }

  lemma RetryableGood(c: Config, r: Record, disposition: Option<Transport>, now: real)
    requires Calm(c) && GoodRecord(c, r, now) && !Closed(r) && RetryTransport(disposition)
    ensures GoodDecision(c, Done(MarkRetryable(c.fix, r, disposition, now)), now)
  {
    RetryableValid(c.fix, r, disposition, now);
  }

  lemma TerminalGood(c: Config, r: Record, disposition: Transport, now: real)
    requires Calm(c) && ValidRecord(c.fix, r, c.id) && r.updatedAt <= now && r.dedupWitness.None?
    ensures GoodDecision(c, Done(MarkTerminal(c.fix, r, disposition, now)), now)
  {
    MarkTerminalValid(c.fix, r, disposition, now);
  }

  lemma OwnerGood(c: Config, r: Record, owner: Option<Owner>, now: real)
    requires GoodRecord(c, r, now) && r.state == Retryable
    ensures GoodRecord(c, WithOwner(r, owner, now).record, now)
    ensures WithOwner(r, owner, now).record.state == Retryable && WithOwner(r, owner, now).record.requestJson == r.requestJson
  {
    if r.targetOwner.None? && owner.Some? { OwnerValid(c.fix, r, owner.value, now); }
  }

  lemma LoopTopGood(c: Config, r: Record, now: real, owner: Option<Owner>)
    requires Calm(c) && GoodRecord(c, r, now) && r.state == Retryable
    ensures GoodDecision(c, LoopTop(c, r, now, owner), now)
  {
    if now >= r.deadlineAt { OwnQuarantineGood(c, r, DEADLINE_REACHED, now, None); }
    else { OwnerGood(c, r, if r.requestJson.value.Canonical? && r.requestJson.value.request.responseV3 then owner else None, now); }
  }

  lemma AfterAcceptedGood(c: Config, r: Record, bytes: RequestJson, answer: Response, now: real)
    requires Calm(c) && GoodRecord(c, r, now) && r.state == Retryable && answer.Accepted? && r.requestJson == Some(bytes)
    ensures var d := AfterAccepted(c, r, answer, now);
      if LinkedWithoutTurn(r, bytes, answer, now) then d.Answer? && !ValidRecord(c.fix, d.record, c.id)
      else GoodDecision(c, d, now)
  {
    Texts(c.fix);
    if answer.receipt.None? {
      TerminalGood(c, r, TerminalAccepted, now);
    } else if WithOwner(r, answer.owner, now).Returned? {
      var receipt := answer.receipt.value;
      var r1 := WithOwner(r, answer.owner, now).record;
      OwnerGood(c, r, answer.owner, now);
      var attached := AttachSubmissionReceipt(r1, receipt, now);
      ReceiptValid(c.fix, r1, receipt, now);
      ReceiptEffect(r1, receipt, now);
      if attached.Returned? {
        TerminalGood(c, attached.record, TerminalAccepted, now);
      } else if HalfWritten(r1, receipt, now) {
        RejectedReceiptQuarantine(c.fix, r1, receipt, now, INVALID_RECEIPT);
      } else {
        OwnQuarantineGood(c, r1, INVALID_RECEIPT, now, None);
      }
    }
  }

  lemma OpenState(c: Config, r: Record, now: real)
    requires GoodRecord(c, r, now) && !Closed(r)
    ensures r.state == if r.requestJson.Some? then Retryable else Resolving
  {
  }

  lemma ClosedState(c: Config, r: Record, now: real)
    requires GoodRecord(c, r, now) && Closed(r)
    ensures r.outcome.Some?
  {
  }

  lemma StaleGood(c: Config, r: Record, now: real)
    requires GoodRecord(c, r, now) && r.state == Retryable
    ensures var e := StaleTargetRefresh(r, now);
      e.Returned? && GoodRecord(c, e.record, now) && e.record.state == Retryable && (e.value.None? ==> e.record == r)
  {
    StaleRefreshValid(c.fix, r, now);
  }

  lemma Later(c: Config, r: Record, now: real, later: real)
    requires now <= later
    ensures GoodRecord(c, r, now) ==> GoodRecord(c, r, later)
    ensures forall d | GoodDecision(c, d, now) :: GoodDecision(c, d, later)
  {
    hide ValidRecord;
  }

  lemma AfterRpcGood(c: Config, r: Record, bytes: RequestJson, replayed: bool, answer: Response, now: real, retryAt: real)
    requires Calm(c) && GoodRecord(c, r, now) && now <= retryAt
    ensures var d := AfterRpc(c, r, bytes, replayed, answer, now, retryAt);
      && (d.Again? ==> d.record.state == Retryable)
      && if LinkedWithoutTurn(r, bytes, answer, now) then d.Answer? && !ValidRecord(c.fix, d.record, c.id)
         else GoodDecision(c, d, retryAt)
  {
    hide QuarantineRequest, MarkRetryable, MarkTerminal, AfterAccepted, StaleTargetRefresh, ValidRecord, HalfWritten, WithOwner;
    Reasons(c);
    Later(c, r, now, retryAt);
    if Closed(r) {
      ClosedState(c, r, now);
    } else {
      OpenState(c, r, now);
      hide GoodRecord, Calm;
      if r.requestJson != Some(bytes) {
        OwnQuarantineGood(c, r, CONFLICTING, now, None);
      } else if answer.Uncertain? {
        OwnQuarantineGood(c, r, UNCERTAIN, now, Some(TerminalUncertain));
      } else if answer.BadAnswer? {
        OwnQuarantineGood(c, r, INVALID_RESULT, now, None);
      } else if answer.Accepted? {
        AfterAcceptedGood(c, r, bytes, answer, now);
        AfterAcceptedSound(c, r, answer, now);
      } else if answer.Rejected? {
        RejectedGood(c, r, now);
      } else if now >= r.deadlineAt {
        OwnQuarantineGood(c, r, DEADLINE_REACHED, now, None);
      } else if answer.NoReceiptYet? && answer.staleTarget {
        StaleGood(c, r, retryAt);
        OwnQuarantineGood(c, r, DEADLINE_REACHED, retryAt, None);
        RetryableGood(c, r, Some(NoReceipt), now);
      } else {
        RetryableGood(c, r, if answer.ProcessLost? then None else if answer.StillInProgress? then Some(InProgress) else Some(NoReceipt), now);
      }
    }
  }

  lemma Reasons(c: Config)
    requires Calm(c)
    ensures Settled(c.fix, DEADLINE_REACHED) && Settled(c.fix, CONFLICTING) && Settled(c.fix, INVALID_RESULT) && Settled(c.fix, UNCERTAIN)
  {
  }

  lemma RejectedGood(c: Config, r: Record, now: real)
    requires Calm(c) && GoodRecord(c, r, now)
    ensures GoodDecision(c, Done(MarkTerminal(c.fix, r, TerminalRejected, now)), now)
  {
    TerminalGood(c, r, TerminalRejected, now);
  }

  lemma InstructGood(c: Config, r: Record, owner: Option<Owner>, json: RequestJson, later: real, topOwner: Option<Owner>)
    requires Calm(c) && GoodRecord(c, r, later) && r.state == Resolving
    requires WithOwner(r, owner, later).Returned?
    ensures var e := AttachRequestJson(WithOwner(r, owner, later).record, json, later);
      GoodDecision(c, if e.Raised? then Quarantine(c, e.record, CONFLICTING, later) else LoopTop(c, e.record, later, topOwner), later)
  {
    Texts(c.fix);
    var r1 := WithOwner(r, owner, later).record;
    var e := AttachRequestJson(r1, json, later);
    if e.Raised? {
      QuarantineGood(c, r1, CONFLICTING, later, None, QUARANTINE_REPLY, true);
    } else {
      assert GoodRecord(c, e.record, later);
      LoopTopGood(c, e.record, later, topOwner);
    }
  }

  lemma EntryGood(c: Config, r: Record, now: real, route: Route, later: real, topOwner: Option<Owner>)
    requires Calm(c) && GoodRecord(c, r, now) && now <= later
    ensures var d := Entry(c, r, now, route, later, topOwner);
      if UnsettledLocal(c, r, now, route) then d.Answer? && !ValidRecord(c.fix, d.record, c.id)
      else GoodDecision(c, d, later)
  {
    if Closed(r) {
    } else if now >= r.deadlineAt {
      OwnQuarantineGood(c, r, DEADLINE_REACHED, now, None);
    } else if r.requestJson.Some? {
      LoopTopGood(c, r, later, topOwner);
    } else {
      match route
      case Local(reason, reply, handled) => QuarantineGood(c, r, reason, later, None, reply, handled);
      case Instruct(owner, json) =>
        if WithOwner(r, owner, later).Returned? { InstructGood(c, r, owner, json, later, topOwner); }
    }
  }

  lemma LinkGood(c: Config, r: Record, now: real, progress: SubmissionState, turnId: Option<string>)
    requires GoodRecord(c, r, now) && r.submissionId.Some? && (progress == Linked ==> turnId.Some?)
    ensures GoodRecord(c, AttachSubmissionReceipt(r, Receipt(r.submissionId.value, Some(progress), turnId), now).record, now)
  {
    var receipt := Receipt(r.submissionId.value, Some(progress), turnId);
    ReceiptValid(c.fix, r, receipt, now);
    ReceiptEffect(r, receipt, now);
  }

  lemma ShellGood(c: Config, s: System, firstSeen: Option<real>, now: real)
    requires Calm(c) && Good(c, s) && s.clock <= now
    ensures Shell(c, s.disk, firstSeen, now).Some? ==> GoodRecord(c, Shell(c, s.disk, firstSeen, now).value, now)
    ensures Reloaded(c, s.disk, now).Some? && GoodRecord(c, Reloaded(c, s.disk, now).value, now)
  {
    NewRecordValid(c.fix, c.id, if firstSeen.Some? && firstSeen.value < now then firstSeen.value else now, c.horizon, c.retention);
    NewRecordValid(c.fix, c.id, now, c.horizon, c.retention);
  }

  lemma SettleGood(c: Config, s: System, pid: nat, d: Decision, replayed: bool, refreshed: bool, sends: nat, clock: real)
    requires 0.0 <= s.clock <= clock && !d.Again? && GoodDecision(c, d, clock)
    requires s.disk.Some? ==> GoodRecord(c, s.disk.value, clock)
    ensures Good(c, Settle(s, pid, d, replayed, refreshed, sends, clock))
  {
  }

  lemma EntryNeverLoops(c: Config, r: Record, now: real, route: Route, later: real, topOwner: Option<Owner>)
    ensures !Entry(c, r, now, route, later, topOwner).Again?
  {
    if !Closed(r) { EntrySound(c, r, now, route, later, topOwner); }
    hide LoopTop, QuarantineRequest, WithOwner, AttachRequestJson;
  }

  lemma EnterValidity(c: Config, s: System, e: Event)
    requires Calm(c) && Good(c, s) && Enabled(s, e) && e.Enter?
    ensures if Breaks(c, s, e) then Corrupt(c, Step(c, s, e).disk) else Good(c, Step(c, s, e))
  {
    ShellGood(c, s, e.firstSeen, e.now);
    var shell := Shell(c, s.disk, e.firstSeen, e.now);
    if shell.Some? {
      var d := Entry(c, shell.value, e.now, e.route, e.later, e.topOwner);
      EntryGood(c, shell.value, e.now, e.route, e.later, e.topOwner);
      EntryNeverLoops(c, shell.value, e.now, e.route, e.later, e.topOwner);
      hide Entry, ValidRecord, UnsettledLocal;
      if !Breaks(c, s, e) { SettleGood(c, if e.firstSeen.None? then s.(disk := shell) else s, e.pid, d, false, false, 0, e.later); }
    }
  }

  lemma ReloadValidity(c: Config, s: System, e: Event)
    requires Calm(c) && Good(c, s) && Enabled(s, e) && e.Reload?
    ensures if Breaks(c, s, e) then Corrupt(c, Step(c, s, e).disk) else Good(c, Step(c, s, e))
  {
    hide AfterRpc, LoopTop, ValidRecord, LinkedWithoutTurn, GoodDecision, Settle;
    ShellGood(c, s, None, e.now);
    var r, p := Reloaded(c, s.disk, e.now).value, s.procs[e.pid];
    var d := AfterRpc(c, r, p.bytes, p.replayed, e.answer, e.now, e.retryAt);
    AfterRpcGood(c, r, p.bytes, p.replayed, e.answer, e.now, e.retryAt);
    GoodIsValid(c, s);
    Later(c, r, e.now, e.retryAt);
    Later(c, r, e.retryAt, e.topAt);
    if LinkedWithoutTurn(r, p.bytes, e.answer, e.now) {
      BrokenSettles(c, s.(disk := Some(r)), e.pid, d, p.replayed, p.refreshed, p.sends, e.topAt);
    } else if d.Again? {
      AgainGood(c, d, e.retryAt, e.topAt);
      LoopTopGood(c, d.record, e.topAt, e.topOwner);
      LoopTopSound(c, d.record, e.topAt, e.topOwner);
      SettleGood(c, s.(disk := Some(d.record)), e.pid, LoopTop(c, d.record, e.topAt, e.topOwner), d.replayed, p.refreshed || d.refreshed, p.sends, e.topAt);
    } else {
      SettleGood(c, s.(disk := Some(r)), e.pid, d, p.replayed, p.refreshed, p.sends, e.topAt);
    }
  }

  lemma AgainGood(c: Config, d: Decision, now: real, later: real)
    requires d.Again? && GoodDecision(c, d, now) && now <= later && d.record.state == Retryable
    ensures GoodRecord(c, d.record, later) && !Closed(d.record)
  {
    hide ValidRecord;
  }

  lemma BrokenSettles(c: Config, s: System, pid: nat, d: Decision, replayed: bool, refreshed: bool, sends: nat, clock: real)
    requires d.Answer? && !ValidRecord(c.fix, d.record, c.id)
    ensures Corrupt(c, Settle(s, pid, d, replayed, refreshed, sends, clock).disk)
  {
    hide ValidRecord;
  }

  lemma OwnerCrashValidity(c: Config, s: System, e: Event)
    requires Calm(c) && Good(c, s) && Enabled(s, e) && e.OwnerSavedThenCrash?
    ensures if Breaks(c, s, e) then Corrupt(c, Step(c, s, e).disk) else Good(c, Step(c, s, e))
  {
    ShellGood(c, s, None, e.now);
    var shell := Shell(c, s.disk, None, e.now);
    if shell.Some? {
      OwnerValid(c.fix, shell.value, e.owner, e.later);
      OwnerFieldsOnly(shell.value, e.owner, e.later);
    }
    hide ValidRecord, AttachTargetOwner, ValidOwner;
  }

  lemma OwnerFieldsOnly(r: Record, owner: Owner, now: real)
    ensures var e := AttachTargetOwner(r, owner, now);
      && e.record == r.(targetOwner := e.record.targetOwner, updatedAt := e.record.updatedAt)
      && (e.record == r || e.record.updatedAt == now)
      && (r.targetOwner.None? && ValidOwner(owner) && now >= 0.0 ==> e.record.targetOwner == Some(owner) && e.record.updatedAt == now)
      && (r.targetOwner.Some? || !ValidOwner(owner) ==> e.record == r)
  {
    hide ValidOwner;
  }

  lemma LinkValidity(c: Config, s: System, e: Event)
    requires Calm(c) && Good(c, s) && Enabled(s, e) && (e.Link? || e.Crash? || e.PruneElsewhere?)
    ensures !Breaks(c, s, e) && Good(c, Step(c, s, e))
  {
    if e.Link? && s.disk.Some? && s.disk.value.submissionId.Some? {
      LinkGood(c, s.disk.value, e.now, e.progress, e.turnId);
    }
    hide AttachSubmissionReceipt, ValidRecord;
  }

  /** A step from a good state stays good, or breaks the record for good. */
  lemma ValidityStep(c: Config, s: System, e: Event)
    requires Calm(c) && Good(c, s) && Enabled(s, e)
    ensures if Breaks(c, s, e) then Corrupt(c, Step(c, s, e).disk) else Good(c, Step(c, s, e))
  {
    if e.Enter? {
      EnterValidity(c, s, e);
    } else if e.Reload? {
      ReloadValidity(c, s, e);
    } else if e.OwnerSavedThenCrash? {
      OwnerCrashValidity(c, s, e);
    } else {
      LinkValidity(c, s, e);
    }
    hide Step, Breaks, Good, Corrupt;
  }

  /** An invalid record stops every caller before it can repair, prune, answer or send. */
  lemma CorruptIsFinal(c: Config, s: System, e: Event)
    requires Enabled(s, e) && Corrupt(c, s.disk)
    ensures var s' := Step(c, s, e);
      && s'.disk == s.disk && s'.sent == s.sent
      && forall p | p in s'.procs && s'.procs[p] != Dead :: p in s.procs && s'.procs[p] == s.procs[p]
  {
  }

  /**
    The stored record of a run is valid exactly when none of its steps was an
    unsettled local outcome, a crash between the two saves of a direct caller, or
    an accepted answer with a linked receipt that names no turn.  One such step
    leaves an invalid record that no later caller repairs, answers or sends.
   */
  lemma {:induction false} ValidExactlyIfUnbroken(c: Config, states: seq<System>, events: seq<Event>, n: nat)
    requires Calm(c) && Run(c, states, events) && n <= |events|
    ensures Corrupt(c, states[n].disk) <==> exists k :: 0 <= k < n && Breaks(c, states[k], events[k]) && Good(c, states[k])
    ensures !Corrupt(c, states[n].disk) ==> Good(c, states[n])
  {
    hide Step, Breaks, Good, Calm, ValidRecord;
    if n == 0 {
      StartIsGood(c);
    } else {
      ValidExactlyIfUnbroken(c, states, events, n - 1);
      var s, e := states[n - 1], events[n - 1];
      assert Enabled(s, e) && states[n] == Step(c, s, e);
      if Corrupt(c, s.disk) {
        var k :| 0 <= k < n - 1 && Breaks(c, states[k], events[k]) && Good(c, states[k]);
        CorruptIsFinal(c, s, e);
      } else {
        ValidityStep(c, s, e);
        GoodIsValid(c, states[n]);
      }
    }
  }

  // ----- each of the three does occur ---------------------------------------------------------

  /** A refusal whose reason the sanitizer does not settle breaks the first entry. */
  lemma UnsettledReasonOccurs(c: Config, reason: string)
    requires Calm(c) && !Settled(c.fix, reason)
    ensures var e := Enter(0, 0.0, None, Local(reason, "", true), 0.0, None);
      Enabled(EMPTY_SYSTEM, e) && Breaks(c, EMPTY_SYSTEM, e) && Corrupt(c, Step(c, EMPTY_SYSTEM, e).disk)
  {
    StartIsGood(c);
    ValidityStep(c, EMPTY_SYSTEM, Enter(0, 0.0, None, Local(reason, "", true), 0.0, None));
    hide Step, Corrupt;
  }

  /** A direct caller that dies a second later, after saving the owner alone, leaves an invalid record. */
  lemma OwnerCrashOccurs(c: Config, owner: Owner)
    requires Calm(c) && ValidOwner(owner)
    ensures var e := OwnerSavedThenCrash(0, 0.0, owner, 1.0);
      Enabled(EMPTY_SYSTEM, e) && Breaks(c, EMPTY_SYSTEM, e) && Corrupt(c, Step(c, EMPTY_SYSTEM, e).disk)
  {
    StartIsGood(c);
    ValidityStep(c, EMPTY_SYSTEM, OwnerSavedThenCrash(0, 0.0, owner, 1.0));
    hide Step, Corrupt;
  }

  /** A sent request, accepted at once with a linked receipt that names no turn, does too. */
  lemma LinkedWithoutTurnOccurs(c: Config, request: Request, owner: Owner, submission: string)
    requires Calm(c) && ValidOwner(owner) && NonBlank(submission) && |submission| <= 200
    requires ValidCommandRequest(request) && request.requestId == c.id
    ensures var enter := Enter(0, 0.0, None, Instruct(None, Canonical(request)), 0.0, None);
      var answer := Accepted(Some(Receipt(submission, Some(Linked), None)), Some(owner));
      var reload := Reload(0, 0.0, answer, 0.0, 0.0, None);
      && Enabled(EMPTY_SYSTEM, enter)
      && var s := Step(c, EMPTY_SYSTEM, enter);
         Enabled(s, reload) && Breaks(c, s, reload) && Corrupt(c, Step(c, s, reload).disk)
  {
    var enter := Enter(0, 0.0, None, Instruct(None, Canonical(request)), 0.0, None);
    var answer := Accepted(Some(Receipt(submission, Some(Linked), None)), Some(owner));
    StartIsGood(c);
    ValidityStep(c, EMPTY_SYSTEM, enter);
    var s := Step(c, EMPTY_SYSTEM, enter);
    SendsAtOnce(c, request);
    hide Step, Corrupt, ValidCommandRequest;
    ValidityStep(c, s, Reload(0, 0.0, answer, 0.0, 0.0, None));
  }

  lemma SendsAtOnce(c: Config, request: Request)
    requires Calm(c) && ValidCommandRequest(request) && request.requestId == c.id
    ensures var s := Step(c, EMPTY_SYSTEM, Enter(0, 0.0, None, Instruct(None, Canonical(request)), 0.0, None));
      && s.disk.Some? && s.disk.value.state == Retryable && s.disk.value.requestJson == Some(Canonical(request))
      && s.disk.value.submissionId.None? && s.disk.value.submissionState.None? && s.disk.value.turnId.None?
      && s.disk.value.targetOwner.None? && s.disk.value.submittedAt.None? && s.disk.value.createdAt == 0.0
      && s.procs == map[0 := Calling(Canonical(request), false, false, 1)] && s.clock == 0.0
  {
    hide ValidCommandRequest;
  }

  lemma StartIsGood(c: Config)
    ensures Good(c, EMPTY_SYSTEM) && !Corrupt(c, EMPTY_SYSTEM.disk)
  {
  }

  lemma GoodIsValid(c: Config, s: System)
    ensures Good(c, s) ==> !Corrupt(c, s.disk)
  {
  }

  lemma BoundsStep(c: Config, s: System, e: Event)
    requires Enabled(s, e) && !Prunes(s, e) && s.disk.Some?
    ensures Step(c, s, e).disk.Some? && SameBounds(s.disk.value, Step(c, s, e).disk.value)
  {
    Regions(c, s, e);
    if !Corrupt(c, s.disk) { ClosedRegions(c, s, e); }
    AlikeRegions(c, s, e);
    hide Entry, AfterRpc, LoopTop, AttachTargetOwner, AttachSubmissionReceipt, ValidRecord;
  }

  /** As long as no step drops it, the lifecycle bounds of a record never move. */
  lemma {:induction false} BoundsNeverMove(c: Config, states: seq<System>, events: seq<Event>, k: nat, n: nat)
    requires Run(c, states, events) && k <= n <= |events| && Retained(states, events, k, n) && states[k].disk.Some?
    ensures states[n].disk.Some? && SameBounds(states[k].disk.value, states[n].disk.value)
    decreases n
  {
    hide Step, Prunes;
    if k < n {
      BoundsNeverMove(c, states, events, k, n - 1);
      BoundsStep(c, states[n - 1], events[n - 1]);
    }
  }
}
