/**
  What the interleaved command path guarantees over whole runs: one write-once
  outcome in every retention period, no send after it or past the deadline, and
  what becomes of the outcome when retention is over.
 */
module CommandSafety {
  import opened Options
  import opened IngressRecords
  import opened RecordValidity
  import opened CommandProtocol

  function Stored(s: System): Option<Child> {
    if s.disk.Some? && Closed(s.disk.value) then s.disk.value.outcome else None
  }

  function Time(e: Event, s: System): real {
    match e
    case Enter(_, _, _, _, later, _) => later
    case OwnerSavedThenCrash(_, _, _, later) => later
    case Reload(_, _, _, _, topAt, _) => topAt
    case Link(now, _, _) => now
    case PruneElsewhere(now) => now
    case Crash(_) => s.clock
  }

  // ----- one lock-held region ----------------------------------------------------------

  /** A region that starts from an open record `r` ends in a retry, or closes the record with what it answers. */
  predicate Sound(r: Record, d: Decision) {
    match d
    case Answer(r', child) =>
      && SameBounds(r, r') && r'.staleTargetRefreshed == r.staleTargetRefreshed
      && (r.requestJson.Some? ==> r'.requestJson == r.requestJson)
      && (r.requestJson.None? && r'.requestJson.Some? ==> RequestIdOf(r'.requestJson.value) == Some(r.requestId))
      && if Closed(r') then r'.outcome == Some(child) && child.checkpoint == HoldUpdate
         else child.checkpoint == RetryUpdate
    case Send(r', bytes) =>
      && SameBounds(r, r') && !Closed(r') && r'.requestJson == Some(bytes)
      && (r.requestJson.Some? ==> r'.requestJson == r.requestJson)
      && (r.requestJson.None? ==> RequestIdOf(bytes) == Some(r.requestId))
      && r'.staleTargetRefreshed == r.staleTargetRefreshed
    case Again(r', replayed, refreshed) =>
      && SameBounds(r, r') && !Closed(r') && r.requestJson.Some?
      && (if refreshed then
            && HasFingerprint(r.requestJson.value) && !r.staleTargetRefreshed && r'.staleTargetRefreshed
            && r'.requestJson == Some(WithoutFingerprint(r.requestJson.value))
            && RequestIdOf(WithoutFingerprint(r.requestJson.value)) == Some(r.requestJson.value.request.requestId)
          else replayed && r' == r)
    case Fails => true
  }

  lemma QuarantineSound(c: Config, r: Record, reason: string, now: real, disposition: Option<Transport>, reply: string, handled: bool)
    ensures Sound(r, Done(QuarantineRequest(c.fix, r, reason, now, disposition, reply, handled)))
  {
  }

  lemma MarksSound(c: Config, r: Record, disposition: Option<Transport>, now: real)
    ensures Sound(r, Done(MarkRetryable(c.fix, r, disposition, now)))
    ensures disposition.Some? ==> Sound(r, Done(MarkTerminal(c.fix, r, disposition.value, now)))
  {
  }

  lemma LoopTopSound(c: Config, r: Record, now: real, owner: Option<Owner>)
    requires !Closed(r)
    ensures Sound(r, LoopTop(c, r, now, owner)) && !LoopTop(c, r, now, owner).Again?
    ensures LoopTop(c, r, now, owner).Send? ==> now < r.deadlineAt && r.requestJson.Some?
  {
    QuarantineSound(c, r, if now >= r.deadlineAt then DEADLINE_REACHED else MISSING_JSON, now, None, QUARANTINE_REPLY, true);
  }

  /** Nothing a decision may depend on has moved. */
  predicate Alike(r: Record, r1: Record) {
    && SameBounds(r, r1) && r1.state == r.state && r1.outcome == r.outcome
    && r1.requestJson == r.requestJson && r1.staleTargetRefreshed == r.staleTargetRefreshed
  }

  lemma AlikeSound(r: Record, r1: Record, d: Decision)
    requires Alike(r, r1) && Sound(r1, d) && !d.Again?
    ensures Sound(r, d)
  {
  }

  lemma AttachingIsAlike(r: Record, owner: Option<Owner>, receipt: Receipt, now: real)
    ensures Alike(r, WithOwner(r, owner, now).record)
    ensures Alike(r, AttachSubmissionReceipt(r, receipt, now).record)
  {
  }

  lemma AfterAcceptedSound(c: Config, r: Record, answer: Response, now: real)
    requires answer.Accepted? && !Closed(r)
    ensures var d := AfterAccepted(c, r, answer, now); Sound(r, d) && (d.Answer? || d.Fails?)
  {
    if answer.receipt.None? {
      MarksSound(c, r, Some(TerminalAccepted), now);
    } else {
      var receipt := answer.receipt.value;
      var r1 := WithOwner(r, answer.owner, now).record;
      var attached := AttachSubmissionReceipt(r1, receipt, now);
      AttachingIsAlike(r, answer.owner, receipt, now);
      AttachingIsAlike(r1, answer.owner, receipt, now);
      var quarantined := Quarantine(c, attached.record, INVALID_RECEIPT, now);
      var marked := Done(MarkTerminal(c.fix, attached.record, TerminalAccepted, now));
      QuarantineSound(c, attached.record, INVALID_RECEIPT, now, None, QUARANTINE_REPLY, true);
      MarksSound(c, attached.record, Some(TerminalAccepted), now);
      AlikeSound(r, attached.record, quarantined);
      AlikeSound(r, attached.record, marked);
    }
  }

  lemma RefreshSound(c: Config, r: Record, bytes: RequestJson, replayed: bool, now: real, retryAt: real)
    requires !Closed(r) && r.requestJson == Some(bytes) && now < r.deadlineAt && retryAt < r.deadlineAt
    ensures var d := AfterRpc(c, r, bytes, replayed, NoReceiptYet(true), now, retryAt);
      Sound(r, d) && !d.Send? && (d.Again? ==> d.refreshed && d.replayed == replayed)
  {
    MarksSound(c, r, Some(NoReceipt), now);
  }

  lemma AfterRpcSound(c: Config, r: Record, bytes: RequestJson, replayed: bool, answer: Response, now: real, retryAt: real)
    requires !Closed(r)
    ensures var d := AfterRpc(c, r, bytes, replayed, answer, now, retryAt);
      && Sound(r, d) && !d.Send?
      && (d.Again? ==> r.requestJson == Some(bytes) && (if d.refreshed then d.replayed == replayed else !replayed))
  {
    if r.requestJson != Some(bytes) {
      QuarantineSound(c, r, CONFLICTING, now, None, QUARANTINE_REPLY, true);
    } else if answer.Uncertain? {
      QuarantineSound(c, r, UNCERTAIN, now, Some(TerminalUncertain), QUARANTINE_REPLY, true);
    } else if answer.BadAnswer? {
      QuarantineSound(c, r, INVALID_RESULT, now, None, QUARANTINE_REPLY, true);
    } else if answer.Accepted? {
      AfterAcceptedSound(c, r, answer, now);
    } else if answer.Rejected? {
      MarksSound(c, r, Some(TerminalRejected), now);
    } else if now >= r.deadlineAt {
      QuarantineSound(c, r, DEADLINE_REACHED, now, None, QUARANTINE_REPLY, true);
    } else if answer.ProcessLost? {
      MarksSound(c, r, None, now);
    } else if answer.StillInProgress? {
      MarksSound(c, r, Some(InProgress), now);
    } else if !answer.staleTarget {
      MarksSound(c, r, Some(NoReceipt), now);
    } else if retryAt >= r.deadlineAt {
      QuarantineSound(c, r, DEADLINE_REACHED, retryAt, None, QUARANTINE_REPLY, true);
    } else {
      RefreshSound(c, r, bytes, replayed, now, retryAt);
    }
  }

  lemma EntrySound(c: Config, r: Record, now: real, route: Route, later: real, topOwner: Option<Owner>)
    requires !Closed(r)
    ensures var d := Entry(c, r, now, route, later, topOwner);
      && Sound(r, d) && !d.Again? && (d.Send? ==> later < r.deadlineAt)
  {
    LoopTopSound(c, r, later, topOwner);
    QuarantineSound(c, r, DEADLINE_REACHED, now, None, QUARANTINE_REPLY, true);
    if now < r.deadlineAt && r.requestJson.None? {
      match route
      case Local(reason, reply, handled) => QuarantineSound(c, r, reason, later, None, reply, handled);
      case Instruct(owner, json) => InstructSound(c, r, owner, json, later, topOwner);
    }
  }

  lemma AttachingBytes(r: Record, json: RequestJson, now: real)
    requires !Closed(r) && r.requestJson.None?
    ensures var e := AttachRequestJson(r, json, now);
      && SameBounds(r, e.record) && !Closed(e.record) && e.record.staleTargetRefreshed == r.staleTargetRefreshed
      && (if e.Raised? then e.record == r
          else e.record.requestJson == Some(json) && RequestIdOf(json) == Some(r.requestId))
  {
  }

  lemma InstructSound(c: Config, r: Record, owner: Option<Owner>, json: RequestJson, later: real, topOwner: Option<Owner>)
    requires !Closed(r) && r.requestJson.None?
    ensures var owned := WithOwner(r, owner, later);
      owned.Returned? ==>
        var e := AttachRequestJson(owned.record, json, later);
        var d := if e.Raised? then Quarantine(c, e.record, CONFLICTING, later) else LoopTop(c, e.record, later, topOwner);
        Sound(r, d) && !d.Again? && (d.Send? ==> later < r.deadlineAt)
  {
    var r1 := WithOwner(r, owner, later).record;
    var e := AttachRequestJson(r1, json, later);
    assert Alike(r, r1);
    AttachingBytes(r1, json, later);
    QuarantineSound(c, e.record, CONFLICTING, later, None, QUARANTINE_REPLY, true);
    if e.Returned? { LoopTopSound(c, e.record, later, topOwner); }
    hide WithOwner, AttachRequestJson, QuarantineRequest, LoopTop;
  }

  /** The regions an event may run, all sound. */
  lemma Regions(c: Config, s: System, e: Event)
    requires Enabled(s, e)
    ensures e.Enter? && !Corrupt(c, s.disk) ==>
      var shell := Shell(c, s.disk, e.firstSeen, e.now);
      shell.Some? && !Closed(shell.value) ==>
        var d := Entry(c, shell.value, e.now, e.route, e.later, e.topOwner);
        Sound(shell.value, d) && !d.Again? && (d.Send? ==> e.later < shell.value.deadlineAt)
    ensures e.Reload? && !Corrupt(c, s.disk) ==>
      var shell := Reloaded(c, s.disk, e.now);
      var p := s.procs[e.pid];
      shell.Some? && !Closed(shell.value) ==>
        var d := AfterRpc(c, shell.value, p.bytes, p.replayed, e.answer, e.now, e.retryAt);
        && Sound(shell.value, d) && !d.Send?
        && (d.Again? ==>
              && shell.value.requestJson == Some(p.bytes)
              && (if d.refreshed then d.replayed == p.replayed else !p.replayed)
              && var top := LoopTop(c, d.record, e.topAt, e.topOwner);
                 && Sound(d.record, top) && !top.Again? && (top.Send? ==> e.topAt < d.record.deadlineAt))
  {
    if e.Enter? {
      var shell := Shell(c, s.disk, e.firstSeen, e.now);
      if shell.Some? && !Closed(shell.value) { EntrySound(c, shell.value, e.now, e.route, e.later, e.topOwner); }
    } else if e.Reload? {
      var shell := Reloaded(c, s.disk, e.now);
      var p := s.procs[e.pid];
      if shell.Some? && !Closed(shell.value) {
        AfterRpcSound(c, shell.value, p.bytes, p.replayed, e.answer, e.now, e.retryAt);
        var d := AfterRpc(c, shell.value, p.bytes, p.replayed, e.answer, e.now, e.retryAt);
        if d.Again? { LoopTopSound(c, d.record, e.topAt, e.topOwner); }
      }
    }
  }

  lemma ClosedAnswers(c: Config, r: Record, bytes: RequestJson, replayed: bool, answer: Response, now: real, retryAt: real)
    requires Closed(r) && r.outcome.Some?
    ensures AfterRpc(c, r, bytes, replayed, answer, now, retryAt) == Answer(r, r.outcome.value)
  {
  }

  /** A closed record answers with its outcome, whatever else is known. */
  lemma ClosedRegions(c: Config, s: System, e: Event)
    requires Enabled(s, e) && !Corrupt(c, s.disk)
    ensures e.Enter? ==>
      var shell := Shell(c, s.disk, e.firstSeen, e.now);
      shell.Some? && Closed(shell.value) ==>
        shell.value.outcome.Some?
        && Entry(c, shell.value, e.now, e.route, e.later, e.topOwner) == Answer(shell.value, shell.value.outcome.value)
    ensures e.Reload? ==>
      var shell := Reloaded(c, s.disk, e.now);
      var p := s.procs[e.pid];
      shell.Some? && Closed(shell.value) ==>
        shell.value.outcome.Some?
        && AfterRpc(c, shell.value, p.bytes, p.replayed, e.answer, e.now, e.retryAt) == Answer(shell.value, shell.value.outcome.value)
  {
  }

  /** The steps outside the submit loop attach an owner or a link, and move nothing else that matters. */
  lemma AlikeRegions(c: Config, s: System, e: Event)
    requires Enabled(s, e)
    ensures e.OwnerSavedThenCrash? && Shell(c, s.disk, None, e.now).Some? ==>
      Alike(Shell(c, s.disk, None, e.now).value, AttachTargetOwner(Shell(c, s.disk, None, e.now).value, e.owner, e.later).record)
    ensures e.Link? && s.disk.Some? && s.disk.value.submissionId.Some? ==>
      Alike(s.disk.value,
            AttachSubmissionReceipt(s.disk.value, Receipt(s.disk.value.submissionId.value, Some(e.progress), e.turnId), e.now).record)
  {
    if e.Link? && s.disk.Some? && s.disk.value.submissionId.Some? {
      AttachingIsAlike(s.disk.value, None, Receipt(s.disk.value.submissionId.value, Some(e.progress), e.turnId), e.now);
    }
  }

  // ----- write-once outcome --------------------------------------------------------------

  /**
    Every answer but those of the `earlier` invocations is a retry, or the stored
    outcome; and that outcome is a hold.
   */
  ghost predicate OutcomeInv(s: System, earlier: set<nat>) {
    && (Stored(s).Some? ==> Stored(s).value.checkpoint == HoldUpdate)
    && forall p | p in s.procs && p !in earlier && s.procs[p].Answered? ::
         s.procs[p].child.checkpoint == RetryUpdate || Stored(s) == Some(s.procs[p].child)
  }

  /** The end of a region that started from `r`: the stored outcome, or a sound decision about an open record. */
  lemma SettleOutcome(s: System, r: Record, pid: nat, d: Decision, replayed: bool, refreshed: bool, sends: nat, clock: real,
                      earlier: set<nat>)
    requires OutcomeInv(s, earlier) && !d.Again?
    requires if Closed(r) then s.disk == Some(r) && r.outcome.Some? && d == Answer(r, r.outcome.value)
             else Sound(r, d) && Stored(s).None?
    ensures var s' := Settle(s, pid, d, replayed, refreshed, sends, clock);
      OutcomeInv(s', earlier) && (Stored(s).Some? ==> Stored(s') == Stored(s) && s'.sent == s.sent)
  {
  }

  lemma EnterOutcome(c: Config, s: System, e: Event, earlier: set<nat>)
    requires Enabled(s, e) && OutcomeInv(s, earlier) && !Prunes(s, e) && e.Enter?
    ensures OutcomeInv(Step(c, s, e), earlier)
    ensures Stored(s).Some? ==> Stored(Step(c, s, e)) == Stored(s) && Step(c, s, e).sent == s.sent
  {
    Regions(c, s, e);
    if !Corrupt(c, s.disk) { ClosedRegions(c, s, e); }
    var shell := Shell(c, s.disk, e.firstSeen, e.now);
    hide Entry, Settle, Sound, ValidRecord;
    if !Corrupt(c, s.disk) && shell.Some? {
      SettleOutcome(if e.firstSeen.None? then s.(disk := shell) else s, shell.value, e.pid, Entry(c, shell.value, e.now, e.route, e.later, e.topOwner), false, false, 0, e.later, earlier);
    }
  }

  lemma ReloadOutcome(c: Config, s: System, e: Event, earlier: set<nat>)
    requires Enabled(s, e) && OutcomeInv(s, earlier) && e.Reload?
    ensures OutcomeInv(Step(c, s, e), earlier)
    ensures Stored(s).Some? ==> Stored(Step(c, s, e)) == Stored(s) && Step(c, s, e).sent == s.sent
  {
    Regions(c, s, e);
    if !Corrupt(c, s.disk) { ClosedRegions(c, s, e); }
    var shell, p := Reloaded(c, s.disk, e.now), s.procs[e.pid];
    if !Corrupt(c, s.disk) && shell.Some? {
      var d := AfterRpc(c, shell.value, p.bytes, p.replayed, e.answer, e.now, e.retryAt);
      hide AfterRpc, Settle, LoopTop, ValidRecord;
      if d.Again? {
        SettleOutcome(s.(disk := Some(d.record)), d.record, e.pid, LoopTop(c, d.record, e.topAt, e.topOwner),
                      d.replayed, p.refreshed || d.refreshed, p.sends, e.topAt, earlier);
      } else {
        SettleOutcome(s.(disk := shell), shell.value, e.pid, d, p.replayed, p.refreshed, p.sends, e.topAt, earlier);
      }
    }
  }

  lemma OutcomeStep(c: Config, s: System, e: Event, earlier: set<nat>)
    requires Enabled(s, e) && OutcomeInv(s, earlier) && !Prunes(s, e)
    ensures OutcomeInv(Step(c, s, e), earlier)
    ensures Stored(s).Some? ==> Stored(Step(c, s, e)) == Stored(s) && Step(c, s, e).sent == s.sent
  {
    if e.Enter? {
      EnterOutcome(c, s, e, earlier);
    } else if e.Reload? {
      ReloadOutcome(c, s, e, earlier);
    } else {
      AlikeRegions(c, s, e);
      hide AttachTargetOwner, AttachSubmissionReceipt, ValidRecord;
    }
  }

  predicate EndedWithOutcome(s: System, p: nat) {
    p in s.procs && s.procs[p].Answered? && s.procs[p].child.checkpoint != RetryUpdate
  }

  function Ended(s: System): set<nat> { set p | p in s.procs && EndedWithOutcome(s, p) }

  /** A step that fails without having saved anything: a spooled caller's, or one without a sound record or shell. */
  predicate SavesNothing(c: Config, s: System, e: Event)
    requires Enabled(s, e)
  {
    || Corrupt(c, s.disk)
    || (e.Enter? && (e.firstSeen.Some? || Shell(c, s.disk, None, e.now).None?) && Step(c, s, e).procs[e.pid] == Dead)
    || (e.OwnerSavedThenCrash? && Shell(c, s.disk, None, e.now).None?)
  }

  /**
    A step that drops the record does what it would do had there never been one,
    or it saves nothing, and the old record stays.
   */
  lemma PruningForgets(c: Config, s: System, e: Event)
    requires Enabled(s, e) && Prunes(s, e)
    ensures var bare := s.(disk := None);
      && Enabled(bare, e) && !Prunes(bare, e)
      && if SavesNothing(c, s, e) then
           Step(c, s, e).disk == s.disk && Step(c, s, e).sent == s.sent && NothingAnswered(s, Step(c, s, e))
         else Step(c, s, e) == Step(c, bare, e)
  {
  }

  /** No invocation got an answer in this step. */
  ghost predicate NothingAnswered(s: System, s': System) {
    forall p | p in s'.procs && s'.procs[p].Answered? :: p in s.procs && s'.procs[p] == s.procs[p]
  }

  /** The first step of a period leaves every later answer to the outcome of that period. */
  lemma OpeningStep(c: Config, s: System, e: Event)
    requires Enabled(s, e) && OutcomeInv(s, Ended(s))
    ensures OutcomeInv(Step(c, s, e), Ended(s))
  {
    if Prunes(s, e) {
      PruningForgets(c, s, e);
      var bare := s.(disk := None);
      OutcomeStep(c, bare, e, Ended(s));
    } else {
      OutcomeStep(c, s, e, Ended(s));
    }
    hide Step;
  }

  lemma AnswersStay(c: Config, s: System, e: Event)
    requires Enabled(s, e)
    ensures forall p | p in s.procs && s.procs[p].Answered? ::
      p in Step(c, s, e).procs && Step(c, s, e).procs[p] in {s.procs[p], Dead}
  {
    hide Entry, AfterRpc, LoopTop, AttachTargetOwner, AttachSubmissionReceipt, ValidRecord;
  }

  /** Outcomes are holds, in the store and in every answer. */
  ghost predicate AllHolds(s: System) {
    && (Stored(s).Some? ==> Stored(s).value.checkpoint == HoldUpdate)
    && forall p | p in s.procs && s.procs[p].Answered? :: s.procs[p].child.checkpoint != AdvanceUpdate
  }

  lemma {:induction false} RunHolds(c: Config, states: seq<System>, events: seq<Event>, n: nat)
    requires Run(c, states, events) && n <= |events|
    ensures AllHolds(states[n]) && OutcomeInv(states[n], Ended(states[n]))
  {
    if n > 0 {
      RunHolds(c, states, events, n - 1);
      OpeningStep(c, states[n - 1], events[n - 1]);
      AnswersStay(c, states[n - 1], events[n - 1]);
      hide Step;
    }
  }

  /** What was stored at `m` is stored as long as nothing drops the record. */
  lemma {:induction false} OutcomeStays(c: Config, states: seq<System>, events: seq<Event>, m: nat, n: nat)
    requires Run(c, states, events) && m <= n <= |events| && Retained(states, events, m, n)
    ensures Stored(states[m]).Some? ==> Stored(states[n]) == Stored(states[m]) && states[n].sent == states[m].sent
    decreases n
  {
    if m < n {
      OutcomeStays(c, states, events, m, n - 1);
      RunHolds(c, states, events, n - 1);
      OutcomeStep(c, states[n - 1], events[n - 1], Ended(states[n - 1]));
    }
  }

  lemma {:induction false} PeriodOutcome(c: Config, states: seq<System>, events: seq<Event>, k: nat, n: nat)
    requires Run(c, states, events) && k < n <= |events| && Retained(states, events, k + 1, n)
    ensures OutcomeInv(states[n], Ended(states[k]))
    decreases n
  {
    if k + 1 == n {
      RunHolds(c, states, events, k);
      OpeningStep(c, states[k], events[k]);
    } else {
      PeriodOutcome(c, states, events, k, n - 1);
      OutcomeStep(c, states[n - 1], events[n - 1], Ended(states[k]));
    }
  }

  /** The invocation ended with an outcome after `k`, and has at `n`. */
  predicate EndedSince(states: seq<System>, k: nat, n: nat, p: nat)
    requires k <= n < |states|
  { !EndedWithOutcome(states[k], p) && EndedWithOutcome(states[n], p) }

  /**
    The outcome is write-once under racing submitters, in every retention period;
    step `k` may open the period.  Once an outcome is stored no later step of the
    period replaces it and nothing is sent any more, and any two invocations that
    end with an outcome during the period end with that one.
   */
  lemma WriteOnce(c: Config, states: seq<System>, events: seq<Event>, k: nat, m: nat, n: nat, p: nat, q: nat)
    requires Run(c, states, events) && k < m <= n <= |events| && Retained(states, events, k + 1, n)
    ensures Stored(states[m]).Some? ==> Stored(states[n]) == Stored(states[m]) && states[n].sent == states[m].sent
    ensures EndedSince(states, k, m, p) ==> Stored(states[n]) == Some(states[m].procs[p].child)
    ensures EndedSince(states, k, m, p) && EndedSince(states, k, n, q) ==>
      states[m].procs[p].child == states[n].procs[q].child
  {
    PeriodOutcome(c, states, events, k, m);
    PeriodOutcome(c, states, events, k, n);
    OutcomeStays(c, states, events, m, n);
  }

  /** The command path on its own never stores or answers a delivery, in any period: every outcome is a hold. */
  lemma NeverAdvances(c: Config, states: seq<System>, events: seq<Event>, n: nat, p: nat)
    requires Run(c, states, events) && n <= |events|
    ensures Stored(states[n]).Some? ==> Stored(states[n]).value.checkpoint == HoldUpdate
    ensures p in states[n].procs && states[n].procs[p].Answered? ==> states[n].procs[p].child.checkpoint != AdvanceUpdate
  {
    RunHolds(c, states, events, n);
  }

  /** A send happens only before the deadline, without a stored outcome, and carries the stored bytes. */
  lemma SendDiscipline(c: Config, s: System, e: Event)
    requires Enabled(s, e)
    ensures var s' := Step(c, s, e);
      s'.sent != s.sent ==>
        && s'.disk.Some? && s'.disk.value.requestJson.Some?
        && s'.sent == s.sent + [s'.disk.value.requestJson.value]
        && Time(e, s) < s'.disk.value.deadlineAt
        && !Closed(s'.disk.value) && (s.disk.Some? && !Prunes(s, e) ==> !Closed(s.disk.value))
  {
    Regions(c, s, e);
    if !Corrupt(c, s.disk) { ClosedRegions(c, s, e); }
    AlikeRegions(c, s, e);
    hide Entry, AfterRpc, LoopTop, AttachTargetOwner, AttachSubmissionReceipt, ValidRecord;
  }

  // ----- the end of retention ---------------------------------------------------------------

  /** Past `retain_until` a direct caller starts afresh: two different outcomes can then be stored in turn. */
  lemma FinalityEndsWithRetention(c: Config) returns (states: seq<System>, events: seq<Event>)
    requires ValidRequestId(c.id) && 0.0 < c.horizon < c.retention
    requires forall text :: c.fix(text) == text
    ensures Run(c, states, events) && |events| == 2 && Prunes(states[1], events[1])
    ensures Stored(states[1]).Some? && Stored(states[2]).Some? && Stored(states[1]) != Stored(states[2])
  {
    hide Entry, Settle, ValidRecord;
    var late := c.retention + 1.0;
    events := [Enter(0, 0.0, None, Local("local", "x", true), 0.0, None),
               Enter(1, late, None, Local("local", "y", true), late, None)];
    var s1 := Step(c, EMPTY_SYSTEM, events[0]);
    LocalRefusal(c, EMPTY_SYSTEM, events[0], "x");
    LocalRefusal(c, s1, events[1], "y");
    states := [EMPTY_SYSTEM, s1, Step(c, s1, events[1])];
    hide Step;
  }

  /** A direct caller that finds no retained record and refuses locally stores its own reply. */
  lemma LocalRefusal(c: Config, s: System, e: Event, reply: string)
    requires ValidRequestId(c.id) && 0.0 < c.horizon < c.retention && forall text :: c.fix(text) == text
    requires e.Enter? && e.pid !in s.procs && 0.0 <= s.clock <= e.now == e.later && e.firstSeen.None?
    requires e.route == Local("local", reply, true) && !Corrupt(c, s.disk)
    requires s.disk.Some? ==> e.now > s.disk.value.retainUntil
    ensures var s' := Step(c, s, e);
      && Stored(s').Some? && Stored(s').value.reply == reply && s'.clock == e.now && s'.procs.Keys == s.procs.Keys + {e.pid}
      && s'.disk.value.retainUntil == e.now + c.retention && !Corrupt(c, s'.disk)
  {
    var shell := NewRecord(c.id, e.now, c.horizon, c.retention).value;
    NewRecordValid(c.fix, c.id, e.now, c.horizon, c.retention);
    QuarantineValid(c.fix, shell, "local", e.now, None, reply, true);
    hide ValidRecord;
  }

  /**
    And always does so: an entry past `retain_until` saves a record with new bounds,
    and the old outcome is gone.  Stored is then what the entry answered, or nothing
    if that was a retry or a send.  An entry that fails leaves an empty shell if it
    was a direct caller's, and the old record otherwise.
   */
  lemma PruningReplacesOutcome(c: Config, s: System, e: Event)
    requires Enabled(s, e) && e.Enter? && Prunes(s, e)
    ensures var s', shell := Step(c, s, e), Shell(c, s.disk, e.firstSeen, e.now);
      match s'.procs[e.pid]
      case Answered(child) =>
        && shell.Some? && s'.disk.Some? && SameBounds(shell.value, s'.disk.value) && s'.sent == s.sent
        && Stored(s') == if child.checkpoint == RetryUpdate then None else Some(child)
      case Calling(bytes, _, _, _) =>
        && shell.Some? && s'.disk.Some? && SameBounds(shell.value, s'.disk.value) && s'.sent == s.sent + [bytes]
        && Stored(s') == None
      case Dead =>
        && s'.sent == s.sent
        && if Corrupt(c, s.disk) || shell.None? || e.firstSeen.Some? then s'.disk == s.disk
           else s'.disk == shell && Stored(s') == None
  {
    Regions(c, s, e);
    hide Entry, ValidRecord;
  }

  /**
    A spooled update restores its first-seen time, whose deadline has passed by the
    end of retention: nothing is sent a second time, and the old outcome is
    overwritten by the quarantine of a missed deadline.
   */
  lemma SpooledReplayNeverSends(c: Config, s: System, e: Event)
    requires Enabled(s, e) && e.Enter? && Prunes(s, e)
    requires e.firstSeen.Some? && e.firstSeen.value <= s.disk.value.createdAt
    requires s.disk.value.createdAt + c.horizon <= s.disk.value.retainUntil
    ensures var s', shell := Step(c, s, e), Shell(c, s.disk, e.firstSeen, e.now);
      && s'.sent == s.sent
      && (s'.procs[e.pid] != Dead ==>
            && shell.Some? && Quarantine(c, shell.value, DEADLINE_REACHED, e.now).Answer?
            && s'.disk == Some(Quarantine(c, shell.value, DEADLINE_REACHED, e.now).record)
            && Stored(s') == Some(Quarantine(c, shell.value, DEADLINE_REACHED, e.now).child))
  {
  }
}
