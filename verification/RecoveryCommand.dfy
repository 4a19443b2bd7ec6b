/**
  The recovery command as it runs: scanning loops over the store's tables, and a
  cutover that rewrites a copy of the store in place and is saved only when it
  completes.  Every method is proved equal to the function it implements.
 */
module RecoveryCommand {
  import opened Options
  import opened RecoveryStore

  class RecoveryState {
    var entries: seq<Entry>
    var jobs: seq<Job>
    var checkpoint: nat
    var messages: seq<MessageBinding>
    var requests: seq<RequestBinding>
    var audits: seq<Audit>

    function View(): Store
      reads this
    { Store(entries, jobs, checkpoint, messages, requests, audits) }

    constructor (s: Store)
      ensures View() == s
    {
      entries, jobs, checkpoint := s.entries, s.jobs, s.checkpoint;
      messages, requests, audits := s.messages, s.requests, s.audits;
    }

    method EvictionKey(released: Option<string>) returns (r: Option<nat>)
      ensures r == EvictionFrom(View(), released, 0)
    {
      var i := 0;
      while i < |audits|
        invariant i <= |audits| && EvictionFrom(View(), released, 0) == EvictionFrom(View(), released, i)
      {
        if Evictable(View(), released, audits[i]) { return Some(i); }
        i := i + 1;
      }
      return None;
    }

    method MatchingEntries(failed: string) returns (matches: seq<nat>)
      ensures matches == Holders(entries, failed)
    {
      matches := [];
      for i := 0 to |entries|
        invariant matches == Holders(entries[..i], failed)
      {
        assert entries[..i + 1][..i] == entries[..i];
        if Holds(entries[i], failed) { matches := matches + [i]; }
      }
      assert entries[..|entries|] == entries;
    }

    /** The failed plan's receipts in ledger order; None if one has another revision. */
    method CollectReceipts(failed: string, revision: string) returns (found: Option<seq<Job>>)
      ensures found == if SameRevision(jobs, failed, revision) then Some(OfPlan(jobs, failed)) else None
    {
      var receipts: seq<Job> := [];
      for i := 0 to |jobs|
        invariant receipts == OfPlan(jobs[..i], failed)
        invariant forall k | 0 <= k < i && jobs[k].receipt.plan == failed :: jobs[k].receipt.revision == revision
      {
        assert jobs[..i + 1][..i] == jobs[..i];
        if jobs[i].receipt.plan == failed {
          if jobs[i].receipt.revision != revision { return None; }
          receipts := receipts + [jobs[i]];
        }
      }
      assert jobs[..|jobs|] == jobs;
      return Some(receipts);
    }

    static method ScanReceipts(js: seq<Job>, failed: string, revision: string) returns (scan: Scan, prefix: seq<Job>)
      ensures scan == ScanFrom(js, 0, 0, false, failed, revision)
      ensures scan.Clean? ==> scan.prefix <= |js| && prefix == js[..scan.prefix]
    {
      prefix := [];
      var expected := 0;
      var tail := false;
      var i := 0;
      while i < |js|
        invariant 0 <= expected <= i <= |js| && prefix == js[..expected] && (!tail ==> expected == i)
        invariant ScanFrom(js, 0, 0, false, failed, revision) == ScanFrom(js, i, expected, tail, failed, revision)
      {
        var r := js[i].receipt;
        if r.substate == TelegramApplied || r.substate == OldSlotRetired { return Fault(ReceiptInflight), prefix; }
        if r.substate == Reserved { return Fault(ReceiptUncertain), prefix; }
        if r.substate == Acknowledged {
          if tail || r.sequence != expected { return Fault(StateInvalid), prefix; }
          if !ValidAcknowledged(js[i], failed, revision) { return Fault(StateInvalid), prefix; }
          prefix := prefix + [js[i]];
          expected := expected + 1;
        } else if r.substate == FailedJob {
          tail := true;
        } else {
          return Fault(StateInvalid), prefix;
        }
        i := i + 1;
      }
      scan := Clean(expected);
    }

    static method CountTail(js: seq<Job>) returns (n: nat)
      ensures n == CountFailed(js)
    {
      n := 0;
      for i := 0 to |js|
        invariant n == CountFailed(js[..i])
      {
        assert js[..i + 1][..i] == js[..i];
        if js[i].receipt.substate == FailedJob { n := n + 1; }
      }
      assert js[..|js|] == js;
    }

    method PreflightLedger(failed: string, at: nat, p: Plan, inherited: int) returns (r: Preflight)
      requires ValidPlan(p)
      ensures r == PreflightReceipts(View(), failed, at, p, inherited)
    {
      var receipts := CollectReceipts(failed, p.revision.value);
      if receipts.None? { return Refused(StateInvalid); }
      var js := SortBySequence(receipts.value);
      var scan, prefix := ScanReceipts(js, failed, p.revision.value);
      if scan.Fault? { return Refused(scan.status); }
      if exists m | m in messages :: Unproven(m, failed, prefix) { return Refused(ReceiptUncertain); }
      if |jobs| + p.jobs.value > JOB_LIMIT { return Refused(CapacityExceeded); }
      if |audits| >= AUDIT_LIMIT {
        var victim := EvictionKey(Some(failed));
        if victim.None? { return Refused(CapacityExceeded); }
      }
      var tail := CountTail(js[|prefix|..]);
      return Ready(at, p, prefix, tail, inherited);
    }

    method Preflight(failed: string, key: string) returns (r: Preflight)
      ensures r == PreflightOf(View(), failed, key)
    {
      var bound := FindRequest(requests, key);
      var detail := FindAudit(audits, key);
      if bound.Some? {
        var b := requests[bound.value];
        if b.failed != failed || !ValidPlanToken(b.plan) || detail.None? || audits[detail.value].failed != failed
           || audits[detail.value].plan != b.plan {
          return Refused(RequestConflict);
        }
        return Replay(audits[detail.value]);
      }
      if detail.Some? { return Refused(RequestConflict); }
      if |requests| >= JOB_LIMIT { return Refused(CapacityExceeded); }
      var matches := MatchingEntries(failed);
      if |matches| != 1 || matches[0] >= |entries| { return Refused(PlanNotFound); }
      var at := matches[0];
      if !entries[at].routable { return Refused(RouteAmbiguous); }
      var p := PlanOf(entries[at]);
      if !ValidPlan(p) { return Refused(StateInvalid); }
      var inherited := Inherited(View(), failed, p);
      if inherited.None? { return Refused(StateInvalid); }
      r := PreflightLedger(failed, at, p, inherited.value);
    }

    method ReserveJob(want: Receipt) returns (done: bool)
      modifies this`jobs, this`checkpoint
      ensures done <==> Reserve(old(jobs), old(checkpoint), want).Done?
      ensures done ==> Done(jobs, checkpoint) == Reserve(old(jobs), old(checkpoint), want)
      ensures !done ==> jobs == old(jobs) && checkpoint == old(checkpoint)
    {
      var l := Reserve(jobs, checkpoint, want);
      if !l.Done? { return false; }
      var at := FindJob(jobs, Stable(want.plan, want.sequence));
      if at.None? {
        checkpoint := checkpoint + 1;
        jobs := jobs + [Job(Stable(want.plan, want.sequence), want.(substate := Reserved, checkpoint := checkpoint))];
      }
      done := true;
    }

    method UpdateJob(key: JobKey, next: Substate, messageId: Option<string>, priorId: Option<string>, botKind: Option<string>)
      returns (done: bool)
      modifies this`jobs, this`checkpoint
      ensures done <==> Update(old(jobs), old(checkpoint), key, next, messageId, priorId, botKind).Done?
      ensures done ==> Done(jobs, checkpoint) == Update(old(jobs), old(checkpoint), key, next, messageId, priorId, botKind)
    {
      var at := FindJob(jobs, key);
      if at.None? { return false; }
      var r := jobs[at.value].receipt;
      var current := r.substate;
      if !MayBecome(current, next) { return false; }
      if !Settable(r.messageId, messageId, 80) || !Settable(r.priorId, priorId, 80) || !Settable(r.botKind, botKind, 40) {
        return false;
      }
      if messageId.Some? { r := r.(messageId := messageId.value); }
      if priorId.Some? { r := r.(priorId := priorId.value); }
      if botKind.Some? { r := r.(botKind := botKind.value); }
      if next == TelegramApplied && r.operation == Upsert && r.messageId == "" { return false; }
      if next == TelegramApplied && r.operation == Retire && r.priorId == "" { return false; }
      if next == OldSlotRetired && (r.operation != Upsert || r.priorId == "") { return false; }
      if next != current || messageId.Some? || priorId.Some? || botKind.Some? {
        checkpoint := checkpoint + 1;
        jobs := jobs[at.value := Job(key, r.(substate := next, checkpoint := checkpoint))];
      }
      done := true;
    }

    method CloneReceiptInto(r: Receipt, plan: string) returns (done: bool)
      modifies this`jobs, this`checkpoint
      ensures done <==> CloneReceipt(old(jobs), old(checkpoint), r, plan).Done?
      ensures done ==> Done(jobs, checkpoint) == CloneReceipt(old(jobs), old(checkpoint), r, plan)
    {
      var key := Stable(plan, r.sequence);
      done := ReserveJob(r.(plan := plan));
      if !done { return; }
      if r.operation == Upsert {
        done := UpdateJob(key, TelegramApplied, Some(r.messageId), IfGiven(r.priorId), IfGiven(r.botKind));
        if !done { return; }
        if r.priorId != "" {
          done := UpdateJob(key, OldSlotRetired, None, None, None);
          if !done { return; }
        }
      } else {
        done := UpdateJob(key, TelegramApplied, None, Some(r.priorId), IfGiven(r.botKind));
        if !done { return; }
      }
      done := UpdateJob(key, Acknowledged, None, None, None);
    }

    method CloneJobs(prefix: seq<Job>, plan: string) returns (done: bool, keys: map<JobKey, JobKey>)
      modifies this`jobs, this`checkpoint
      ensures done <==> ClonePrefix(old(jobs), old(checkpoint), prefix, plan).Done?
      ensures done ==> Done(jobs, checkpoint) == ClonePrefix(old(jobs), old(checkpoint), prefix, plan)
      ensures done ==> keys == KeyMap(prefix, plan)
    {
      keys := map[];
      var i := 0;
      while i < |prefix|
        invariant i <= |prefix| && keys == KeyMap(prefix[..i], plan)
        invariant Done(jobs, checkpoint) == ClonePrefix(old(jobs), old(checkpoint), prefix[..i], plan)
      {
        assert prefix[..i + 1][..i] == prefix[..i];
        done := CloneReceiptInto(prefix[i].receipt, plan);
        if !done {
          FailureSticks(old(jobs), old(checkpoint), prefix, plan, i + 1);
          return;
        }
        keys := keys[prefix[i].key := Stable(plan, prefix[i].receipt.sequence)];
        i := i + 1;
      }
      assert prefix[..|prefix|] == prefix;
      done := true;
    }

    method RebindMessages(failed: string, plan: string, keys: map<JobKey, JobKey>)
      modifies this`messages
      ensures messages == RebindAll(old(messages), failed, plan, keys)
    {
      for i := 0 to |messages|
        invariant |messages| == |old(messages)|
        invariant forall k | 0 <= k < i :: messages[k] == Rebind(old(messages)[k], failed, plan, keys)
        invariant forall k | i <= k < |messages| :: messages[k] == old(messages)[k]
      {
        var m := messages[i];
        if m.plan == failed && m.job.Some? && m.job.value in keys {
          messages := messages[i := MessageBinding(plan, Some(keys[m.job.value]))];
        }
      }
    }

    method CutoverEntry(at: nat, failed: string, plan: string, prefix: nat, executable: int, generation: int)
      requires at < |entries|
      modifies this`entries
      ensures entries == old(entries)[at := Cutover(old(entries)[at], failed, plan, prefix, executable, generation)]
    {
      var e := entries[at];
      if e.pendingRevision.None? { e := e.(pendingRevision := e.abandonedRevision); }
      if e.pendingTurn.None? { e := e.(pendingTurn := e.abandonedTurn); }
      if e.pendingParts.None? { e := e.(pendingParts := e.abandonedParts); }
      e := e.(abandoned := None, abandonedRevision := None, abandonedTurn := None, abandonedParts := None);
      e := e.(abandonedJobs := None, abandonedGeneration := None, abandonedPredecessor := None);
      e := e.(pending := Some(plan), pendingJobs := Some(prefix + executable), pendingGeneration := Some(generation));
      e := e.(acknowledgedPrefix := Some(prefix), predecessor := Some(failed));
      entries := entries[at := e];
    }

    /** The in-place cutover; a false result stands for an exception, with the copy half rewritten. */
    method CloneRecoveryPrefix(failed: string, at: nat, prefix: seq<Job>, key: string, r: Response) returns (done: bool)
      modifies this
      ensures done <==> Replace(old(View()), failed, at, prefix, key, r).Some?
      ensures done ==> View() == Replace(old(View()), failed, at, prefix, key, r).value
    {
      var keys;
      done, keys := CloneJobs(prefix, r.plan);
      if !done { return; }
      RebindMessages(failed, r.plan, keys);
      if at >= |entries| || !Holds(entries[at], failed) { return false; }
      CutoverEntry(at, failed, r.plan, |prefix|, r.executable, r.generation);
      if FindRequest(requests, key).Some? || |requests| >= JOB_LIMIT { return false; }
      requests := requests + [RequestBinding(key, failed, r.plan, r.generation)];
      if FindAudit(audits, key).Some? { return false; }
      if |audits| >= AUDIT_LIMIT {
        var victim := EvictionKey(None);
        if victim.None? { return false; }
        audits := audits[..victim.value] + audits[victim.value + 1..];
      }
      audits := audits + [AuditOf(r, key)];
    }

    /**
      The command: nothing is saved unless the preflight, the validation and the
      whole cutover succeed, and a replayed request id never changes the store.
     */
    method RecoverTurnFinal(failed: string, key: string, r: Response) returns (reply: Reply)
      modifies this
      ensures (View(), reply) == Recover(old(View()), failed, key, r)
    {
      hide PreflightOf, Replace;
      if !ValidPlanToken(failed) { return Failure(InvalidRequest); }
      var before := Preflight(failed, key);
      if before.Refused? { return Failure(before.status); }
      if !r.ok { return ProviderFailure; }
      if before.Replay? {
        var a := before.audit;
        var valid := ValidResponse(r, failed, a.revision, a.prefix, a.prefix + a.executable, a.generation, a.retained);
        if !valid || AuditOf(r, a.key) != a || !r.idempotentReplay { return Failure(StateUncertain); }
        return Recovered(r);
      }
      if before.plan.revision.None? || before.plan.jobs.None? { return Failure(StateUncertain); }
      var retained := before.inherited + before.failedTail;
      if !ValidResponse(r, failed, before.plan.revision.value, |before.prefix|, before.plan.jobs.value,
                        before.plan.generation + 1, retained) {
        return Failure(StateUncertain);
      }
      var candidate := new RecoveryState(View());
      var done := candidate.CloneRecoveryPrefix(failed, before.at, before.prefix, key, r);
      if !done { return Crash; }
      entries, jobs, checkpoint := candidate.entries, candidate.jobs, candidate.checkpoint;
      messages, requests, audits := candidate.messages, candidate.requests, candidate.audits;
      return Recovered(r);
    }
  }

  /** A copy that raised stays raised. */
  lemma {:induction false} FailureSticks(jobs: seq<Job>, checkpoint: nat, prefix: seq<Job>, plan: string, n: nat)
    requires n <= |prefix| && !ClonePrefix(jobs, checkpoint, prefix[..n], plan).Done?
    ensures !ClonePrefix(jobs, checkpoint, prefix, plan).Done?
  {
    if n == |prefix| {
      assert prefix[..n] == prefix;
    } else {
      assert prefix[..|prefix| - 1][..n] == prefix[..n];
      FailureSticks(jobs, checkpoint, prefix[..|prefix| - 1], plan, n);
    }
  }
}
