/**
  What an accepted preflight has established, and what the cutover does with it:
  the receipts of the failed plan are an acknowledged prefix 0..k-1 followed only
  by failed jobs, and the prefix reappears unchanged under the replacement plan.
 */
module RecoveryPreflight {
  import opened Options
  import opened RecoveryStore

  // ----- the scan -------------------------------------------------------------------

  /** The scan accepts exactly the receipts that are an acknowledged prefix and then failed jobs. */
  lemma {:induction false} ScanExact(js: seq<Job>, i: nat, k: nat, tail: bool, plan: string, revision: string)
    requires PrefixThenFailed(js, k, i, plan, revision) && (tail <==> k < i)
    ensures ScanFrom(js, i, k, tail, plan, revision).Clean? ==>
      PrefixThenFailed(js, ScanFrom(js, i, k, tail, plan, revision).prefix, |js|, plan, revision)
    ensures ScanFrom(js, i, k, tail, plan, revision).Fault? ==>
      forall n | 0 <= n <= |js| :: !PrefixThenFailed(js, n, |js|, plan, revision)
    decreases |js| - i
  {
    if i < |js| {
      var r := js[i].receipt;
      if r.substate == Acknowledged && !tail && r.sequence == k && ValidAcknowledged(js[i], plan, revision) {
        ScanExact(js, i + 1, k + 1, tail, plan, revision);
      } else if r.substate == FailedJob {
        ScanExact(js, i + 1, k, true, plan, revision);
      } else {
        forall n | 0 <= n <= |js| ensures !PrefixThenFailed(js, n, |js|, plan, revision) {
          if i < n && k < i { assert js[k].receipt.substate == FailedJob; }
        }
      }
    }
  }

  /**
    A refusal names the first receipt that breaks the pattern: an outcome still
    waiting for its acknowledgement, an unproven reservation, or anything else.
   */
  lemma {:induction false} ScanFault(js: seq<Job>, i: nat, k: nat, tail: bool, plan: string, revision: string) returns (at: nat)
    requires PrefixThenFailed(js, k, i, plan, revision) && (tail <==> k < i)
    requires ScanFrom(js, i, k, tail, plan, revision).Fault?
    ensures i <= at < |js|
    ensures exists n :: PrefixThenFailed(js, n, at, plan, revision)
    ensures ScanFrom(js, i, k, tail, plan, revision).status ==
      if js[at].receipt.substate in {TelegramApplied, OldSlotRetired} then ReceiptInflight
      else if js[at].receipt.substate == Reserved then ReceiptUncertain else StateInvalid
    decreases |js| - i
  {
    var r := js[i].receipt;
    if r.substate == Acknowledged && !tail && r.sequence == k && ValidAcknowledged(js[i], plan, revision) {
      at := ScanFault(js, i + 1, k + 1, tail, plan, revision);
    } else if r.substate == FailedJob {
      at := ScanFault(js, i + 1, k, true, plan, revision);
    } else {
      at := i;
    }
  }

  // ----- sorting and filtering ----------------------------------------------------------

  predicate SortedBySequence(js: seq<Job>) {
    forall i, j | 0 <= i < j < |js| :: js[i].receipt.sequence <= js[j].receipt.sequence
  }

  lemma {:induction false} InsertSorted(js: seq<Job>, j: Job)
    requires SortedBySequence(js)
    ensures SortedBySequence(Insert(js, j)) && |Insert(js, j)| == |js| + 1
    ensures forall x :: x in Insert(js, j) <==> x in js || x == j
  {
    if js != [] && js[|js| - 1].receipt.sequence > j.receipt.sequence {
      var n := |js| - 1;
      InsertSorted(js[..n], j);
      var rest := Insert(js[..n], j);
      forall i | 0 <= i < |rest| ensures rest[i].receipt.sequence <= js[n].receipt.sequence {
        assert rest[i] in rest;
      }
      assert forall x :: x in js <==> x in js[..n] || x == js[n];
    }
  }

  lemma {:induction false} SortExact(js: seq<Job>)
    ensures SortedBySequence(SortBySequence(js)) && |SortBySequence(js)| == |js|
    ensures forall x :: x in SortBySequence(js) <==> x in js
  {
    if js != [] {
      var n := |js| - 1;
      SortExact(js[..n]);
      InsertSorted(SortBySequence(js[..n]), js[n]);
      assert forall x :: x in js <==> x in js[..n] || x == js[n];
    }
  }

  lemma {:induction false} SortOfSorted(js: seq<Job>)
    requires SortedBySequence(js)
    ensures SortBySequence(js) == js
  {
    if js != [] {
      var n := |js| - 1;
      SortOfSorted(js[..n]);
      assert js == js[..n] + [js[n]];
    }
  }

  lemma {:induction false} OfPlanMembers(js: seq<Job>, plan: string)
    ensures forall j :: j in OfPlan(js, plan) <==> j in js && j.receipt.plan == plan
  {
    if js != [] {
      var n := |js| - 1;
      OfPlanMembers(js[..n], plan);
      assert js == js[..n] + [js[n]];
    }
  }

  lemma {:induction false} OfPlanConcat(a: seq<Job>, b: seq<Job>, plan: string)
    ensures OfPlan(a + b, plan) == OfPlan(a, plan) + OfPlan(b, plan)
  {
    if b == [] {
      assert a + b == a;
    } else {
      var n := |b| - 1;
      assert (a + b)[..|a + b| - 1] == a + b[..n];
      OfPlanConcat(a, b[..n], plan);
    }
  }

  lemma {:induction false} AllFailed(js: seq<Job>)
    requires forall i | 0 <= i < |js| :: js[i].receipt.substate == FailedJob
    ensures CountFailed(js) == |js|
  {
    if js != [] { AllFailed(js[..|js| - 1]); }
  }

  lemma {:induction false} HoldersExact(entries: seq<Entry>, plan: string)
    ensures forall i: nat :: i in Holders(entries, plan) <==> i < |entries| && Holds(entries[i], plan)
  {
    if entries != [] { HoldersExact(entries[..|entries| - 1], plan); }
  }

  // ----- an accepted preflight -------------------------------------------------------------

  /** Everything the ledger holds for a plan is its acknowledged prefix or has failed. */
  ghost predicate Settled(jobs: seq<Job>, plan: string, revision: string, prefix: seq<Job>, failedTail: nat) {
    && AcknowledgedPrefix(prefix, |prefix|, plan, revision)
    && (forall j | j in prefix :: j in jobs)
    && (forall j | j in jobs && j.receipt.plan == plan :: j in prefix || j.receipt.substate == FailedJob)
    && |OfPlan(jobs, plan)| == |prefix| + failedTail
  }

  lemma SplitByState(js: seq<Job>, k: nat, plan: string, revision: string, j: Job)
    requires PrefixThenFailed(js, k, |js|, plan, revision) && j in js
    ensures j in js[..k] || j.receipt.substate == FailedJob
  {
    var i :| 0 <= i < |js| && js[i] == j;
    if i < k { assert js[..k][i] == j; }
  }

  lemma SettledByScan(jobs: seq<Job>, plan: string, revision: string, k: nat)
    requires var js := SortBySequence(OfPlan(jobs, plan)); PrefixThenFailed(js, k, |js|, plan, revision)
    ensures var js := SortBySequence(OfPlan(jobs, plan)); Settled(jobs, plan, revision, js[..k], CountFailed(js[k..]))
  {
    var mine := OfPlan(jobs, plan);
    var js := SortBySequence(mine);
    SortExact(mine);
    OfPlanMembers(jobs, plan);
    hide OfPlan, SortBySequence, ValidAcknowledged;
    AllFailed(js[k..]);
    forall j | j in jobs && j.receipt.plan == plan ensures j in js[..k] || j.receipt.substate == FailedJob {
      assert j in mine && j in js;
      SplitByState(js, k, plan, revision, j);
    }
    forall j | j in js[..k] ensures j in jobs { assert j in js && j in mine; }
  }

  lemma ReadyReceipts(s: Store, failed: string, at: nat, plan: Plan, inherited: int)
    requires ValidPlan(plan) && PreflightReceipts(s, failed, at, plan, inherited).Ready?
    ensures var p := PreflightReceipts(s, failed, at, plan, inherited);
      && p.at == at && p.plan == plan && p.inherited == inherited
      && Settled(s.jobs, failed, plan.revision.value, p.prefix, p.failedTail)
      && (forall m | m in s.messages :: !Unproven(m, failed, p.prefix))
      && |s.jobs| + plan.jobs.value <= JOB_LIMIT
      && (|s.audits| >= AUDIT_LIMIT ==> EvictionFrom(s, Some(failed), 0).Some?)
  {
    var js := SortBySequence(OfPlan(s.jobs, failed));
    var scan := ScanFrom(js, 0, 0, false, failed, plan.revision.value);
    ScanExact(js, 0, 0, false, failed, plan.revision.value);
    SettledByScan(s.jobs, failed, plan.revision.value, scan.prefix);
  }

  lemma ReadyEntry(s: Store, failed: string, key: string)
    requires PreflightOf(s, failed, key).Ready?
    ensures |Holders(s.entries, failed)| == 1 && Holders(s.entries, failed)[0] < |s.entries|
    ensures UniqueHolder(s.entries, failed, Holders(s.entries, failed)[0])
    ensures PreflightOf(s, failed, key) == PreflightEntry(s, failed, Holders(s.entries, failed)[0])
    ensures FindRequest(s.requests, key).None? && FindAudit(s.audits, key).None? && |s.requests| < JOB_LIMIT
  {
    hide PreflightEntry;
    HoldersExact(s.entries, failed);
    var at := Holders(s.entries, failed)[0];
    assert forall i: nat | i in Holders(s.entries, failed) :: i == at;
  }

  /**
    An unbound request passes preflight only if the failed plan is the unique plan
    of a routable entry and its receipts are an acknowledged prefix 0..k-1 followed
    only by failed jobs, with no message outside that prefix.
   */
  lemma ReadyMeans(s: Store, failed: string, key: string)
    requires PreflightOf(s, failed, key).Ready?
    ensures var p := PreflightOf(s, failed, key);
      && UniqueHolder(s.entries, failed, p.at) && s.entries[p.at].routable
      && p.plan == PlanOf(s.entries[p.at]) && ValidPlan(p.plan)
      && Inherited(s, failed, p.plan) == Some(p.inherited)
      && Settled(s.jobs, failed, p.plan.revision.value, p.prefix, p.failedTail)
      && (forall m | m in s.messages :: !Unproven(m, failed, p.prefix))
      && |s.jobs| + p.plan.jobs.value <= JOB_LIMIT
      && (|s.audits| >= AUDIT_LIMIT ==> EvictionFrom(s, Some(failed), 0).Some?)
    ensures FindRequest(s.requests, key).None? && FindAudit(s.audits, key).None? && |s.requests| < JOB_LIMIT
  {
    ReadyEntry(s, failed, key);
    var at := Holders(s.entries, failed)[0];
    ReadyReceipts(s, failed, at, PlanOf(s.entries[at]), Inherited(s, failed, PlanOf(s.entries[at])).value);
  }

  /** A first generation inherits nothing; any other inherits a positive count. */
  lemma ReadyInherits(s: Store, failed: string, key: string)
    requires PreflightOf(s, failed, key).Ready?
    ensures var p := PreflightOf(s, failed, key);
      && ValidPlan(p.plan) && p.inherited >= 0 && (p.plan.generation == 1 <==> p.inherited == 0)
      && Inherited(s, failed, p.plan) == Some(p.inherited)
      && FindRequest(s.requests, key).None? && FindAudit(s.audits, key).None?
  {
    hide PreflightOf, Inherited, Settled;
    ReadyMeans(s, failed, key);
  }

  /** A plan some request is bound to inherits that request's audit and no other. */
  lemma InheritedFrom(s: Store, failed: string, p: Plan, key: string)
    requires ValidPlan(p) && Inherited(s, failed, p).Some? && key in Candidates(s, failed)
    ensures p.generation > 1 && Inherits(s, key, failed, p)
    ensures Inherited(s, failed, p) == Some(s.audits[FindAudit(s.audits, key).value].retained)
  {
    hide Candidates;
    var keys := Candidates(s, failed);
    OnlyOne(keys, Only(keys), key);
  }

  // ----- the copied prefix -------------------------------------------------------------------

  /** `copy` is the acknowledged job `j` under another plan. */
  ghost predicate CopyOf(j: Job, copy: Job, plan: string) {
    && copy.key == Stable(plan, j.receipt.sequence)
    && copy.receipt == j.receipt.(plan := plan, substate := Acknowledged, checkpoint := copy.receipt.checkpoint)
  }

  /** The ledger only grew, by one copy per prefix job, each with a new checkpoint number. */
  ghost predicate Copied(jobs: seq<Job>, checkpoint: nat, prefix: seq<Job>, plan: string, l: Ledger) {
    && l.Done? && |l.jobs| == |jobs| + |prefix| && l.jobs[..|jobs|] == jobs && l.checkpoint >= checkpoint
    && (forall i | 0 <= i < |prefix| :: CopyOf(prefix[i], l.jobs[|jobs| + i], plan))
    && (forall i | |jobs| <= i < |l.jobs| :: checkpoint < l.jobs[i].receipt.checkpoint <= l.checkpoint)
    && (forall i, k | |jobs| <= i < k < |l.jobs| :: l.jobs[i].receipt.checkpoint < l.jobs[k].receipt.checkpoint)
  }

  predicate Copyable(j: Job, revision: string) {
    ValidAcknowledged(j, j.receipt.plan, revision) && ValidRevision(revision) && |j.receipt.botKind| <= 40
  }

  lemma FindLast(jobs: seq<Job>, j: Job)
    requires forall i | 0 <= i < |jobs| :: jobs[i].key != j.key
    ensures FindJob(jobs + [j], j.key) == Some(|jobs|)
  {
  }

  lemma UpdateLast(jobs: seq<Job>, checkpoint: nat, j: Job, next: Substate, m: Option<string>, p: Option<string>, b: Option<string>)
    requires forall i | 0 <= i < |jobs| :: jobs[i].key != j.key
    requires MayBecome(j.receipt.substate, next) && next != j.receipt.substate
    requires Settable(j.receipt.messageId, m, 80) && Settable(j.receipt.priorId, p, 80) && Settable(j.receipt.botKind, b, 40)
    requires next == TelegramApplied && j.receipt.operation == Upsert ==> Given(j.receipt.messageId, m) != ""
    requires next == TelegramApplied && j.receipt.operation == Retire ==> Given(j.receipt.priorId, p) != ""
    requires next == OldSlotRetired ==> j.receipt.operation == Upsert && Given(j.receipt.priorId, p) != ""
    ensures Update(jobs + [j], checkpoint, j.key, next, m, p, b) ==
      Done(jobs + [Job(j.key, j.receipt.(messageId := Given(j.receipt.messageId, m), priorId := Given(j.receipt.priorId, p),
                                         botKind := Given(j.receipt.botKind, b), substate := next, checkpoint := checkpoint + 1))],
           checkpoint + 1)
  {
    FindLast(jobs, j);
    var all := jobs + [j];
    assert forall x :: all[|jobs| := x] == jobs + [x];
  }

  lemma CloneOne(jobs: seq<Job>, checkpoint: nat, j: Job, plan: string, revision: string)
    requires Copyable(j, revision) && ValidPlanToken(plan) && |jobs| < JOB_LIMIT
    requires forall i | 0 <= i < |jobs| :: jobs[i].key != Stable(plan, j.receipt.sequence)
    ensures Copied(jobs, checkpoint, [j], plan, CloneReceipt(jobs, checkpoint, j.receipt, plan))
  {
    var r := j.receipt;
    var key := Stable(plan, r.sequence);
    var reserved := Job(key, r.(plan := plan, substate := Reserved, checkpoint := checkpoint + 1));
    assert Reserve(jobs, checkpoint, r.(plan := plan)) == Done(jobs + [reserved], checkpoint + 1);
    var applied := Job(key, reserved.receipt.(substate := TelegramApplied, checkpoint := checkpoint + 2));
    if r.operation == Upsert {
      UpdateLast(jobs, checkpoint + 1, reserved, TelegramApplied, Some(r.messageId), IfGiven(r.priorId), IfGiven(r.botKind));
    } else {
      UpdateLast(jobs, checkpoint + 1, reserved, TelegramApplied, None, Some(r.priorId), IfGiven(r.botKind));
    }
    if r.operation == Upsert && r.priorId != "" {
      UpdateLast(jobs, checkpoint + 2, applied, OldSlotRetired, None, None, None);
      var retired := Job(key, applied.receipt.(substate := OldSlotRetired, checkpoint := checkpoint + 3));
      UpdateLast(jobs, checkpoint + 3, retired, Acknowledged, None, None, None);
    } else {
      UpdateLast(jobs, checkpoint + 2, applied, Acknowledged, None, None, None);
    }
  }

  /** Copying a prefix into a ledger with room loses no receipt and never reaches the cleanup. */
  lemma {:induction false} CloneExact(jobs: seq<Job>, checkpoint: nat, prefix: seq<Job>, plan: string, revision: string)
    requires ValidPlanToken(plan) && |jobs| + |prefix| <= JOB_LIMIT
    requires forall i | 0 <= i < |prefix| :: Copyable(prefix[i], revision) && prefix[i].receipt.sequence == i
    requires forall j | j in jobs && j.key.Stable? :: j.key.plan != plan
    ensures Copied(jobs, checkpoint, prefix, plan, ClonePrefix(jobs, checkpoint, prefix, plan))
  {
    if prefix != [] {
      var n := |prefix| - 1;
      CloneExact(jobs, checkpoint, prefix[..n], plan, revision);
      var l := ClonePrefix(jobs, checkpoint, prefix[..n], plan);
      forall i | 0 <= i < |l.jobs| ensures l.jobs[i].key != Stable(plan, n) {
        if i < |jobs| { assert l.jobs[i] == jobs[i] && jobs[i] in jobs; }
        else { assert CopyOf(prefix[..n][i - |jobs|], l.jobs[i], plan); }
      }
      CloneOne(l.jobs, l.checkpoint, prefix[n], plan, revision);
      CopiedThen(jobs, checkpoint, prefix, plan, l, ClonePrefix(jobs, checkpoint, prefix, plan));
    }
  }

  lemma CopiedThen(jobs: seq<Job>, checkpoint: nat, prefix: seq<Job>, plan: string, l: Ledger, l': Ledger)
    requires prefix != [] && Copied(jobs, checkpoint, prefix[..|prefix| - 1], plan, l)
    requires Copied(l.jobs, l.checkpoint, [prefix[|prefix| - 1]], plan, l')
    ensures Copied(jobs, checkpoint, prefix, plan, l')
  {
    var n := |prefix| - 1;
    assert l'.jobs[..|jobs|] == l'.jobs[..|l.jobs|][..|jobs|];
    forall i | 0 <= i < |l.jobs| ensures l'.jobs[i] == l.jobs[i] { assert l'.jobs[..|l.jobs|][i] == l.jobs[i]; }
    forall i | 0 <= i < |prefix| ensures CopyOf(prefix[i], l'.jobs[|jobs| + i], plan) {
      if i < n { assert CopyOf(prefix[..n][i], l.jobs[|jobs| + i], plan); }
      else { assert CopyOf([prefix[n]][0], l'.jobs[|l.jobs| + 0], plan); }
    }
  }
}
