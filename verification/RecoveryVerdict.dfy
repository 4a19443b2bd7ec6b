/**
  When a turn-final recovery may go ahead, in both directions, and which refusal
  comes back when it may not.
 */
module RecoveryVerdict {
  import opened Options
  import opened RecoveryStore
  import opened RecoveryPreflight

  // ----- the facts a verdict rests on -------------------------------------------------

  predicate Unbound(s: Store, key: string) { FindRequest(s.requests, key).None? && FindAudit(s.audits, key).None? }

  /** The receipts of a plan in the order of their sequence numbers. */
  function Receipts(s: Store, plan: string): seq<Job> { SortBySequence(OfPlan(s.jobs, plan)) }

  /** The plan has a routable owner, sound coordinates and an identified past. */
  predicate Identified(s: Store, failed: string, at: nat) {
    && UniqueHolder(s.entries, failed, at) && s.entries[at].routable
    && ValidPlan(PlanOf(s.entries[at])) && Inherited(s, failed, PlanOf(s.entries[at])).Some?
    && SameRevision(s.jobs, failed, PlanOf(s.entries[at]).revision.value)
  }

  predicate RoomFor(s: Store, failed: string, jobs: int) {
    && |s.jobs| + jobs <= JOB_LIMIT
    && (|s.audits| >= AUDIT_LIMIT ==> exists i :: 0 <= i < |s.audits| && Evictable(s, Some(failed), s.audits[i]))
  }

  /** Everything a recovery of this plan with a prefix of `k` receipts needs. */
  predicate Recoverable(s: Store, failed: string, key: string, at: nat, k: nat) {
    && Unbound(s, key) && |s.requests| < JOB_LIMIT && Identified(s, failed, at)
    && var js := Receipts(s, failed);
    && PrefixThenFailed(js, k, |js|, failed, PlanOf(s.entries[at]).revision.value)
    && (forall m | m in s.messages :: !Unproven(m, failed, js[..k]))
    && RoomFor(s, failed, PlanOf(s.entries[at]).jobs.value)
  }

  // ----- small facts -----------------------------------------------------------------------

  lemma {:induction false} HoldersOf(entries: seq<Entry>, plan: string, at: nat)
    requires UniqueHolder(entries, plan, at)
    ensures Holders(entries, plan) == [at]
  {
    var n := |entries| - 1;
    if at == n {
      NoHolders(entries[..n], plan);
    } else {
      HoldersOf(entries[..n], plan, at);
    }
  }

  lemma {:induction false} NoHolders(entries: seq<Entry>, plan: string)
    requires forall i | 0 <= i < |entries| :: !Holds(entries[i], plan)
    ensures Holders(entries, plan) == []
  {
    if entries != [] { NoHolders(entries[..|entries| - 1], plan); }
  }

  lemma HolderIsUnique(entries: seq<Entry>, plan: string)
    requires |Holders(entries, plan)| == 1
    ensures UniqueHolder(entries, plan, Holders(entries, plan)[0])
  {
    HoldersExact(entries, plan);
    var at := Holders(entries, plan)[0];
    assert forall i: nat | i in Holders(entries, plan) :: i == at;
  }

  lemma OnePrefix(js: seq<Job>, k: nat, n: nat, plan: string, revision: string)
    requires PrefixThenFailed(js, k, |js|, plan, revision) && PrefixThenFailed(js, n, |js|, plan, revision)
    ensures k == n
  {
    hide ValidAcknowledged;
    var i := if k < n then k else n;
    if i < |js| { var substate := js[i].receipt.substate; }
  }

  /** The scan finds exactly that prefix. */
  lemma ScanFinds(js: seq<Job>, k: nat, plan: string, revision: string)
    requires PrefixThenFailed(js, k, |js|, plan, revision)
    ensures ScanFrom(js, 0, 0, false, plan, revision) == Clean(k)
  {
    hide ScanFrom, ValidAcknowledged;
    ScanExact(js, 0, 0, false, plan, revision);
    if ScanFrom(js, 0, 0, false, plan, revision).Clean? {
      OnePrefix(js, k, ScanFrom(js, 0, 0, false, plan, revision).prefix, plan, revision);
    }
  }

  // ----- when a recovery is ready -------------------------------------------------------------

  lemma RecoverableIsReady(s: Store, failed: string, key: string, at: nat, k: nat)
    requires Recoverable(s, failed, key, at, k)
    ensures var js, p := Receipts(s, failed), PlanOf(s.entries[at]);
      PreflightOf(s, failed, key) == Ready(at, p, js[..k], |js| - k, Inherited(s, failed, p).value)
  {
    HoldersOf(s.entries, failed, at);
    var js, p := Receipts(s, failed), PlanOf(s.entries[at]);
    ScanFinds(js, k, failed, p.revision.value);
    FailedTail(js, k, failed, p.revision.value);
    hide Holders, ScanFrom, SortBySequence, OfPlan, CountFailed, Inherited, ValidPlan, FindRequest, FindAudit, ValidAcknowledged, PlanOf, Evictable;
  }

  lemma FailedTail(js: seq<Job>, k: nat, plan: string, revision: string)
    requires PrefixThenFailed(js, k, |js|, plan, revision)
    ensures CountFailed(js[k..]) == |js| - k
  {
    hide ValidAcknowledged;
    AllFailed(js[k..]);
  }

  /**
    Preflight lets a recovery go ahead if and only if its request is unbound, the
    failed plan has a unique routable holder with sound coordinates and an
    identified past, its receipts are an acknowledged prefix and then failed jobs,
    no message lies outside that prefix, and every table has room.  It then names
    exactly that prefix, and as many failed jobs as follow it.
   */
  lemma ReadyExactly(s: Store, failed: string, key: string)
    ensures PreflightOf(s, failed, key).Ready? <==> exists at: nat, k: nat :: Recoverable(s, failed, key, at, k)
    ensures forall at: nat, k: nat | Recoverable(s, failed, key, at, k) ::
      var js, p := Receipts(s, failed), PlanOf(s.entries[at]);
      PreflightOf(s, failed, key) == Ready(at, p, js[..k], |js| - k, Inherited(s, failed, p).value)
  {
    forall at: nat, k: nat | Recoverable(s, failed, key, at, k)
      ensures var js, p := Receipts(s, failed), PlanOf(s.entries[at]);
        PreflightOf(s, failed, key) == Ready(at, p, js[..k], |js| - k, Inherited(s, failed, p).value)
    {
      RecoverableIsReady(s, failed, key, at, k);
    }
    if PreflightOf(s, failed, key).Ready? { ReadyIsRecoverable(s, failed, key); }
    hide PreflightOf, Recoverable;
  }

  lemma ReadyIsRecoverable(s: Store, failed: string, key: string)
    requires PreflightOf(s, failed, key).Ready?
    ensures Recoverable(s, failed, key, PreflightOf(s, failed, key).at, |PreflightOf(s, failed, key).prefix|)
  {
    ReadyEntry(s, failed, key);
    var at := Holders(s.entries, failed)[0];
    var js, p := Receipts(s, failed), PlanOf(s.entries[at]);
    var scan := ScanFrom(js, 0, 0, false, failed, p.revision.value);
    ScanExact(js, 0, 0, false, failed, p.revision.value);
    hide Holders, ScanFrom, SortBySequence, OfPlan, CountFailed, Inherited, ValidPlan, FindRequest, FindAudit, ValidAcknowledged, PlanOf, Evictable, Unproven;
    assert PreflightOf(s, failed, key) == PreflightReceipts(s, failed, at, p, Inherited(s, failed, p).value);
  }

  // ----- which refusal comes back -----------------------------------------------------------------

  /** The first `m` receipts are no acknowledged prefix followed by failed jobs. */
  ghost predicate NoPrefix(js: seq<Job>, m: nat, plan: string, revision: string) {
    forall n: nat :: !PrefixThenFailed(js, n, m, plan, revision)
  }

  /** The first receipt that breaks the pattern is `js[at]`. */
  ghost predicate BreaksAt(js: seq<Job>, at: nat, plan: string, revision: string) {
    at < |js| && !NoPrefix(js, at, plan, revision) && NoPrefix(js, at + 1, plan, revision)
  }

  /** Its receipts say why a plan is not settled: the first that breaks the pattern, or a foreign message, or no room. */
  ghost predicate ReceiptsRefused(s: Store, failed: string, p: Plan, status: Status)
    requires ValidPlan(p)
  {
    var js := Receipts(s, failed);
    || (exists b: nat :: BreaksAt(js, b, failed, p.revision.value) && status == FaultOf(js[b].receipt.substate))
    || (exists k: nat :: PrefixThenFailed(js, k, |js|, failed, p.revision.value) && TablesRefuse(s, failed, p, js[..k], status))
  }

  ghost predicate TablesRefuse(s: Store, failed: string, p: Plan, prefix: seq<Job>, status: Status)
    requires ValidPlan(p)
  {
    if exists m :: m in s.messages && Unproven(m, failed, prefix) then status == ReceiptUncertain
    else !RoomFor(s, failed, p.jobs.value) && status == CapacityExceeded
  }

  /** What an unbound request is refused with, fact by fact in the order they are looked at. */
  ghost predicate RefusedFor(s: Store, failed: string, key: string, status: Status) {
    if FindAudit(s.audits, key).Some? then status == RequestConflict
    else if |s.requests| >= JOB_LIMIT then status == CapacityExceeded
    else if forall at: nat :: !UniqueHolder(s.entries, failed, at) then status == PlanNotFound
    else exists at: nat :: UniqueHolder(s.entries, failed, at) && RefusedBy(s, failed, at, status)
  }

  ghost predicate RefusedBy(s: Store, failed: string, at: nat, status: Status)
    requires at < |s.entries|
  {
    if !s.entries[at].routable then status == RouteAmbiguous
    else if !Identified(s, failed, at) then status == StateInvalid
    else ReceiptsRefused(s, failed, PlanOf(s.entries[at]), status)
  }

  lemma {:induction false} FaultBreaks(js: seq<Job>, i: nat, k: nat, tail: bool, plan: string, revision: string) returns (at: nat)
    requires PrefixThenFailed(js, k, i, plan, revision) && (tail <==> k < i)
    requires ScanFrom(js, i, k, tail, plan, revision).Fault?
    ensures BreaksAt(js, at, plan, revision)
    ensures ScanFrom(js, i, k, tail, plan, revision).status ==
      if js[at].receipt.substate == Acknowledged then StateInvalid else FaultOf(js[at].receipt.substate)
    decreases |js| - i
  {
    var r := js[i].receipt;
    if r.substate == Acknowledged && !tail && r.sequence == k && ValidAcknowledged(js[i], plan, revision) {
      at := FaultBreaks(js, i + 1, k + 1, tail, plan, revision);
    } else if r.substate == FailedJob {
      at := FaultBreaks(js, i + 1, k, true, plan, revision);
    } else {
      at := i;
      assert k < i ==> js[k].receipt.substate == FailedJob;
      assert PrefixThenFailed(js, k, i, plan, revision);
    }
  }

  lemma RefusedReceipts(s: Store, failed: string, at: nat)
    requires Identified(s, failed, at)
    requires var p := PlanOf(s.entries[at]); PreflightReceipts(s, failed, at, p, Inherited(s, failed, p).value).Refused?
    ensures var p := PlanOf(s.entries[at]);
      ReceiptsRefused(s, failed, p, PreflightReceipts(s, failed, at, p, Inherited(s, failed, p).value).status)
  {
    var js, p := Receipts(s, failed), PlanOf(s.entries[at]);
    var scan := ScanFrom(js, 0, 0, false, failed, p.revision.value);
    hide ScanFrom, Inherited, ValidAcknowledged, Unproven, PlanOf, CountFailed, Evictable;
    if scan.Fault? {
      var b := FaultBreaks(js, 0, 0, false, failed, p.revision.value);
      hide BreaksAt, PrefixThenFailed;
    } else {
      ScanExact(js, 0, 0, false, failed, p.revision.value);
      TablesDecide(s, failed, at, p, Inherited(s, failed, p).value, scan.prefix);
      hide PrefixThenFailed, TablesRefuse, PreflightReceipts;
    }
  }

  lemma TablesDecide(s: Store, failed: string, at: nat, p: Plan, inherited: int, k: nat)
    requires ValidPlan(p) && SameRevision(s.jobs, failed, p.revision.value) && k <= |Receipts(s, failed)|
    requires ScanFrom(Receipts(s, failed), 0, 0, false, failed, p.revision.value) == Clean(k)
    requires PreflightReceipts(s, failed, at, p, inherited).Refused?
    ensures TablesRefuse(s, failed, p, Receipts(s, failed)[..k], PreflightReceipts(s, failed, at, p, inherited).status)
  {
    hide ScanFrom, Unproven, CountFailed, Evictable, SortBySequence, OfPlan, SameRevision, ValidPlan;
  }

  /** Every refusal of an unbound request names the first fact that stands in its way. */
  lemma RefusalExactly(s: Store, failed: string, key: string)
    requires FindRequest(s.requests, key).None? && PreflightOf(s, failed, key).Refused?
    ensures RefusedFor(s, failed, key, PreflightOf(s, failed, key).status)
  {
    hide PreflightReceipts, Inherited, ValidPlan, PlanOf, ReceiptsRefused, FindAudit, FindRequest;
    var holders := Holders(s.entries, failed);
    if FindAudit(s.audits, key).None? && |s.requests| < JOB_LIMIT {
      if |holders| == 1 {
        HolderIsUnique(s.entries, failed);
        var at := holders[0];
        if Identified(s, failed, at) { RefusedReceipts(s, failed, at); }
        RefusedAt(s, failed, key, at);
      } else {
        forall at: nat ensures !UniqueHolder(s.entries, failed, at) {
          if UniqueHolder(s.entries, failed, at) { HoldersOf(s.entries, failed, at); }
        }
      }
    }
  }

  lemma RefusedAt(s: Store, failed: string, key: string, at: nat)
    requires UniqueHolder(s.entries, failed, at) && PreflightEntry(s, failed, at).Refused?
    ensures var status := PreflightEntry(s, failed, at).status;
      !s.entries[at].routable ==> status == RouteAmbiguous
    ensures s.entries[at].routable && !Identified(s, failed, at) ==> PreflightEntry(s, failed, at).status == StateInvalid
    ensures Identified(s, failed, at) ==>
      PreflightEntry(s, failed, at) == PreflightReceipts(s, failed, at, PlanOf(s.entries[at]), Inherited(s, failed, PlanOf(s.entries[at])).value)
  {
    hide Inherited, ValidPlan, PlanOf;
  }
}
