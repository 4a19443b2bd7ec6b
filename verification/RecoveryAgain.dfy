/**
  What an accepted recovery is good for afterwards: its replacement can be
  recovered in turn, and its request can be replayed for as long as its audit is kept.
 */
module RecoveryAgain {
  import opened Options
  import opened RecoveryStore
  import opened RecoveryPreflight
  import opened RecoveryVerdict
  import opened RecoveryChain

  // ----- the inherited count ---------------------------------------------------------

  /** No request, audit or entry names this plan. */
  predicate Unnamed(s: Store, plan: string) {
    && (forall b | b in s.requests :: b.plan != plan) && (forall x | x in s.audits :: x.plan != plan)
    && (forall i | 0 <= i < |s.entries| :: !Holds(s.entries[i], plan))
  }

  lemma {:induction false} FoundAudit(audits: seq<Audit>, a: Audit)
    requires a in audits && forall x | x in audits && x.key == a.key :: x == a
    ensures FindAudit(audits, a.key).Some? && audits[FindAudit(audits, a.key).value] == a
  {
  }

  lemma NamedOnce(s: Store, next: Store, audit: Audit, b: RequestBinding)
    requires Unnamed(s, b.plan) && audit.key == b.key && audit.plan == b.plan
    requires next.requests == s.requests + [b] && audit in next.audits && forall x | x in next.audits :: x in s.audits || x == audit
    ensures Candidates(next, b.plan) == {b.key}
  {
    assert next.requests[|s.requests|] == b;
  }

  /** Only the request that put this plan in place names it. */
  lemma OnlyItsRequest(s: Store, a: Act, next: Store)
    requires Accepted(s, a) && Unnamed(s, a.response.plan)
    requires var s' := Recover(s, a.failed, a.key, a.response).0; next.audits == s'.audits && next.requests == s'.requests
    ensures Candidates(next, a.response.plan) == {a.key}
    ensures FindAudit(next.audits, a.key).Some? && next.audits[FindAudit(next.audits, a.key).value] == AuditOf(a.response, a.key)
    ensures FindRequest(next.requests, a.key).Some?
    ensures next.requests[FindRequest(next.requests, a.key).value] == RequestBinding(a.key, a.failed, a.response.plan, a.response.generation)
  {
    hide Recover, PreflightOf, Replace, Inherited, Candidates;
    var r, audit, binding := a.response, AuditOf(a.response, a.key), RequestBinding(a.key, a.failed, a.response.plan, a.response.generation);
    var s' := Recover(s, a.failed, a.key, a.response).0;
    AcceptedTables(s, a);
    assert s'.audits[|s'.audits| - 1] == audit;
    FreshAudit(s, a, s');
    BoundAfter(s, a, s');
    hide FindAudit, FindRequest;
    FoundAudit(next.audits, audit);
    NamedOnce(s, next, audit, binding);
  }

  /** The coordinates of the replacement. */
  function NextPlan(p: Plan, failed: string): Plan { p.(generation := p.generation + 1, predecessor := Some(failed)) }

  lemma InheritsFrom(next: Store, key: string, failed: string, r: Response, p: Plan)
    requires ValidPlan(p) && p.generation > 1 && p.predecessor == Some(failed) && ValidPlanToken(failed)
    requires r.failed == failed && r.plan != failed && p.revision == Some(r.revision) && p.jobs == Some(r.prefix + r.executable)
    requires r.active && r.generation == p.generation && r.prefix >= 0 && r.executable >= 0 && r.priorAttempts >= 0
    requires Candidates(next, r.plan) == {key}
    requires FindAudit(next.audits, key).Some? && next.audits[FindAudit(next.audits, key).value] == AuditOf(r, key)
    requires FindRequest(next.requests, key).Some?
    requires next.requests[FindRequest(next.requests, key).value] == RequestBinding(key, failed, r.plan, r.generation)
    ensures Inherited(next, r.plan, p) == if r.retained > 0 then Some(r.retained) else None
  {
    hide Candidates, FindAudit, FindRequest, ValidPlanToken, PlausibleRevision;
    assert Only(Candidates(next, r.plan)) == key;
  }

  /** A recovery that left failed jobs behind is inherited with exactly its count; one that left none never is. */
  lemma AcceptedIsInherited(s: Store, a: Act, next: Store)
    requires Accepted(s, a) && Unnamed(s, a.response.plan)
    requires var s' := Recover(s, a.failed, a.key, a.response).0; next.audits == s'.audits && next.requests == s'.requests
    ensures Basis(s, a).Ready? && ValidPlan(Basis(s, a).plan)
    ensures var p := NextPlan(Basis(s, a).plan, a.failed);
      && ValidPlan(p)
      && Inherited(next, a.response.plan, p) == if a.response.retained > 0 then Some(a.response.retained) else None
  {
    hide Recover, PreflightOf, Replace, Inherited, Candidates, FindAudit, FindRequest, ValidPlanToken, PlausibleRevision, Unnamed;
    OnlyItsRequest(s, a, next);
    AcceptedBasis(s, a);
    ValidFailed(s, a);
    InheritsFrom(next, a.key, a.failed, a.response, NextPlan(Basis(s, a).plan, a.failed));
  }

  lemma ValidFailed(s: Store, a: Act)
    requires Accepted(s, a)
    ensures ValidPlanToken(a.failed)
  {
    hide PreflightOf, Replace, PreflightBound;
  }

  // ----- recovering what was recovered -------------------------------------------------------

  /** The executable suffix of a replacement, all failed, in order and behind the prefix. */
  predicate FailedSuffix(tail: seq<Job>, plan: string, revision: string, prefix: nat) {
    && (forall i | 0 <= i < |tail| :: tail[i].receipt.plan == plan && tail[i].receipt.revision == revision
                                      && tail[i].receipt.substate == FailedJob && tail[i].receipt.sequence >= prefix)
    && forall i, j | 0 <= i < j < |tail| :: tail[i].receipt.sequence <= tail[j].receipt.sequence
  }

  lemma SuffixReceipts(jobs: seq<Job>, copies: seq<Job>, tail: seq<Job>, plan: string, revision: string)
    requires forall i | 0 <= i < |jobs| :: jobs[i].receipt.plan != plan
    requires AcknowledgedPrefix(copies, |copies|, plan, revision) && FailedSuffix(tail, plan, revision, |copies|)
    ensures SortBySequence(OfPlan(jobs + copies + tail, plan)) == copies + tail
    ensures PrefixThenFailed(copies + tail, |copies|, |copies + tail|, plan, revision)
    ensures SameRevision(jobs + copies + tail, plan, revision)
  {
    hide ValidAcknowledged, SortBySequence, OfPlan, AcknowledgedPrefix, PrefixThenFailed, SortedBySequence, SameRevision;
    PlanOfAll(copies, plan, revision);
    SuffixSorted(copies, tail, plan, revision);
    SuffixRevision(jobs, copies, tail, plan, revision);
    hide FailedSuffix;
    assert forall i | 0 <= i < |tail| :: tail[i].receipt.plan == plan by { SuffixPlan(tail, plan, revision, |copies|); }
    OfPlanConcat(jobs + copies, tail, plan);
    OfPlanConcat(jobs, copies, plan);
    NoneOfPlan(jobs, plan);
    AllOfPlan(copies, plan);
    AllOfPlan(tail, plan);
    assert [] + copies + tail == copies + tail;
    SortOfSorted(copies + tail);
  }

  lemma SuffixPlan(tail: seq<Job>, plan: string, revision: string, prefix: nat)
    requires FailedSuffix(tail, plan, revision, prefix)
    ensures forall i | 0 <= i < |tail| :: tail[i].receipt.plan == plan && tail[i].receipt.revision == revision
  {
  }

  lemma SuffixRevision(jobs: seq<Job>, copies: seq<Job>, tail: seq<Job>, plan: string, revision: string)
    requires forall i | 0 <= i < |jobs| :: jobs[i].receipt.plan != plan
    requires AcknowledgedPrefix(copies, |copies|, plan, revision) && FailedSuffix(tail, plan, revision, |copies|)
    ensures SameRevision(jobs + copies + tail, plan, revision)
  {
    PlanOfAll(copies, plan, revision);
    SuffixPlan(tail, plan, revision, |copies|);
    hide AcknowledgedPrefix, FailedSuffix;
    var all := jobs + copies + tail;
    forall i | 0 <= i < |all| ensures all[i].receipt.plan == plan ==> all[i].receipt.revision == revision {
      assert all[i] == if i < |jobs| then jobs[i] else if i < |jobs| + |copies| then copies[i - |jobs|] else tail[i - |jobs| - |copies|];
    }
  }

  lemma PlanOfAll(copies: seq<Job>, plan: string, revision: string)
    requires AcknowledgedPrefix(copies, |copies|, plan, revision)
    ensures forall i | 0 <= i < |copies| :: copies[i].receipt.plan == plan && copies[i].receipt.revision == revision
  {
  }

  lemma SuffixSorted(copies: seq<Job>, tail: seq<Job>, plan: string, revision: string)
    requires AcknowledgedPrefix(copies, |copies|, plan, revision) && FailedSuffix(tail, plan, revision, |copies|)
    ensures SortedBySequence(copies + tail) && PrefixThenFailed(copies + tail, |copies|, |copies + tail|, plan, revision)
  {
    hide ValidAcknowledged;
    var js := copies + tail;
    forall i | 0 <= i < |js| ensures js[i] == if i < |copies| then copies[i] else tail[i - |copies|] { }
  }

  /** Every message that now names the replacement names a copied receipt. */
  lemma MessagesProven(ms: seq<MessageBinding>, ms': seq<MessageBinding>, prefix: seq<Job>, copies: seq<Job>, failed: string, plan: string, revision: string)
    requires AcknowledgedPrefix(prefix, |prefix|, failed, revision) && AcknowledgedPrefix(copies, |copies|, plan, revision)
    requires |copies| == |prefix| && failed != plan
    requires forall m | m in ms :: !Unproven(m, failed, prefix) && m.plan != plan
    requires Moved(ms, ms', failed, plan)
    ensures forall m | m in ms' :: !Unproven(m, plan, copies)
  {
    forall m | m in ms' ensures !Unproven(m, plan, copies) {
      var i :| 0 <= i < |ms'| && ms'[i] == m;
      assert ms[i] in ms;
      if ms[i].plan == failed {
        var k :| 0 <= k < |prefix| && prefix[k].key == ms[i].job.value;
        assert prefix[k].key == Stable(failed, k) && copies[k].key == Stable(plan, k);
      }
    }
  }

  /**
    A recovered plan can be recovered again.  When an accepted recovery's executable
    suffix has failed in turn, preflight of the replacement is ready, with the copied
    receipts as its prefix, the failed suffix as its tail, and the retained count of
    the first recovery inherited, as long as that count is not zero.
   */
  lemma RecoverableAgain(s: Store, a: Act, next: Store, tail: seq<Job>, key: string)
    requires Accepted(s, a) && SoundLedger(s.jobs) && Unused(s, a.response.plan) && Unnamed(s, a.response.plan)
    requires a.response.retained > 0
    requires var s' := Recover(s, a.failed, a.key, a.response).0;
      next == s'.(jobs := s'.jobs + tail)
    requires FailedSuffix(tail, a.response.plan, a.response.revision, a.response.prefix)
    requires Unbound(next, key) && |next.requests| < JOB_LIMIT
    requires RoomFor(next, a.response.plan, a.response.prefix + a.response.executable)
    ensures Basis(s, a).Ready?
    ensures var p, s' := Basis(s, a), Recover(s, a.failed, a.key, a.response).0;
      && |s'.jobs| >= |s.jobs|
      && PreflightOf(next, a.response.plan, key) ==
           Ready(p.at, NextPlan(p.plan, a.failed),
                 s'.jobs[|s.jobs|..], |tail|, a.response.retained)
  {
    hide Recover, PreflightOf, Replace, Recoverable, Inherited, PlanOf, Unproven, SortBySequence, OfPlan, PrefixThenFailed, FailedSuffix,
         Unnamed, Unused, SoundLedger, RoomFor, ValidPlan, UniqueHolder, SameRevision, Unbound;
    AcceptedBasis(s, a);
    AcceptedIsInherited(s, a, next);
    EntryAfter(s, a, next);
    LedgerAfter(s, a, tail);
    var p, s', r := Basis(s, a), Recover(s, a.failed, a.key, a.response).0, a.response;
    var copies := s'.jobs[|s.jobs|..];
    SecondIsRecoverable(next, r, p, a.failed, key, copies, tail);
    RecoverableIsReady(next, r.plan, key, p.at, |copies|);
    assert (copies + tail)[..|copies|] == copies;
  }

  /** The replacement's entry is its only holder, routable as before. */
  lemma EntryAfter(s: Store, a: Act, next: Store)
    requires Accepted(s, a) && Unnamed(s, a.response.plan)
    requires next.entries == Recover(s, a.failed, a.key, a.response).0.entries
    ensures Basis(s, a).Ready? && Basis(s, a).at < |next.entries|
    ensures var p := Basis(s, a);
      && UniqueHolder(next.entries, a.response.plan, p.at) && next.entries[p.at].routable
      && PlanOf(next.entries[p.at]) == NextPlan(p.plan, a.failed)
  {
    hide Recover, PreflightOf, Replace;
    AcceptedBasis(s, a);
    ReadyMeans(s, a.failed, a.key);
    AcceptedEntry(s, a);
    var p := Basis(s, a);
    ReplacedEntry(s, a.failed, p.at, p.prefix, a.key, a.response);
    hide PlanOf, Inherited, Settled;
    var e :| next.entries == s.entries[p.at := e] && MovedTo(e, p.plan, a.failed, a.response);
  }

  /** The ledger and the messages of the replacement, its suffix failed. */
  lemma LedgerAfter(s: Store, a: Act, tail: seq<Job>)
    requires Accepted(s, a) && SoundLedger(s.jobs) && Unused(s, a.response.plan)
    requires FailedSuffix(tail, a.response.plan, a.response.revision, a.response.prefix)
    ensures Basis(s, a).Ready? && ValidPlan(Basis(s, a).plan) && |Recover(s, a.failed, a.key, a.response).0.jobs| >= |s.jobs|
    ensures var s', r, revision := Recover(s, a.failed, a.key, a.response).0, a.response, Basis(s, a).plan.revision.value;
      var copies := s'.jobs[|s.jobs|..];
      && |copies| == r.prefix && revision == r.revision
      && SortBySequence(OfPlan(s'.jobs + tail, r.plan)) == copies + tail
      && PrefixThenFailed(copies + tail, |copies|, |copies + tail|, r.plan, revision)
      && SameRevision(s'.jobs + tail, r.plan, revision)
      && (forall m | m in s'.messages :: !Unproven(m, r.plan, copies))
  {
    hide Recover, PreflightOf, Replace, Inherited, PlanOf;
    AcceptedBasis(s, a);
    ReadyMeans(s, a.failed, a.key);
    RecoveryIsLossless(s, a);
    var s', r, p := Recover(s, a.failed, a.key, a.response).0, a.response, Basis(s, a);
    var copies := s'.jobs[|s.jobs|..];
    assert s'.jobs == s.jobs + copies;
    hide ScanFrom, CopyOf, ValidAcknowledged, SortBySequence, OfPlan, Unproven;
    SuffixReceipts(s.jobs, copies, tail, r.plan, r.revision);
    MessagesProven(s.messages, s'.messages, p.prefix, copies, a.failed, r.plan, r.revision);
  }

  lemma SecondIsRecoverable(next: Store, r: Response, p: Preflight, failed: string, key: string, copies: seq<Job>, tail: seq<Job>)
    requires p.Ready? && ValidPlan(p.plan) && r.prefix + r.executable == p.plan.jobs.value && p.at < |next.entries|
    requires Unbound(next, key) && |next.requests| < JOB_LIMIT && RoomFor(next, r.plan, r.prefix + r.executable)
    requires UniqueHolder(next.entries, r.plan, p.at) && next.entries[p.at].routable
    requires PlanOf(next.entries[p.at]) == NextPlan(p.plan, failed)
    requires ValidPlan(PlanOf(next.entries[p.at])) && Inherited(next, r.plan, PlanOf(next.entries[p.at])).Some?
    requires SortBySequence(OfPlan(next.jobs, r.plan)) == copies + tail
    requires PrefixThenFailed(copies + tail, |copies|, |copies + tail|, r.plan, p.plan.revision.value)
    requires SameRevision(next.jobs, r.plan, p.plan.revision.value)
    requires forall m | m in next.messages :: !Unproven(m, r.plan, copies)
    ensures Recoverable(next, r.plan, key, p.at, |copies|)
    ensures Receipts(next, r.plan) == copies + tail
  {
    assert (copies + tail)[..|copies|] == copies;
    hide PrefixThenFailed, Unproven, RoomFor, PlanOf, Inherited, SortBySequence, OfPlan;
  }

  // ----- replaying a request --------------------------------------------------------------------

  /** Once bound, a request stays bound to what it was bound to. */
  lemma {:induction false} BindingStays(states: seq<Store>, acts: seq<Act>, k: nat, n: nat, key: string)
    requires Run(states, acts) && k <= n <= |acts| && FindRequest(states[k].requests, key).Some?
    ensures FindRequest(states[n].requests, key).Some?
    ensures states[n].requests[FindRequest(states[n].requests, key).value] == states[k].requests[FindRequest(states[k].requests, key).value]
    decreases n - k
  {
    hide Recover, PreflightOf, FindRequest;
    if k < n {
      BindingStays(states, acts, k, n - 1, key);
      BindingStep(states[n - 1], acts[n - 1], states[n], key);
    }
  }

  lemma BindingStep(s: Store, a: Act, s': Store, key: string)
    requires Step(s, a, s') && FindRequest(s.requests, key).Some?
    ensures FindRequest(s'.requests, key).Some?
    ensures s'.requests[FindRequest(s'.requests, key).value] == s.requests[FindRequest(s.requests, key).value]
  {
    if a.Recovery? {
      if Accepted(s, a) {
        AcceptedTables(s, a);
        FindRequestKept(s.requests, RequestBinding(a.key, a.failed, a.response.plan, a.response.generation), key);
      } else {
        OnlyAcceptedChanges(s, a.failed, a.key, a.response);
      }
    }
    hide Recover;
  }

  /**
    A request that was accepted can be replayed: as long as its audit is kept, the
    same answer marked as a replay is returned again and nothing changes; once the
    audit is evicted, and for any other plan at once, it is a conflict.
   */
  lemma ReplayAnswers(states: seq<Store>, acts: seq<Act>, k: nat, n: nat, failed: string)
    requires Run(states, acts) && k < n <= |acts| && Accepted(states[k], acts[k]) && ValidPlanToken(failed)
    ensures var s, a := states[n], acts[k];
      var replay := a.response.(idempotentReplay := true);
      Recover(s, failed, a.key, replay) ==
        if failed == a.failed && AuditOf(a.response, a.key) in s.audits then (s, Recovered(replay))
        else (s, Failure(RequestConflict))
  {
    var a := acts[k];
    var audit, binding := AuditOf(a.response, a.key), RequestBinding(a.key, a.failed, a.response.plan, a.response.generation);
    BoundAfter(states[k], a, states[k + 1]);
    BindingStays(states, acts, k + 1, n, a.key);
    AuditsAreImmutable(states, acts, k + 1, n, audit);
    AcceptedBasis(states[k], a);
    var s := states[n];
    if audit in s.audits { FoundAudit(s.audits, audit); }
    hide Run, Inherited, Replace, FindAudit, FindRequest, TokenText;
    ReplayDecides(s, failed, a.key, a.response.(idempotentReplay := true), audit, binding);
  }

  lemma BoundAfter(s: Store, a: Act, s': Store)
    requires Accepted(s, a) && Step(s, a, s')
    ensures FindRequest(s'.requests, a.key).Some?
    ensures s'.requests[FindRequest(s'.requests, a.key).value] == RequestBinding(a.key, a.failed, a.response.plan, a.response.generation)
    ensures forall x | x in s'.audits && x.key == a.key :: x == AuditOf(a.response, a.key)
  {
    AcceptedTables(s, a);
    AcceptedBasis(s, a);
    ReadyInherits(s, a.failed, a.key);
    hide Recover, PreflightOf, Replace, Inherited;
    assert s'.requests[|s.requests|].key == a.key;
    forall x | x in s'.audits && x.key == a.key ensures x == AuditOf(a.response, a.key) {
      assert x in s.audits || x == AuditOf(a.response, a.key);
    }
  }

  lemma ReplayDecides(s: Store, failed: string, key: string, r: Response, audit: Audit, b: RequestBinding)
    requires ValidPlanToken(failed) && FindRequest(s.requests, key).Some? && s.requests[FindRequest(s.requests, key).value] == b
    requires forall x | x in s.audits && x.key == key :: x == audit
    requires audit in s.audits ==> FindAudit(s.audits, key).Some? && s.audits[FindAudit(s.audits, key).value] == audit
    requires audit == AuditOf(r, key) && b == RequestBinding(key, r.failed, r.plan, r.generation)
    requires r.ok && r.idempotentReplay && ValidPlanToken(r.plan)
    requires ValidResponse(r, r.failed, r.revision, r.prefix, r.prefix + r.executable, r.generation, r.retained)
    ensures Recover(s, failed, key, r) ==
      if failed == r.failed && audit in s.audits then (s, Recovered(r)) else (s, Failure(RequestConflict))
  {
    hide FindRequest, TokenText;
    var at := FindAudit(s.audits, key);
    if at.Some? { assert s.audits[at.value] in s.audits; }
    hide FindAudit;
  }
}
