/**
  Whole histories of turn-final recovery: what one accepted recovery changes, and
  what a chain of recoveries of one turn conserves while anything else in the
  store moves in between.
 */
module RecoveryChain {
  import opened Options
  import opened RecoveryStore
  import opened RecoveryPreflight

  // ----- one command ---------------------------------------------------------------

  datatype Act = Recovery(failed: string, key: string, response: Response) | Elsewhere(next: Store)

  /** Everything but this command leaves the audits and the request bindings alone. */
  ghost predicate Step(s: Store, a: Act, s': Store) {
    match a
    case Recovery(failed, key, r) => s' == Recover(s, failed, key, r).0
    case Elsewhere(next) => s' == next && next.audits == s.audits && next.requests == s.requests
  }

  /** A first answer for this request id, accepted and saved. */
  predicate Accepted(s: Store, a: Act) {
    a.Recovery? && FindRequest(s.requests, a.key).None? && Recover(s, a.failed, a.key, a.response).1.Recovered?
  }

  /** The preflight an accepted recovery was based on. */
  function Basis(s: Store, a: Act): Preflight
    requires a.Recovery?
  { PreflightOf(s, a.failed, a.key) }

  /** The answer passes validation against this preflight. */
  predicate Fits(r: Response, failed: string, p: Preflight)
    requires p.Ready? && ValidPlan(p.plan)
  {
    ValidResponse(r, failed, p.plan.revision.value, |p.prefix|, p.plan.jobs.value, p.plan.generation + 1,
                  p.inherited + p.failedTail)
  }

  /** Replaying a bound request id, or failing in any way, changes nothing. */
  lemma OnlyAcceptedChanges(s: Store, failed: string, key: string, r: Response)
    ensures !Accepted(s, Recovery(failed, key, r)) ==> Recover(s, failed, key, r).0 == s
    ensures FindRequest(s.requests, key).Some? && Recover(s, failed, key, r).1.Recovered? ==>
      r.idempotentReplay && exists a :: a in s.audits && a.key == key && AuditOf(r, key) == a
  {
  }

  lemma AcceptedBasis(s: Store, a: Act)
    requires Accepted(s, a)
    ensures Basis(s, a).Ready? && ValidPlan(Basis(s, a).plan)
    ensures var p, r := Basis(s, a), a.response;
      && Fits(r, a.failed, p)
      && Replace(s, a.failed, p.at, p.prefix, a.key, r) == Some(Recover(s, a.failed, a.key, r).0)
  {
    if Basis(s, a).Ready? { ReadyInherits(s, a.failed, a.key); }
    hide PreflightOf, Replace, Inherited;
  }

  /** What an accepted recovery adds, and what it may evict. */
  lemma AcceptedTables(s: Store, a: Act)
    requires Accepted(s, a)
    ensures var s', r := Recover(s, a.failed, a.key, a.response).0, a.response;
      && s'.requests == s.requests + [RequestBinding(a.key, a.failed, r.plan, r.generation)]
      && |s'.audits| > 0 && s'.audits[|s'.audits| - 1] == AuditOf(r, a.key)
      && (forall x | x in s'.audits :: x in s.audits || x == AuditOf(r, a.key))
      && |s'.audits| <= (if |s.audits| < AUDIT_LIMIT then |s.audits| + 1 else |s.audits|)
  {
    AcceptedBasis(s, a);
  }

  /** Eviction never drops an audit whose plan any entry still names. */
  lemma LiveAuditsSurvive(s: Store, a: Act, x: Audit)
    requires Accepted(s, a) && x in s.audits && ValidPlanToken(x.plan)
    requires exists i :: 0 <= i < |Recover(s, a.failed, a.key, a.response).0.entries|
                         && TokenOf(Recover(s, a.failed, a.key, a.response).0.entries[i], x.plan)
    ensures x in Recover(s, a.failed, a.key, a.response).0.audits
  {
    AcceptedBasis(s, a);
    var s' := Recover(s, a.failed, a.key, a.response).0;
    assert Protected(s'.entries, None, x.plan);
    var k :| 0 <= k < |s.audits| && s.audits[k] == x;
    if |s.audits| >= AUDIT_LIMIT {
      var mid := s'.(audits := s.audits);
      assert !Evictable(mid, None, x);
      var victim := EvictionFrom(mid, None, 0).value;
      assert Evictable(mid, None, s.audits[victim]);
      assert victim != k;
      assert x in s.audits[..victim] + s.audits[victim + 1..] by {
        if k < victim { assert s.audits[..victim][k] == x; } else { assert s.audits[victim + 1..][k - victim - 1] == x; }
      }
    }
  }

  lemma ReplacedEntry(s: Store, failed: string, at: nat, prefix: seq<Job>, key: string, r: Response)
    requires Replace(s, failed, at, prefix, key, r).Some?
    ensures at < |s.entries| && Replace(s, failed, at, prefix, key, r).value.entries ==
      s.entries[at := Cutover(s.entries[at], failed, r.plan, |prefix|, r.executable, r.generation)]
  {
  }

  /** The entry moves to the replacement plan with its revision, parts and job count. */
  lemma AcceptedEntry(s: Store, a: Act)
    requires Accepted(s, a)
    ensures Basis(s, a).Ready? && Basis(s, a).at < |s.entries|
    ensures var s', p, r := Recover(s, a.failed, a.key, a.response).0, Basis(s, a), a.response;
      exists e :: s'.entries == s.entries[p.at := e] && MovedTo(e, p.plan, a.failed, r)
  {
    hide Recover, PreflightOf, Replace;
    AcceptedBasis(s, a);
    var p := Basis(s, a);
    ReplacedEntry(s, a.failed, p.at, p.prefix, a.key, a.response);
    var e := Cutover(s.entries[p.at], a.failed, a.response.plan, |p.prefix|, a.response.executable, a.response.generation);
    assert p.plan == PlanOf(s.entries[p.at]) by { ReadyMeans(s, a.failed, a.key); }
    assert MovedTo(e, p.plan, a.failed, a.response);
  }

  /** What else the cutover writes: the acknowledged prefix, the turn as it was, and no abandoned handle. */
  lemma CutoverFields(s: Store, a: Act)
    requires Accepted(s, a)
    ensures Basis(s, a).Ready? && Basis(s, a).at < |s.entries| == |Recover(s, a.failed, a.key, a.response).0.entries|
    ensures var p := Basis(s, a);
      var was, e := s.entries[p.at], Recover(s, a.failed, a.key, a.response).0.entries[p.at];
      && e.acknowledgedPrefix == Some(|p.prefix|) && e.routable == was.routable
      && e.pendingTurn == (if was.pendingTurn.Some? then was.pendingTurn else was.abandonedTurn)
      && e.pendingGeneration == Some(a.response.generation) && e.predecessor == Some(a.failed)
      && e.pendingJobs == Some(|p.prefix| + a.response.executable)
      && e.abandoned.None? && e.abandonedTurn.None? && e.abandonedRevision.None? && e.abandonedParts.None?
      && e.abandonedJobs.None? && e.abandonedGeneration.None? && e.abandonedPredecessor.None?
  {
    hide Recover, PreflightOf, Replace;
    AcceptedBasis(s, a);
    var p := Basis(s, a);
    ReplacedEntry(s, a.failed, p.at, p.prefix, a.key, a.response);
  }

  predicate MovedTo(e: Entry, p: Plan, failed: string, r: Response) {
    && e.pending == Some(r.plan) && e.abandoned.None?
    && PlanOf(e) == p.(generation := p.generation + 1, predecessor := Some(failed))
    && p.jobs == Some(r.prefix + r.executable) && r.plan != failed
  }

  // ----- the copied state ---------------------------------------------------------------

  /** Reservations only ever store such revisions and bot kinds. */
  predicate SoundLedger(jobs: seq<Job>) {
    forall i | 0 <= i < |jobs| :: ValidRevision(jobs[i].receipt.revision) && |jobs[i].receipt.botKind| <= 40
  }

  /** Nothing in the ledger belongs to this plan yet. */
  predicate Unused(s: Store, plan: string) {
    && (forall i | 0 <= i < |s.jobs| :: s.jobs[i].receipt.plan != plan && (s.jobs[i].key.Stable? ==> s.jobs[i].key.plan != plan))
    && (forall i | 0 <= i < |s.messages| :: s.messages[i].plan != plan)
  }

  lemma BasisCopies(s: Store, a: Act)
    requires a.Recovery? && Basis(s, a).Ready? && SoundLedger(s.jobs) && Unused(s, a.response.plan)
    requires ValidPlan(Basis(s, a).plan) && Fits(a.response, a.failed, Basis(s, a))
    ensures Copied(s.jobs, s.checkpoint, Basis(s, a).prefix, a.response.plan,
                   ClonePrefix(s.jobs, s.checkpoint, Basis(s, a).prefix, a.response.plan))
  {
    ReadyMeans(s, a.failed, a.key);
    var p := Basis(s, a);
    forall i | 0 <= i < |p.prefix| ensures Copyable(p.prefix[i], p.plan.revision.value) && p.prefix[i].receipt.sequence == i {
      assert p.prefix[i] in s.jobs;
    }
    CloneExact(s.jobs, s.checkpoint, p.prefix, a.response.plan, p.plan.revision.value);
  }

  lemma ReplacedTables(s: Store, failed: string, at: nat, prefix: seq<Job>, key: string, r: Response)
    requires Replace(s, failed, at, prefix, key, r).Some?
    ensures var s' := Replace(s, failed, at, prefix, key, r).value;
      && ClonePrefix(s.jobs, s.checkpoint, prefix, r.plan) == Done(s'.jobs, s'.checkpoint)
      && s'.messages == RebindAll(s.messages, failed, r.plan, KeyMap(prefix, r.plan))
  {
    hide ClonePrefix, EvictionFrom, RebindAll;
  }

  /** Every message of the failed plan now names the job of the same sequence in the replacement. */
  predicate Moved(ms: seq<MessageBinding>, ms': seq<MessageBinding>, failed: string, plan: string) {
    |ms'| == |ms| && forall i | 0 <= i < |ms| ::
      if ms[i].plan == failed then
        && ms[i].job.Some? && ms[i].job.value.Stable? && ms[i].job.value.plan == failed
        && ms'[i] == MessageBinding(plan, Some(Stable(plan, ms[i].job.value.sequence)))
      else ms'[i] == ms[i]
  }

  /** Every old receipt stays, the prefix reappears acknowledged under the replacement, and a rescan accepts it. */
  ghost predicate Grown(jobs: seq<Job>, jobs': seq<Job>, prefix: seq<Job>, plan: string, revision: string) {
    && |jobs'| == |jobs| + |prefix| && jobs'[..|jobs|] == jobs
    && (forall i | 0 <= i < |prefix| :: CopyOf(prefix[i], jobs'[|jobs| + i], plan))
    && Settled(jobs', plan, revision, jobs'[|jobs|..], 0)
    && ScanFrom(SortBySequence(OfPlan(jobs', plan)), 0, 0, false, plan, revision) == Clean(|prefix|)
  }

  /**
    The copy is lossless: no receipt changes, the replacement starts with exactly
    the acknowledged prefix, and no message is left behind on the failed plan.
   */
  lemma RecoveryIsLossless(s: Store, a: Act)
    requires Accepted(s, a) && SoundLedger(s.jobs) && Unused(s, a.response.plan)
    ensures Basis(s, a).Ready? && ValidPlan(Basis(s, a).plan)
    ensures var s', p := Recover(s, a.failed, a.key, a.response).0, Basis(s, a);
      && Grown(s.jobs, s'.jobs, p.prefix, a.response.plan, p.plan.revision.value)
      && Moved(s.messages, s'.messages, a.failed, a.response.plan)
  {
    hide PreflightOf, Recover;
    AcceptedBasis(s, a);
    ReadyMeans(s, a.failed, a.key);
    BasisCopies(s, a);
    var s', p, plan := Recover(s, a.failed, a.key, a.response).0, Basis(s, a), a.response.plan;
    ReplacedTables(s, a.failed, p.at, p.prefix, a.key, a.response);
    CopiesSettle(s.jobs, s.checkpoint, p.prefix, a.failed, plan, p.plan.revision.value, s'.jobs, s'.checkpoint);
    MessagesMove(s.messages, p.prefix, a.failed, plan, p.plan.revision.value);
  }

  lemma MessagesMove(ms: seq<MessageBinding>, prefix: seq<Job>, failed: string, plan: string, revision: string)
    requires AcknowledgedPrefix(prefix, |prefix|, failed, revision)
    requires forall m | m in ms :: !Unproven(m, failed, prefix)
    ensures Moved(ms, RebindAll(ms, failed, plan, KeyMap(prefix, plan)), failed, plan)
  {
    var ms' := RebindAll(ms, failed, plan, KeyMap(prefix, plan));
    forall i | 0 <= i < |ms| && ms[i].plan == failed
      ensures && ms[i].job.Some? && ms[i].job.value.Stable? && ms[i].job.value.plan == failed
              && ms'[i] == MessageBinding(plan, Some(Stable(plan, ms[i].job.value.sequence)))
    {
      assert ms[i] in ms && !Unproven(ms[i], failed, prefix);
      var k :| 0 <= k < |prefix| && prefix[k].key == ms[i].job.value;
      KeyMapExact(prefix, failed, plan, revision, k);
    }
  }

  lemma {:induction false} KeyMapExact(prefix: seq<Job>, failed: string, plan: string, revision: string, k: nat)
    requires AcknowledgedPrefix(prefix, |prefix|, failed, revision) && k < |prefix|
    ensures prefix[k].key == Stable(failed, k)
    ensures prefix[k].key in KeyMap(prefix, plan) && KeyMap(prefix, plan)[prefix[k].key] == Stable(plan, k)
  {
    var n := |prefix| - 1;
    assert prefix[n].key == Stable(failed, n) && prefix[k].key == Stable(failed, k);
    if k < n { KeyMapExact(prefix[..n], failed, plan, revision, k); }
  }

  lemma CopiesSettle(jobs: seq<Job>, checkpoint: nat, prefix: seq<Job>, failed: string, plan: string, revision: string,
                     jobs': seq<Job>, checkpoint': nat)
    requires AcknowledgedPrefix(prefix, |prefix|, failed, revision)
    requires Copied(jobs, checkpoint, prefix, plan, Done(jobs', checkpoint'))
    requires forall i | 0 <= i < |jobs| :: jobs[i].receipt.plan != plan
    ensures Settled(jobs', plan, revision, jobs'[|jobs|..], 0)
    ensures ScanFrom(SortBySequence(OfPlan(jobs', plan)), 0, 0, false, plan, revision) == Clean(|prefix|)
  {
    assert jobs' == jobs + jobs'[|jobs|..];
    CopiesAcknowledged(jobs, checkpoint, prefix, failed, plan, revision, jobs', checkpoint');
    hide *;
    CopiesStandAlone(jobs, jobs'[|jobs|..], plan, revision);
  }

  lemma CopiesStandAlone(jobs: seq<Job>, copies: seq<Job>, plan: string, revision: string)
    requires forall i | 0 <= i < |jobs| :: jobs[i].receipt.plan != plan
    requires forall i | 0 <= i < |copies| :: copies[i].receipt.plan == plan
    requires AcknowledgedPrefix(copies, |copies|, plan, revision)
    ensures Settled(jobs + copies, plan, revision, copies, 0)
    ensures ScanFrom(SortBySequence(OfPlan(jobs + copies, plan)), 0, 0, false, plan, revision) == Clean(|copies|)
  {
    hide ValidAcknowledged, ScanFrom, SortBySequence, OfPlan;
    OfPlanConcat(jobs, copies, plan);
    NoneOfPlan(jobs, plan);
    AllOfPlan(copies, plan);
    assert [] + copies == copies;
    SortOfSorted(copies);
    AcknowledgedRescans(copies, 0, plan, revision);
  }

  lemma CopiesAcknowledged(jobs: seq<Job>, checkpoint: nat, prefix: seq<Job>, failed: string, plan: string, revision: string,
                           jobs': seq<Job>, checkpoint': nat)
    requires AcknowledgedPrefix(prefix, |prefix|, failed, revision)
    requires Copied(jobs, checkpoint, prefix, plan, Done(jobs', checkpoint'))
    ensures AcknowledgedPrefix(jobs'[|jobs|..], |prefix|, plan, revision)
    ensures forall i | 0 <= i < |prefix| :: jobs'[|jobs|..][i].receipt.plan == plan
  {
    forall i | 0 <= i < |prefix|
      ensures jobs'[|jobs|..][i].receipt.plan == plan && jobs'[|jobs|..][i].receipt.substate == Acknowledged
      ensures jobs'[|jobs|..][i].receipt.sequence == i && ValidAcknowledged(jobs'[|jobs|..][i], plan, revision)
    {
      assert CopyOf(prefix[i], jobs'[|jobs| + i], plan);
    }
  }

  /** A ledger that is one acknowledged prefix passes the scan as a whole. */
  lemma {:induction false} AcknowledgedRescans(js: seq<Job>, i: nat, plan: string, revision: string)
    requires i <= |js| && AcknowledgedPrefix(js, |js|, plan, revision)
    ensures ScanFrom(js, i, i, false, plan, revision) == Clean(|js|)
    decreases |js| - i
  {
    hide ValidAcknowledged;
    if i < |js| { AcknowledgedRescans(js, i + 1, plan, revision); }
  }

  lemma {:induction false} NoneOfPlan(jobs: seq<Job>, plan: string)
    requires forall i | 0 <= i < |jobs| :: jobs[i].receipt.plan != plan
    ensures OfPlan(jobs, plan) == []
  {
    if jobs != [] { NoneOfPlan(jobs[..|jobs| - 1], plan); }
  }

  lemma {:induction false} AllOfPlan(jobs: seq<Job>, plan: string)
    requires forall i | 0 <= i < |jobs| :: jobs[i].receipt.plan == plan
    ensures OfPlan(jobs, plan) == jobs
  {
    if jobs != [] {
      AllOfPlan(jobs[..|jobs| - 1], plan);
      assert jobs == jobs[..|jobs| - 1] + [jobs[|jobs| - 1]];
    }
  }

  /** The replacement entry names `t`, or an entry that stays does. */
  predicate NamedAfter(s: Store, at: nat, plan: string, t: string) {
    ValidPlanToken(t) && (t == plan || exists i | 0 <= i < |s.entries| && i != at :: TokenOf(s.entries[i], t))
  }

  predicate NeededAfter(s: Store, at: nat, plan: string, a: Audit) {
    var b := FindRequest(s.requests, a.key);
    NamedAfter(s, at, plan, a.plan) || (b.Some? && NamedAfter(s, at, plan, s.requests[b.value].plan))
  }

  lemma NamesAfterCutover(s: Store, s': Store, at: nat, plan: string, e: Entry, t: string)
    requires at < |s.entries| && s'.entries == s.entries[at := e] && e.pending == Some(plan) && e.abandoned.None?
    ensures Protected(s'.entries, None, t) <==> NamedAfter(s, at, plan, t)
  {
    if NamedAfter(s, at, plan, t) {
      if t == plan {
        assert TokenOf(s'.entries[at], t);
      } else {
        var i :| 0 <= i < |s.entries| && i != at && TokenOf(s.entries[i], t);
        assert TokenOf(s'.entries[i], t);
      }
    }
  }

  /**
    With a sound ledger and an unused replacement token, a validated recovery that
    passed preflight fails at cutover exactly when the audit table is full and every
    audit in it, by its plan or its request binding's, will still be named.
   */
  lemma CrashExactly(s: Store, failed: string, key: string, r: Response)
    requires PreflightOf(s, failed, key).Ready? && SoundLedger(s.jobs) && Unused(s, r.plan)
    ensures var p := PreflightOf(s, failed, key);
      && ValidPlan(p.plan)
      && (Recover(s, failed, key, r).1.Crash? <==>
            && ValidPlanToken(failed) && Fits(r, failed, p)
            && |s.audits| >= AUDIT_LIMIT && forall a | a in s.audits :: NeededAfter(s, p.at, r.plan, a))
  {
    CrashIsFailedCutover(s, failed, key, r);
    hide PreflightOf, NeededAfter, Replace, Recover, SoundLedger, Unused, ValidPlan, ValidPlanToken;
    var p := PreflightOf(s, failed, key);
    if ValidPlanToken(failed) && Fits(r, failed, p) { CutoverFails(s, failed, p, key, r); }
  }

  lemma CrashIsFailedCutover(s: Store, failed: string, key: string, r: Response)
    requires PreflightOf(s, failed, key).Ready?
    ensures var p := PreflightOf(s, failed, key);
      && ValidPlan(p.plan)
      && (Recover(s, failed, key, r).1.Crash? <==>
            ValidPlanToken(failed) && Fits(r, failed, p) && Replace(s, failed, p.at, p.prefix, key, r).None?)
  {
    ReadyMeans(s, failed, key);
    hide PreflightOf, Replace, Inherited, UniqueHolder, Settled, PlanOf, EvictionFrom, ValidPlanToken, AuditOf;
  }

  lemma CutoverFails(s: Store, failed: string, p: Preflight, key: string, r: Response)
    requires p == PreflightOf(s, failed, key) && p.Ready? && SoundLedger(s.jobs) && Unused(s, r.plan)
    requires ValidPlan(p.plan) && Fits(r, failed, p)
    ensures Replace(s, failed, p.at, p.prefix, key, r).None? <==>
      |s.audits| >= AUDIT_LIMIT && forall a | a in s.audits :: NeededAfter(s, p.at, r.plan, a)
  {
    ReadyMeans(s, failed, key);
    BasisCopies(s, Recovery(failed, key, r));
    hide PreflightOf, ClonePrefix, Inherited, Settled, NeededAfter;
    var l := ClonePrefix(s.jobs, s.checkpoint, p.prefix, r.plan);
    var e := Cutover(s.entries[p.at], failed, r.plan, |p.prefix|, r.executable, r.generation);
    var s' := CutOver(s, l, failed, p.at, p.prefix, key, r);
    SlotsAfterCutover(s, s', failed, p.at, key, r, e);
    NoSlot(s', AuditOf(r, key));
    hide Evictable, Cutover, CutOver, RecordAudit, Copied;
    assert Replace(s, failed, p.at, p.prefix, key, r) == RecordAudit(s', AuditOf(r, key));
    if forall i | 0 <= i < |s.audits| :: !Evictable(s', None, s.audits[i]) {
      forall a | a in s.audits ensures NeededAfter(s, p.at, r.plan, a) { }
    }
  }

  lemma NoSlot(s: Store, a: Audit)
    ensures RecordAudit(s, a).None? <==> |s.audits| >= AUDIT_LIMIT && forall i | 0 <= i < |s.audits| :: !Evictable(s, None, s.audits[i])
  {
    hide Evictable;
  }

  lemma SlotsAfterCutover(s: Store, s': Store, failed: string, at: nat, key: string, r: Response, e: Entry)
    requires at < |s.entries| && s'.entries == s.entries[at := e] && s'.audits == s.audits
    requires e.pending == Some(r.plan) && e.abandoned.None? && FindAudit(s.audits, key).None?
    requires s'.requests == s.requests + [RequestBinding(key, failed, r.plan, r.generation)]
    ensures forall i | 0 <= i < |s.audits| :: Evictable(s', None, s.audits[i]) <==> !NeededAfter(s, at, r.plan, s.audits[i])
  {
    forall i | 0 <= i < |s.audits| ensures Evictable(s', None, s.audits[i]) <==> !NeededAfter(s, at, r.plan, s.audits[i]) {
      var a := s.audits[i];
      FindRequestKept(s.requests, RequestBinding(key, failed, r.plan, r.generation), a.key);
      NamesAfterCutover(s, s', at, r.plan, e, a.plan);
      var b := FindRequest(s.requests, a.key);
      if b.Some? { NamesAfterCutover(s, s', at, r.plan, e, s.requests[b.value].plan); }
      hide Protected, NamedAfter;
    }
  }

  const EMPTY_STORE: Store := Store([], [], 0, [], [], [])

  /** A plan, what a provider replaces it with, and their content revision. */
  datatype Tokens = Tokens(failed: string, next: string, revision: string)

  predicate ValidTokens(t: Tokens) {
    ValidPlanToken(t.failed) && ValidPlanToken(t.next) && t.failed != t.next && PlausibleRevision(t.revision)
  }

  function CrowdingEntry(t: Tokens): Entry {
    Entry(true, Some(t.failed), None, Some(t.revision), Some(1), Some(1), None, None, None,
          None, None, None, None, None, None, None)
  }

  function CrowdingAnswer(t: Tokens): Response {
    Response(true, true, t.failed, t.next, 2, t.revision, true, 0, 1, 0, 0, false)
  }

  function Key(i: nat): string { seq(i, j requires 0 <= j => 'k') }

  function CrowdingRequests(t: Tokens, n: nat): (r: seq<RequestBinding>)
    ensures |r| == n && forall i | 0 <= i < n :: r[i] == RequestBinding(Key(i), t.failed, t.next, 2)
  { seq(n, i requires 0 <= i < n => RequestBinding(Key(i), t.failed, t.next, 2)) }

  function CrowdingAudits(t: Tokens, n: nat): (r: seq<Audit>)
    ensures |r| == n && forall i | 0 <= i < n :: r[i] == AuditOf(CrowdingAnswer(t), Key(i))
  { seq(n, i requires 0 <= i < n => AuditOf(CrowdingAnswer(t), Key(i))) }

  /** One plan without receipts, and `n` recoveries behind it that were all answered with the same replacement. */
  function Crowded(t: Tokens, n: nat): Store {
    Store([CrowdingEntry(t)], [], 0, [], CrowdingRequests(t, n), CrowdingAudits(t, n))
  }

  function CrowdedReady(t: Tokens): Preflight {
    Ready(0, Plan(Some(t.revision), Some(1), Some(1), 1, None), [], 0, 0)
  }

  /**
    The promised slot can be gone: with any tokens there is a run from the empty
    store after which a recovery passes preflight, validates and crashes.
   */
  lemma CrashOccurs(t: Tokens) returns (states: seq<Store>, acts: seq<Act>)
    requires ValidTokens(t)
    ensures Run(states, acts) && states[0] == EMPTY_STORE
    ensures PreflightOf(states[|acts|], t.failed, Key(AUDIT_LIMIT)).Ready?
    ensures Recover(states[|acts|], t.failed, Key(AUDIT_LIMIT), CrowdingAnswer(t)).1.Crash?
  {
    states, acts := CrowdingRun(t, AUDIT_LIMIT);
    CrowdedPreflight(t, AUDIT_LIMIT);
    hide Crowded, PreflightOf, Recover, Key, Run, ValidTokens;
    CrowdedCrashes(t, AUDIT_LIMIT);
  }

  lemma {:induction false} CrowdingRun(t: Tokens, n: nat) returns (states: seq<Store>, acts: seq<Act>)
    requires ValidTokens(t) && n <= AUDIT_LIMIT
    ensures Run(states, acts) && states[0] == EMPTY_STORE && states[|acts|] == Crowded(t, n)
  {
    if n == 0 {
      states, acts := [EMPTY_STORE, Crowded(t, 0)], [Elsewhere(Crowded(t, 0))];
    } else {
      states, acts := CrowdingRun(t, n - 1);
      CrowdingRound(t, n - 1);
      hide Crowded, PreflightOf, Recover, CrowdingAnswer, Key, ValidTokens;
      var recovery := Recovery(t.failed, Key(n - 1), CrowdingAnswer(t));
      var s' := Recover(Crowded(t, n - 1), t.failed, Key(n - 1), CrowdingAnswer(t)).0;
      states, acts := TwoMore(states, acts, recovery, s', Crowded(t, n));
    }
  }

  lemma TwoMore(states: seq<Store>, acts: seq<Act>, a: Act, s: Store, next: Store) returns (states': seq<Store>, acts': seq<Act>)
    requires Run(states, acts) && Step(states[|acts|], a, s) && next.audits == s.audits && next.requests == s.requests
    ensures Run(states', acts') && states'[0] == states[0] && states'[|acts'|] == next
  {
    hide Recover;
    states', acts' := states + [s, next], acts + [a, Elsewhere(next)];
    forall k | 0 <= k < |acts'| ensures Step(states'[k], acts'[k], states'[k + 1]) {
      if k < |acts| { assert Step(states[k], acts[k], states[k + 1]); }
    }
  }

  /** One more recovery is accepted, after which the plan can be made pending again. */
  lemma CrowdingRound(t: Tokens, n: nat)
    requires ValidTokens(t) && n < AUDIT_LIMIT
    ensures var s' := Recover(Crowded(t, n), t.failed, Key(n), CrowdingAnswer(t)).0;
      s'.audits == Crowded(t, n + 1).audits && s'.requests == Crowded(t, n + 1).requests
  {
    var s, key, r := Crowded(t, n), Key(n), CrowdingAnswer(t);
    CrowdedPreflight(t, n);
    CrowdingFits(t, n);
    hide PreflightOf, Replace, Fits, ValidTokens, ValidPlanToken, Key, SoundLedger, Unused, ValidPlan;
    CrashExactly(s, t.failed, key, r);
    CutoverOf(s, t.failed, key, r);
    AddedRows(s, 0, key, r);
    assert CrowdingRequests(t, n + 1) == CrowdingRequests(t, n) + [RequestBinding(key, t.failed, t.next, 2)];
    assert CrowdingAudits(t, n + 1) == CrowdingAudits(t, n) + [AuditOf(r, key)];
  }

  /** A recovery that passed preflight and validation, and does not crash, saves its cutover. */
  lemma CutoverOf(s: Store, failed: string, key: string, r: Response)
    requires PreflightOf(s, failed, key).Ready? && ValidPlanToken(failed)
    requires var p := PreflightOf(s, failed, key); ValidPlan(p.plan) && Fits(r, failed, p)
    requires !Recover(s, failed, key, r).1.Crash?
    ensures var p := PreflightOf(s, failed, key);
      Replace(s, failed, p.at, p.prefix, key, r) == Some(Recover(s, failed, key, r).0)
  {
    hide PreflightOf, Replace, ValidPlanToken;
  }

  lemma AddedRows(s: Store, at: nat, key: string, r: Response)
    requires Replace(s, r.failed, at, [], key, r).Some? && |s.audits| < AUDIT_LIMIT
    ensures var s' := Replace(s, r.failed, at, [], key, r).value;
      && s'.requests == s.requests + [RequestBinding(key, r.failed, r.plan, r.generation)]
      && s'.audits == s.audits + [AuditOf(r, key)]
  {
  }

  lemma CrowdedCrashes(t: Tokens, n: nat)
    requires ValidTokens(t) && n >= AUDIT_LIMIT && PreflightOf(Crowded(t, n), t.failed, Key(n)) == CrowdedReady(t)
    ensures Recover(Crowded(t, n), t.failed, Key(n), CrowdingAnswer(t)).1.Crash?
  {
    var s := Crowded(t, n);
    CrowdingFits(t, n);
    hide PreflightOf, Recover, Fits, ValidPlanToken, SoundLedger, Unused;
    CrashExactly(s, t.failed, Key(n), CrowdingAnswer(t));
    forall a | a in s.audits ensures NeededAfter(s, 0, t.next, a) { assert a.plan == t.next; }
  }

  lemma CrowdingFits(t: Tokens, n: nat)
    requires ValidTokens(t)
    ensures ValidPlan(CrowdedReady(t).plan) && Fits(CrowdingAnswer(t), t.failed, CrowdedReady(t))
    ensures SoundLedger(Crowded(t, n).jobs) && Unused(Crowded(t, n), t.next)
  {
    hide ValidPlanToken, PlausibleRevision;
  }

  lemma CrowdedPreflight(t: Tokens, n: nat)
    requires ValidTokens(t) && n < JOB_LIMIT
    ensures PreflightOf(Crowded(t, n), t.failed, Key(n)) == CrowdedReady(t)
  {
    CrowdedTables(t, n);
    if n > 0 { CrowdedSlot(t, n); }
    hide Holders, FindAudit, FindRequest, Candidates, EvictionFrom, Key, ValidPlanToken, PlausibleRevision;
    CrowdedReceipts(t, n);
    hide PreflightEntry;
  }

  lemma CrowdedReceipts(t: Tokens, n: nat)
    requires ValidTokens(t) && Candidates(Crowded(t, n), t.failed) == {}
    requires n >= AUDIT_LIMIT ==> EvictionFrom(Crowded(t, n), Some(t.failed), 0).Some?
    ensures PreflightEntry(Crowded(t, n), t.failed, 0) == CrowdedReady(t)
  {
    hide Candidates, EvictionFrom, ValidPlanToken, PlausibleRevision, Unproven;
    assert SortBySequence(OfPlan([], t.failed)) == [];
    assert CountFailed([]) == 0;
  }

  lemma CrowdedTables(t: Tokens, n: nat)
    requires ValidTokens(t)
    ensures Holders(Crowded(t, n).entries, t.failed) == [0] && Candidates(Crowded(t, n), t.failed) == {}
    ensures FindAudit(Crowded(t, n).audits, Key(n)).None? && FindRequest(Crowded(t, n).requests, Key(n)).None?
  {
    hide ValidPlanToken, PlausibleRevision;
    var s, key := Crowded(t, n), Key(n);
    assert s.entries[..0] == [] && Holders(s.entries[..0], t.failed) == [];
    forall i | 0 <= i < n ensures s.audits[i].key != key && s.requests[i].key != key { assert |Key(i)| != |Key(n)|; }
  }

  /** As long as nothing names the replacement, its audits may go. */
  lemma CrowdedSlot(t: Tokens, n: nat)
    requires ValidTokens(t) && n > 0
    ensures EvictionFrom(Crowded(t, n), Some(t.failed), 0).Some?
  {
    hide ValidPlanToken, PlausibleRevision;
    var s := Crowded(t, n);
    var b := FindRequest(s.requests, s.audits[0].key);
    assert b.Some? ==> s.requests[b.value].plan == t.next;
    assert Evictable(s, Some(t.failed), s.audits[0]);
  }

  /**
    With a sound ledger and an unused replacement token, a recovery that passes
    preflight and validation is refused at cutover only for want of an audit slot,
    and then the slot was promised on an audit that is still needed: its plan, or
    its request binding's, is the replacement itself or the failed plan as another
    entry's abandoned handle.
   */
  lemma CrashMeansContestedSlot(s: Store, failed: string, key: string, r: Response)
    requires PreflightOf(s, failed, key).Ready? && SoundLedger(s.jobs) && Unused(s, r.plan)
    requires Recover(s, failed, key, r).1.Crash?
    ensures |s.audits| >= AUDIT_LIMIT && EvictionFrom(s, Some(failed), 0).Some?
    ensures Needed(s, failed, r.plan, s.audits[EvictionFrom(s, Some(failed), 0).value])
  {
    var p := PreflightOf(s, failed, key);
    ReadyMeans(s, failed, key);
    BasisCopies(s, Recovery(failed, key, r));
    hide PreflightOf, ClonePrefix;
    var l := ClonePrefix(s.jobs, s.checkpoint, p.prefix, r.plan);
    var s' := CutOver(s, l, failed, p.at, p.prefix, key, r);
    assert RecordAudit(s', AuditOf(r, key)).None?;
    SlotContested(s, s', failed, p.at, key, r, Cutover(s.entries[p.at], failed, r.plan, |p.prefix|, r.executable, r.generation),
                  s.audits[EvictionFrom(s, Some(failed), 0).value]);
  }

  lemma SlotContested(s: Store, s': Store, failed: string, at: nat, key: string, r: Response, e: Entry, a: Audit)
    requires at < |s.entries| && Holds(s.entries[at], failed) && s'.entries == s.entries[at := e]
    requires e.pending == Some(r.plan) && e.abandoned.None? && a.key != key
    requires s'.requests == s.requests + [RequestBinding(key, failed, r.plan, r.generation)]
    requires Evictable(s, Some(failed), a) && !Evictable(s', None, a)
    ensures Needed(s, failed, r.plan, a)
  {
    FindRequestKept(s.requests, RequestBinding(key, failed, r.plan, r.generation), a.key);
    var b := FindRequest(s.requests, a.key);
    var t := if Protected(s'.entries, None, a.plan) then a.plan else s.requests[b.value].plan;
    var i :| 0 <= i < |s'.entries| && TokenOf(s'.entries[i], t);
    if i != at && t == failed {
      var x, y := if i < at then i else at, if i < at then at else i;
      assert TokenOf(s.entries[x], failed) && TokenOf(s.entries[y], failed);
    }
  }

  predicate Needed(s: Store, failed: string, plan: string, a: Audit) {
    var b := FindRequest(s.requests, a.key);
    Contested(s, failed, plan, a.plan) || (b.Some? && Contested(s, failed, plan, s.requests[b.value].plan))
  }

  predicate Contested(s: Store, failed: string, plan: string, t: string) {
    t == plan || (t == failed && exists i, j :: 0 <= i < j < |s.entries| && TokenOf(s.entries[i], failed) && TokenOf(s.entries[j], failed))
  }

  lemma FindRequestKept(requests: seq<RequestBinding>, b: RequestBinding, key: string)
    requires b.key != key
    ensures FindRequest(requests + [b], key) == FindRequest(requests, key)
  {
    assert (requests + [b])[..|requests|] == requests;
  }

  // ----- histories --------------------------------------------------------------------------

  ghost predicate Run(states: seq<Store>, acts: seq<Act>) {
    |states| == |acts| + 1 && forall k | 0 <= k < |acts| :: Step(states[k], acts[k], states[k + 1])
  }

  lemma {:induction false} RequestsGrow(states: seq<Store>, acts: seq<Act>, k: nat, n: nat)
    requires Run(states, acts) && k <= n <= |acts|
    ensures states[k].requests <= states[n].requests
    decreases n - k
  {
    hide Recover, PreflightOf;
    if k < n {
      RequestsGrow(states, acts, k, n - 1);
      RequestsStep(states[n - 1], acts[n - 1], states[n]);
    }
  }

  lemma RequestsStep(s: Store, a: Act, s': Store)
    requires Step(s, a, s')
    ensures s.requests <= s'.requests
    ensures forall x | x in s'.audits :: x in s.audits || (a.Recovery? && Accepted(s, a) && x == AuditOf(a.response, a.key))
  {
    hide Recover, PreflightOf;
    if a.Recovery? {
      if Accepted(s, a) { AcceptedTables(s, a); } else { OnlyAcceptedChanges(s, a.failed, a.key, a.response); }
    }
  }

  /** Once a request id is bound, its audit may be evicted but never replaced. */
  lemma {:induction false} AuditsAreImmutable(states: seq<Store>, acts: seq<Act>, k: nat, n: nat, audit: Audit)
    requires Run(states, acts) && k <= n <= |acts|
    requires FindRequest(states[k].requests, audit.key).Some?
    requires forall x | x in states[k].audits && x.key == audit.key :: x == audit
    ensures forall x | x in states[n].audits && x.key == audit.key :: x == audit
    decreases n - k
  {
    hide Recover, PreflightOf;
    if k < n {
      AuditsAreImmutable(states, acts, k, n - 1, audit);
      RequestsGrow(states, acts, k, n - 1);
      var at := FindRequest(states[k].requests, audit.key).value;
      assert states[n - 1].requests[at].key == audit.key;
      RequestsStep(states[n - 1], acts[n - 1], states[n]);
    }
  }

  /** `b` recovers the plan that `a` put in place. */
  predicate Links(a: Act, b: Act) { a.Recovery? && b.Recovery? && b.failed == a.response.plan }

  /** The failed jobs an accepted recovery leaves behind. */
  function Tail(s: Store, a: Act): nat {
    if a.Recovery? && Basis(s, a).Ready? then Basis(s, a).failedTail else 0
  }

  /** The audit inherited by the second of two linked recoveries is the first one's. */
  lemma InheritedIsPredecessor(states: seq<Store>, acts: seq<Act>, i: nat, j: nat)
    requires Run(states, acts) && i < j < |acts| && Links(acts[i], acts[j])
    requires Accepted(states[i], acts[i]) && Accepted(states[j], acts[j])
    ensures var p := Basis(states[j], acts[j]);
      && p.Ready? && ValidPlan(p.plan) && p.plan.generation > 1
      && Inherits(states[j], acts[i].key, acts[j].failed, p.plan)
      && p.inherited == acts[i].response.retained
      && states[j].audits[FindAudit(states[j].audits, acts[i].key).value] == AuditOf(acts[i].response, acts[i].key)
  {
    hide Recover, PreflightOf, Inherits, Inherited;
    var s, key := states[j], acts[i].key;
    FreshAudit(states[i], acts[i], states[i + 1]);
    AuditsAreImmutable(states, acts, i + 1, j, AuditOf(acts[i].response, key));
    RequestsGrow(states, acts, i + 1, j);
    AcceptedBasis(s, acts[j]);
    ReadyInherits(s, acts[j].failed, acts[j].key);
    var b := RequestBinding(key, acts[i].failed, acts[i].response.plan, acts[i].response.generation);
    assert b in s.requests;
    InheritedFrom(s, acts[j].failed, Basis(s, acts[j]).plan, key);
    AuditFound(s, acts[j].failed, Basis(s, acts[j]).plan, key, AuditOf(acts[i].response, key));
  }

  lemma AuditFound(s: Store, failed: string, p: Plan, key: string, audit: Audit)
    requires ValidPlan(p) && p.generation > 1 && Inherits(s, key, failed, p)
    requires forall x | x in s.audits && x.key == key :: x == audit
    ensures FindAudit(s.audits, key).Some? && s.audits[FindAudit(s.audits, key).value] == audit
  {
    assert s.audits[FindAudit(s.audits, key).value] in s.audits;
  }

  /** After an accepted recovery its request is bound and every audit under that key is its own. */
  lemma FreshAudit(s: Store, a: Act, s': Store)
    requires Accepted(s, a) && Step(s, a, s')
    ensures RequestBinding(a.key, a.failed, a.response.plan, a.response.generation) in s'.requests
    ensures forall x | x in s'.audits && x.key == a.key :: x == AuditOf(a.response, a.key)
  {
    AcceptedTables(s, a);
    AcceptedBasis(s, a);
    ReadyInherits(s, a.failed, a.key);
    hide Recover, PreflightOf;
    assert s'.requests[|s'.requests| - 1] in s'.requests;
  }

  /**
    One link: the generation rises by exactly one, the content revision and the
    total job count stay, and the retained failures grow by the new failed tail.
   */
  lemma LinkConserves(states: seq<Store>, acts: seq<Act>, i: nat, j: nat)
    requires Run(states, acts) && i < j < |acts| && Links(acts[i], acts[j])
    requires Accepted(states[i], acts[i]) && Accepted(states[j], acts[j])
    ensures var a, b := acts[i].response, acts[j].response;
      && b.generation == a.generation + 1 && b.revision == a.revision
      && b.prefix + b.executable == a.prefix + a.executable
      && b.retained == a.retained + Tail(states[j], acts[j])
      && Basis(states[j], acts[j]).Ready? && Basis(states[j], acts[j]).plan.predecessor == Some(acts[i].failed)
  {
    hide Recover, PreflightOf, Replace;
    InheritedIsPredecessor(states, acts, i, j);
    AcceptedBasis(states[i], acts[i]);
    AcceptedBasis(states[j], acts[j]);
  }

  /** Accepted recoveries of one turn, each of the plan the one before put in place. */
  ghost predicate Chain(states: seq<Store>, acts: seq<Act>, ks: seq<nat>) {
    && |ks| > 0
    && (forall i | 0 <= i < |ks| :: ks[i] < |acts| && ks[i] < |states| && Accepted(states[ks[i]], acts[ks[i]]))
    && (forall i, j | 0 <= i < j < |ks| && j == i + 1 :: ks[i] < ks[j] && Links(acts[ks[i]], acts[ks[j]]))
  }

  function Tails(states: seq<Store>, acts: seq<Act>, ks: seq<nat>): nat {
    if ks == [] then 0
    else
      var k := ks[|ks| - 1];
      Tails(states, acts, ks[..|ks| - 1]) + if k < |acts| && k < |states| then Tail(states[k], acts[k]) else 0
  }

  /** What a chain of `n` recoveries from plan `first` has conserved when `last` is its last answer. */
  predicate Conserved(first: Plan, n: nat, last: Response, tails: nat) {
    && last.generation == n + 1 && Some(last.revision) == first.revision
    && Some(last.prefix + last.executable) == first.jobs && last.retained == tails
  }

  lemma ChainStarts(s: Store, a: Act)
    requires Accepted(s, a) && Basis(s, a).Ready? && Basis(s, a).plan.generation == 1
    ensures Conserved(Basis(s, a).plan, 1, a.response, Tail(s, a))
  {
    hide Recover, PreflightOf, Replace, Inherited;
    AcceptedBasis(s, a);
    ReadyInherits(s, a.failed, a.key);
  }

  /**
    Conservation along a chain that starts at a first-generation plan, whatever
    else happens to the store in between: after n recoveries the generation is
    n + 1, the revision and the job count are those of the first plan, prefix plus
    suffix is the job count, and the retained failures are the sum of all tails.
   */
  lemma {:induction false} ChainConserves(states: seq<Store>, acts: seq<Act>, ks: seq<nat>)
    requires Run(states, acts) && Chain(states, acts, ks)
    requires Basis(states[ks[0]], acts[ks[0]]).Ready? && Basis(states[ks[0]], acts[ks[0]]).plan.generation == 1
    ensures Conserved(Basis(states[ks[0]], acts[ks[0]]).plan, |ks|, acts[ks[|ks| - 1]].response, Tails(states, acts, ks))
  {
    hide Recover, PreflightOf;
    var n := |ks| - 1;
    if n > 0 {
      var before := ks[..n];
      assert Chain(states, acts, before) by { assert forall i | 0 <= i < n :: before[i] == ks[i]; }
      ChainConserves(states, acts, before);
      assert Links(acts[ks[n - 1]], acts[ks[n]]);
      LinkConserves(states, acts, ks[n - 1], ks[n]);
    } else {
      assert ks[..0] == [];
      ChainStarts(states[ks[0]], acts[ks[0]]);
    }
  }

  // ----- part count ------------------------------------------------------------------------------

  /**
    The part count is not in the audit, so it needs the rest of the program to move
    a bound plan only as it stands (from the pending to the abandoned fields, say),
    and the provider to mint plan tokens that no entry or binding knows.
   */
  ghost predicate KeepsBoundPlans(s: Store, a: Act) {
    match a
    case Elsewhere(next) =>
      forall b, e | b in s.requests && e in next.entries && Holds(e, b.plan) ::
        exists e0 :: e0 in s.entries && Holds(e0, b.plan) && PlanOf(e0).parts == PlanOf(e).parts
    case Recovery(_, _, r) =>
      Accepted(s, a) ==>
        (forall b | b in s.requests :: b.plan != r.plan) && (forall e | e in s.entries :: !Holds(e, r.plan))
  }

  ghost predicate Bound(s: Store, plan: string) { exists b :: b in s.requests && b.plan == plan }

  ghost predicate HoldersAgree(s: Store, plan: string, parts: Option<int>) {
    forall e | e in s.entries && Holds(e, plan) :: PlanOf(e).parts == parts
  }

  lemma PartsStep(s: Store, a: Act, s': Store, plan: string, parts: Option<int>)
    requires Step(s, a, s') && KeepsBoundPlans(s, a) && Bound(s, plan) && HoldersAgree(s, plan, parts)
    ensures HoldersAgree(s', plan, parts)
  {
    hide Recover, PreflightOf;
    if a.Recovery? {
      if Accepted(s, a) {
        AcceptedEntry(s, a);
        MovedEntries(s, a, plan, parts);
      } else {
        OnlyAcceptedChanges(s, a.failed, a.key, a.response);
      }
    }
  }

  lemma MovedEntries(s: Store, a: Act, plan: string, parts: Option<int>)
    requires Accepted(s, a) && plan != a.response.plan && HoldersAgree(s, plan, parts)
    ensures HoldersAgree(Recover(s, a.failed, a.key, a.response).0, plan, parts)
  {
    hide Recover, PreflightOf;
    AcceptedEntry(s, a);
    var s', p := Recover(s, a.failed, a.key, a.response).0, Basis(s, a);
    var moved :| s'.entries == s.entries[p.at := moved] && MovedTo(moved, p.plan, a.failed, a.response);
    forall e | e in s'.entries && Holds(e, plan) ensures PlanOf(e).parts == parts {
      var i :| 0 <= i < |s'.entries| && s'.entries[i] == e;
      assert i != p.at;
      assert s.entries[i] in s.entries;
    }
  }

  lemma {:induction false} PartsKept(states: seq<Store>, acts: seq<Act>, k: nat, n: nat, plan: string, parts: Option<int>)
    requires Run(states, acts) && k <= n <= |acts|
    requires forall i | k <= i < n :: KeepsBoundPlans(states[i], acts[i])
    requires Bound(states[k], plan) && HoldersAgree(states[k], plan, parts)
    ensures HoldersAgree(states[n], plan, parts)
    decreases n - k
  {
    hide Recover, PreflightOf;
    if k < n {
      PartsKept(states, acts, k, n - 1, plan, parts);
      RequestsGrow(states, acts, k, n - 1);
      PartsStep(states[n - 1], acts[n - 1], states[n], plan, parts);
    }
  }

  /** The replacement's only holder is the moved entry, with the part count of the failed plan. */
  lemma ReplacementParts(s: Store, a: Act)
    requires Accepted(s, a) && KeepsBoundPlans(s, a)
    ensures Basis(s, a).Ready?
    ensures Bound(Recover(s, a.failed, a.key, a.response).0, a.response.plan)
    ensures HoldersAgree(Recover(s, a.failed, a.key, a.response).0, a.response.plan, Basis(s, a).plan.parts)
  {
    hide Recover, PreflightOf;
    AcceptedEntry(s, a);
    AcceptedTables(s, a);
    var s', p := Recover(s, a.failed, a.key, a.response).0, Basis(s, a);
    assert s'.requests[|s'.requests| - 1] in s'.requests;
    var moved :| s'.entries == s.entries[p.at := moved] && MovedTo(moved, p.plan, a.failed, a.response);
    forall e | e in s'.entries && Holds(e, a.response.plan) ensures PlanOf(e).parts == p.plan.parts {
      var i :| 0 <= i < |s'.entries| && s'.entries[i] == e;
      assert i != p.at ==> e in s.entries;
    }
  }

  lemma LinkKeepsParts(states: seq<Store>, acts: seq<Act>, i: nat, j: nat)
    requires Run(states, acts) && i < j < |acts| && Links(acts[i], acts[j])
    requires Accepted(states[i], acts[i]) && Accepted(states[j], acts[j])
    requires forall n | 0 <= n < |acts| :: KeepsBoundPlans(states[n], acts[n])
    ensures Basis(states[i], acts[i]).Ready? && Basis(states[j], acts[j]).Ready?
    ensures Basis(states[j], acts[j]).plan.parts == Basis(states[i], acts[i]).plan.parts
  {
    hide Recover, PreflightOf;
    ReplacementParts(states[i], acts[i]);
    PartsKept(states, acts, i + 1, j, acts[i].response.plan, Basis(states[i], acts[i]).plan.parts);
    AcceptedBasis(states[j], acts[j]);
    ReadyMeans(states[j], acts[j].failed, acts[j].key);
    assert states[j].entries[Basis(states[j], acts[j]).at] in states[j].entries;
  }

  /** Under that discipline the part count, too, is the same in every generation of a chain. */
  lemma {:induction false} ChainKeepsParts(states: seq<Store>, acts: seq<Act>, ks: seq<nat>)
    requires Run(states, acts) && Chain(states, acts, ks)
    requires forall i | 0 <= i < |acts| :: KeepsBoundPlans(states[i], acts[i])
    ensures var k := ks[|ks| - 1];
      && Basis(states[ks[0]], acts[ks[0]]).Ready? && Basis(states[k], acts[k]).Ready?
      && Basis(states[k], acts[k]).plan.parts == Basis(states[ks[0]], acts[ks[0]]).plan.parts
  {
    hide Recover, PreflightOf;
    var n := |ks| - 1;
    if n > 0 {
      var before := ks[..n];
      assert Chain(states, acts, before) by { assert forall i | 0 <= i < n :: before[i] == ks[i]; }
      ChainKeepsParts(states, acts, before);
      assert Links(acts[ks[n - 1]], acts[ks[n]]);
      LinkKeepsParts(states, acts, ks[n - 1], ks[n]);
    } else {
      AcceptedBasis(states[ks[0]], acts[ks[0]]);
    }
  }
}
