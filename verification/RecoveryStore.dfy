/**
  Turn-final recovery: the part of the state store it reads and writes, its
  preflight, the check of the provider's answer, and the cutover that copies an
  acknowledged prefix to a replacement plan.
 */
module RecoveryStore {
  import opened Options

  datatype Substate =
    | Reserved | RetryableJob | TelegramApplied | OldSlotRetired | Suppressed | Acknowledged | FailedJob

  datatype Operation = Upsert | Retire | OtherOperation

  /** `turn-final:<plan>:<sequence, six digits>`, or any other ledger key. */
  datatype JobKey = Stable(plan: string, sequence: int) | OtherKey(text: string)

  /** An empty string stands for an absent message id, prior id or bot kind. */
  datatype Receipt = Receipt(
    plan: string, revision: string, operation: Operation, sequence: int, ordinal: int, partCount: int,
    messageId: string, priorId: string, botKind: string, substate: Substate, checkpoint: int)

  datatype Job = Job(key: JobKey, receipt: Receipt)

  datatype Entry = Entry(
    routable: bool,
    pending: Option<string>, pendingTurn: Option<string>, pendingRevision: Option<string>,
    pendingParts: Option<int>, pendingJobs: Option<int>, pendingGeneration: Option<int>,
    acknowledgedPrefix: Option<int>, predecessor: Option<string>,
    abandoned: Option<string>, abandonedTurn: Option<string>, abandonedRevision: Option<string>,
    abandonedParts: Option<int>, abandonedJobs: Option<int>, abandonedGeneration: Option<int>,
    abandonedPredecessor: Option<string>)

  datatype MessageBinding = MessageBinding(plan: string, job: Option<JobKey>)

  datatype RequestBinding = RequestBinding(key: string, failed: string, plan: string, generation: int)

  datatype Audit = Audit(
    key: string, failed: string, plan: string, generation: int, revision: string, active: bool,
    prefix: int, executable: int, retained: int, priorAttempts: int)

  /** Every table is a list in dictionary order. */
  datatype Store = Store(
    entries: seq<Entry>, jobs: seq<Job>, checkpoint: nat, messages: seq<MessageBinding>,
    requests: seq<RequestBinding>, audits: seq<Audit>)

  datatype Response = Response(
    ok: bool, wellShaped: bool, failed: string, plan: string, generation: int, revision: string, active: bool,
    prefix: int, executable: int, retained: int, priorAttempts: int, idempotentReplay: bool)

  datatype Status =
    | InvalidRequest | RequestConflict | CapacityExceeded | PlanNotFound | RouteAmbiguous | StateInvalid
    | ReceiptInflight | ReceiptUncertain | StateUncertain

  const JOB_LIMIT: nat := 20001
  const AUDIT_LIMIT: nat := 100

  // ----- tokens --------------------------------------------------------------------

  predicate TokenText(s: string) {
    forall c | c in s :: 'a' <= c <= 'z' || 'A' <= c <= 'Z' || '0' <= c <= '9' || c == '_' || c == '-'
  }

  predicate ValidPlanToken(t: string) { 9 <= |t| <= 264 && t[..8] == "twplan1." && TokenText(t[8..]) }

  predicate PlausibleRevision(t: string) { |t| >= 7 && t[..7] == "twrev1." }

  predicate ValidRevision(t: string) { PlausibleRevision(t) && 8 <= |t| <= 263 && TokenText(t[7..]) }

  // ----- lookups --------------------------------------------------------------------

  function FindJob(jobs: seq<Job>, key: JobKey): (r: Option<nat>)
    ensures r.Some? ==> r.value < |jobs| && jobs[r.value].key == key
    ensures r.None? <==> forall i | 0 <= i < |jobs| :: jobs[i].key != key
  {
    if jobs == [] then None
    else if jobs[|jobs| - 1].key == key then Some(|jobs| - 1)
    else FindJob(jobs[..|jobs| - 1], key)
  }

  function FindAudit(audits: seq<Audit>, key: string): (r: Option<nat>)
    ensures r.Some? ==> r.value < |audits| && audits[r.value].key == key
    ensures r.None? <==> forall i | 0 <= i < |audits| :: audits[i].key != key
  {
    if audits == [] then None
    else if audits[|audits| - 1].key == key then Some(|audits| - 1)
    else FindAudit(audits[..|audits| - 1], key)
  }

  function FindRequest(requests: seq<RequestBinding>, key: string): (r: Option<nat>)
    ensures r.Some? ==> r.value < |requests| && requests[r.value].key == key
    ensures r.None? <==> forall i | 0 <= i < |requests| :: requests[i].key != key
  {
    if requests == [] then None
    else if requests[|requests| - 1].key == key then Some(|requests| - 1)
    else FindRequest(requests[..|requests| - 1], key)
  }

  predicate Holds(e: Entry, plan: string) {
    e.pending == Some(plan) || (e.pending.None? && e.abandoned == Some(plan))
  }

  predicate UniqueHolder(entries: seq<Entry>, plan: string, at: nat) {
    && at < |entries| && Holds(entries[at], plan)
    && forall i | 0 <= i < |entries| && i != at :: !Holds(entries[i], plan)
  }

  // ----- the coordinates of an entry's plan ---------------------------------------------

  datatype Plan = Plan(revision: Option<string>, parts: Option<int>, jobs: Option<int>, generation: int,
                       predecessor: Option<string>)

  function OrElse<T>(a: Option<T>, b: Option<T>): Option<T> { if a.Some? then a else b }

  function PlanOf(e: Entry): Plan {
    Plan(OrElse(e.pendingRevision, e.abandonedRevision), OrElse(e.pendingParts, e.abandonedParts),
         OrElse(e.pendingJobs, e.abandonedJobs),
         if e.pendingGeneration.Some? then e.pendingGeneration.value
         else if e.abandonedGeneration.Some? then e.abandonedGeneration.value else 1,
         OrElse(e.predecessor, e.abandonedPredecessor))
  }

  predicate ValidPlan(p: Plan) {
    && p.revision.Some? && PlausibleRevision(p.revision.value)
    && p.parts.Some? && p.parts.value > 0 && p.jobs.Some? && p.jobs.value >= p.parts.value
    && p.generation >= 1
    && (p.generation > 1 ==> p.predecessor.Some? && ValidPlanToken(p.predecessor.value))
  }

  // ----- the inherited audit ---------------------------------------------------------------

  /** Request keys whose binding or audit names this plan as the replacement. */
  function Candidates(s: Store, plan: string): set<string> {
    (set b | b in s.requests && b.plan == plan :: b.key) + (set a | a in s.audits && a.plan == plan :: a.key)
  }

  predicate Inherits(s: Store, key: string, failed: string, p: Plan)
    requires ValidPlan(p) && p.generation > 1
  {
    && FindAudit(s.audits, key).Some? && FindRequest(s.requests, key).Some?
    && var a := s.audits[FindAudit(s.audits, key).value];
    && var b := s.requests[FindRequest(s.requests, key).value];
    && ValidPlanToken(a.failed) && a.failed == p.predecessor.value && b.failed == p.predecessor.value
    && a.failed != failed && a.plan == failed && a.revision == p.revision.value && a.active
    && a.generation == p.generation && a.prefix >= 0 && a.executable >= 0 && a.priorAttempts >= 0
    && a.prefix + a.executable == p.jobs.value && a.retained > 0
    && b.plan == failed && b.generation == p.generation
  }

  /** Failed jobs retained by earlier generations of this plan; None when the evidence does not identify it. */
  function Inherited(s: Store, failed: string, p: Plan): (r: Option<int>)
    requires ValidPlan(p)
    ensures r.Some? ==> r.value >= 0 && (p.generation == 1 <==> r.value == 0)
  {
    var keys := Candidates(s, failed);
    if p.generation == 1 then if keys == {} then Some(0) else None
    else if |keys| != 1 then None
    else
      var key := Only(keys);
      if Inherits(s, key, failed, p) then Some(s.audits[FindAudit(s.audits, key).value].retained) else None
  }

  lemma OnlyOne(s: set<string>, x: string, y: string)
    requires |s| == 1 && x in s && y in s
    ensures x == y
  {
    assert |s - {x}| == 0;
  }

  function Only(s: set<string>): (x: string)
    requires |s| == 1
    ensures x in s
  {
    assert s != {};
    assert forall x, y | x in s && y in s :: x == y by { forall x, y | x in s && y in s ensures x == y { OnlyOne(s, x, y); } }
    var x :| x in s;
    x
  }

  // ----- receipts of the failed plan ----------------------------------------------------------

  function OfPlan(jobs: seq<Job>, plan: string): seq<Job> {
    if jobs == [] then []
    else
      var last := jobs[|jobs| - 1];
      OfPlan(jobs[..|jobs| - 1], plan) + if last.receipt.plan == plan then [last] else []
  }

  predicate SameRevision(jobs: seq<Job>, plan: string, revision: string) {
    forall i | 0 <= i < |jobs| && jobs[i].receipt.plan == plan :: jobs[i].receipt.revision == revision
  }

  /** Stable insertion after every job with at most this sequence index. */
  function Insert(sorted: seq<Job>, j: Job): seq<Job> {
    if sorted == [] || sorted[|sorted| - 1].receipt.sequence <= j.receipt.sequence then sorted + [j]
    else Insert(sorted[..|sorted| - 1], j) + [sorted[|sorted| - 1]]
  }

  function SortBySequence(jobs: seq<Job>): seq<Job> {
    if jobs == [] then [] else Insert(SortBySequence(jobs[..|jobs| - 1]), jobs[|jobs| - 1])
  }

  predicate ShortId(s: string) { 0 < |s| <= 80 }

  predicate ValidAcknowledged(j: Job, plan: string, revision: string) {
    var r := j.receipt;
    && r.sequence >= 0 && j.key == Stable(plan, r.sequence) && r.plan == plan && r.revision == revision
    && r.operation != OtherOperation && r.ordinal >= 0 && r.partCount > 0 && r.checkpoint > 0
    && if r.operation == Upsert then
         r.ordinal < r.partCount && ShortId(r.messageId) && r.messageId != "0" && |r.priorId| <= 80
       else r.ordinal >= r.partCount && ShortId(r.priorId) && r.messageId == ""
  }

  /** The first `k` receipts are acknowledged, well formed and numbered 0, 1, .., k-1. */
  predicate AcknowledgedPrefix(js: seq<Job>, k: nat, plan: string, revision: string) {
    k <= |js| && forall i | 0 <= i < k ::
      js[i].receipt.substate == Acknowledged && js[i].receipt.sequence == i && ValidAcknowledged(js[i], plan, revision)
  }

  /** An acknowledged prefix 0..k-1 and then nothing but failed receipts, up to `n`. */
  predicate PrefixThenFailed(js: seq<Job>, k: nat, n: nat, plan: string, revision: string) {
    && k <= n <= |js| && AcknowledgedPrefix(js, k, plan, revision)
    && forall i | k <= i < n :: js[i].receipt.substate == FailedJob
  }

  function FaultOf(t: Substate): Status {
    match t
    case TelegramApplied => ReceiptInflight
    case OldSlotRetired => ReceiptInflight
    case Reserved => ReceiptUncertain
    case _ => StateInvalid
  }

  datatype Scan = Clean(prefix: nat) | Fault(status: Status)

  /** The scan of the sorted receipts from `i` on, `expected` acknowledged ones behind it. */
  function ScanFrom(js: seq<Job>, i: nat, expected: nat, tail: bool, plan: string, revision: string): Scan
    requires i <= |js|
    decreases |js| - i
  {
    if i == |js| then Clean(expected)
    else
      var r := js[i].receipt;
      if r.substate == Acknowledged then
        if tail || r.sequence != expected || !ValidAcknowledged(js[i], plan, revision) then Fault(StateInvalid)
        else ScanFrom(js, i + 1, expected + 1, tail, plan, revision)
      else if r.substate == FailedJob then ScanFrom(js, i + 1, expected, true, plan, revision)
      else Fault(FaultOf(r.substate))
  }

  function CountFailed(js: seq<Job>): nat {
    if js == [] then 0
    else CountFailed(js[..|js| - 1]) + if js[|js| - 1].receipt.substate == FailedJob then 1 else 0
  }

  /** A message of the failed plan whose job is not in the acknowledged prefix. */
  predicate Unproven(m: MessageBinding, failed: string, prefix: seq<Job>) {
    m.plan == failed && !(m.job.Some? && exists i | 0 <= i < |prefix| :: prefix[i].key == m.job.value)
  }

  // ----- audit eviction -------------------------------------------------------------------------

  predicate TokenOf(e: Entry, t: string) { e.pending == Some(t) || e.abandoned == Some(t) }

  predicate Protected(entries: seq<Entry>, released: Option<string>, t: string) {
    ValidPlanToken(t) && released != Some(t) && exists i | 0 <= i < |entries| :: TokenOf(entries[i], t)
  }

  predicate Evictable(s: Store, released: Option<string>, a: Audit) {
    && !Protected(s.entries, released, a.plan)
    && (FindRequest(s.requests, a.key).Some? ==>
          !Protected(s.entries, released, s.requests[FindRequest(s.requests, a.key).value].plan))
  }

  /** The first audit no entry needs. */
  function EvictionFrom(s: Store, released: Option<string>, i: nat): (r: Option<nat>)
    requires i <= |s.audits|
    ensures r.Some? ==> i <= r.value < |s.audits| && Evictable(s, released, s.audits[r.value])
    ensures forall k | i <= k < (if r.Some? then r.value else |s.audits|) :: !Evictable(s, released, s.audits[k])
    decreases |s.audits| - i
  {
    if i == |s.audits| then None
    else if Evictable(s, released, s.audits[i]) then Some(i)
    else EvictionFrom(s, released, i + 1)
  }

  // ----- preflight --------------------------------------------------------------------------------

  datatype Preflight =
    | Refused(status: Status)
    | Replay(audit: Audit)
    | Ready(at: nat, plan: Plan, prefix: seq<Job>, failedTail: nat, inherited: int)

  function PreflightBound(s: Store, failed: string, key: string): Preflight
    requires FindRequest(s.requests, key).Some?
  {
    var b := s.requests[FindRequest(s.requests, key).value];
    var a := FindAudit(s.audits, key);
    if b.failed == failed && ValidPlanToken(b.plan) && a.Some?
       && s.audits[a.value].failed == failed && s.audits[a.value].plan == b.plan
    then Replay(s.audits[a.value]) else Refused(RequestConflict)
  }

  /** The preflight of an unbound request once its entry and inherited count are known. */
  function PreflightReceipts(s: Store, failed: string, at: nat, p: Plan, inherited: int): Preflight
    requires ValidPlan(p)
  {
    var revision := p.revision.value;
    if !SameRevision(s.jobs, failed, revision) then Refused(StateInvalid)
    else
      var js := SortBySequence(OfPlan(s.jobs, failed));
      var scan := ScanFrom(js, 0, 0, false, failed, revision);
      if scan.Fault? then Refused(scan.status)
      else if scan.prefix > |js| then Refused(StateInvalid)
      else
        var prefix := js[..scan.prefix];
        if exists m | m in s.messages :: Unproven(m, failed, prefix) then Refused(ReceiptUncertain)
        else if |s.jobs| + p.jobs.value > JOB_LIMIT then Refused(CapacityExceeded)
        else if |s.audits| >= AUDIT_LIMIT && EvictionFrom(s, Some(failed), 0).None? then Refused(CapacityExceeded)
        else Ready(at, p, prefix, CountFailed(js[scan.prefix..]), inherited)
  }

  function Holders(entries: seq<Entry>, plan: string): seq<nat> {
    if entries == [] then []
    else
      var n := |entries| - 1;
      Holders(entries[..n], plan) + if Holds(entries[n], plan) then [n] else []
  }

  function PreflightEntry(s: Store, failed: string, at: nat): Preflight
    requires at < |s.entries|
  {
    var p := PlanOf(s.entries[at]);
    if !s.entries[at].routable then Refused(RouteAmbiguous)
    else if !ValidPlan(p) || Inherited(s, failed, p).None? then Refused(StateInvalid)
    else PreflightReceipts(s, failed, at, p, Inherited(s, failed, p).value)
  }

  function PreflightOf(s: Store, failed: string, key: string): Preflight {
    if FindRequest(s.requests, key).Some? then PreflightBound(s, failed, key)
    else if FindAudit(s.audits, key).Some? then Refused(RequestConflict)
    else if |s.requests| >= JOB_LIMIT then Refused(CapacityExceeded)
    else
      var matches := Holders(s.entries, failed);
      if |matches| != 1 || matches[0] >= |s.entries| then Refused(PlanNotFound)
      else PreflightEntry(s, failed, matches[0])
  }

  // ----- the provider's answer -----------------------------------------------------------------------

  predicate ValidResponse(r: Response, failed: string, revision: string, prefix: int, jobs: int, generation: int,
                          retained: int)
  {
    && r.wellShaped && r.ok && r.failed == failed && ValidPlanToken(r.plan) && r.plan != failed
    && r.revision == revision && r.active
    && r.generation >= 0 && r.prefix >= 0 && r.executable >= 0 && r.retained >= 0 && r.priorAttempts >= 0
    && r.generation == generation && r.prefix == prefix && r.prefix + r.executable == jobs && r.retained == retained
  }

  function AuditOf(r: Response, key: string): Audit {
    Audit(key, r.failed, r.plan, r.generation, r.revision, r.active, r.prefix, r.executable, r.retained, r.priorAttempts)
  }

  // ----- the job ledger -----------------------------------------------------------------------------------

  /** `Cleans` marks the point where a full ledger would be cleaned up; a recovery never gets there. */
  datatype Ledger = Done(jobs: seq<Job>, checkpoint: nat) | Raised | Cleans

  predicate Compatible(have: string, want: string) { want == "" || have == "" || have == want }

  function Reserve(jobs: seq<Job>, checkpoint: nat, want: Receipt): Ledger {
    var key := Stable(want.plan, want.sequence);
    if !ValidPlanToken(want.plan) || !ValidRevision(want.revision) || want.sequence < 0
       || want.operation == OtherOperation || want.ordinal < 0 || want.partCount < 1
       || (want.operation == Upsert && want.ordinal >= want.partCount)
       || |want.messageId| > 80 || |want.priorId| > 80 || |want.botKind| > 40 then Raised
    else
      var at := FindJob(jobs, key);
      if at.Some? then
        var have := jobs[at.value].receipt;
        if have.plan == want.plan && have.revision == want.revision && have.operation == want.operation
           && have.sequence == want.sequence && have.ordinal == want.ordinal && have.partCount == want.partCount
           && Compatible(have.messageId, want.messageId) && Compatible(have.priorId, want.priorId)
           && Compatible(have.botKind, want.botKind)
        then Done(jobs, checkpoint) else Raised
      else if |jobs| >= JOB_LIMIT then Cleans
      else Done(jobs + [Job(key, want.(substate := Reserved, checkpoint := checkpoint + 1))], checkpoint + 1)
  }

  predicate MayBecome(current: Substate, next: Substate) {
    match current
    case Reserved => next in {Reserved, RetryableJob, TelegramApplied, Suppressed, FailedJob}
    case RetryableJob => next in {RetryableJob, Reserved, FailedJob}
    case TelegramApplied => next in {TelegramApplied, OldSlotRetired, Acknowledged, FailedJob}
    case OldSlotRetired => next in {OldSlotRetired, Acknowledged, FailedJob}
    case Suppressed => next in {Suppressed, Acknowledged, FailedJob}
    case Acknowledged => next == Acknowledged
    case FailedJob => next == FailedJob
  }

  /** None stands for an argument that was not passed. */
  predicate Settable(have: string, value: Option<string>, limit: nat) {
    value.Some? ==> 0 < |value.value| <= limit && (have == "" || have == value.value)
  }

  function Given(have: string, value: Option<string>): string { if value.Some? then value.value else have }

  function Update(jobs: seq<Job>, checkpoint: nat, key: JobKey, next: Substate,
                  messageId: Option<string>, priorId: Option<string>, botKind: Option<string>): Ledger
  {
    var at := FindJob(jobs, key);
    if at.None? then Raised
    else
      var have := jobs[at.value].receipt;
      if !MayBecome(have.substate, next) || !Settable(have.messageId, messageId, 80)
         || !Settable(have.priorId, priorId, 80) || !Settable(have.botKind, botKind, 40) then Raised
      else
        var updated := have.(messageId := Given(have.messageId, messageId), priorId := Given(have.priorId, priorId),
                         botKind := Given(have.botKind, botKind));
        if next == TelegramApplied && ((updated.operation == Upsert && updated.messageId == "")
                                       || (updated.operation == Retire && updated.priorId == "")) then Raised
        else if next == OldSlotRetired && (updated.operation != Upsert || updated.priorId == "") then Raised
        else if next != have.substate || messageId.Some? || priorId.Some? || botKind.Some? then
          Done(jobs[at.value := Job(key, updated.(substate := next, checkpoint := checkpoint + 1))], checkpoint + 1)
        else Done(jobs, checkpoint)
  }

  function IfGiven(s: string): Option<string> { if s == "" then None else Some(s) }

  /** One acknowledged receipt copied under the replacement plan, through every substate. */
  function CloneReceipt(jobs: seq<Job>, checkpoint: nat, r: Receipt, plan: string): Ledger {
    var key := Stable(plan, r.sequence);
    var l := Reserve(jobs, checkpoint, r.(plan := plan));
    if !l.Done? then l
    else
      var l := if r.operation == Upsert
               then Update(l.jobs, l.checkpoint, key, TelegramApplied, Some(r.messageId), IfGiven(r.priorId), IfGiven(r.botKind))
               else Update(l.jobs, l.checkpoint, key, TelegramApplied, None, Some(r.priorId), IfGiven(r.botKind));
      if !l.Done? then l
      else
        var l := if r.operation == Upsert && r.priorId != ""
                 then Update(l.jobs, l.checkpoint, key, OldSlotRetired, None, None, None) else l;
        if !l.Done? then l else Update(l.jobs, l.checkpoint, key, Acknowledged, None, None, None)
  }

  function ClonePrefix(jobs: seq<Job>, checkpoint: nat, prefix: seq<Job>, plan: string): Ledger {
    if prefix == [] then Done(jobs, checkpoint)
    else
      var n := |prefix| - 1;
      var l := ClonePrefix(jobs, checkpoint, prefix[..n], plan);
      if !l.Done? then l else CloneReceipt(l.jobs, l.checkpoint, prefix[n].receipt, plan)
  }

  // ----- cutover --------------------------------------------------------------------------------------------

  function KeyMap(prefix: seq<Job>, plan: string): map<JobKey, JobKey> {
    if prefix == [] then map[]
    else
      var n := |prefix| - 1;
      KeyMap(prefix[..n], plan)[prefix[n].key := Stable(plan, prefix[n].receipt.sequence)]
  }

  function Rebind(m: MessageBinding, failed: string, plan: string, keys: map<JobKey, JobKey>): MessageBinding {
    if m.plan == failed && m.job.Some? && m.job.value in keys then MessageBinding(plan, Some(keys[m.job.value])) else m
  }

  function RebindAll(ms: seq<MessageBinding>, failed: string, plan: string, keys: map<JobKey, JobKey>): seq<MessageBinding> {
    seq(|ms|, i requires 0 <= i < |ms| => Rebind(ms[i], failed, plan, keys))
  }

  function Cutover(e: Entry, failed: string, plan: string, prefix: nat, executable: int, generation: int): Entry {
    Entry(e.routable, Some(plan), OrElse(e.pendingTurn, e.abandonedTurn), OrElse(e.pendingRevision, e.abandonedRevision),
          OrElse(e.pendingParts, e.abandonedParts), Some(prefix + executable), Some(generation), Some(prefix), Some(failed),
          None, None, None, None, None, None, None)
  }

  /** The store after the copy and the cutover, before the audit is recorded. */
  function CutOver(s: Store, l: Ledger, failed: string, at: nat, prefix: seq<Job>, key: string, r: Response): Store
    requires l.Done? && at < |s.entries|
  {
    s.(jobs := l.jobs, checkpoint := l.checkpoint,
       messages := RebindAll(s.messages, failed, r.plan, KeyMap(prefix, r.plan)),
       entries := s.entries[at := Cutover(s.entries[at], failed, r.plan, |prefix|, r.executable, r.generation)],
       requests := s.requests + [RequestBinding(key, failed, r.plan, r.generation)])
  }

  function RecordAudit(s: Store, a: Audit): Option<Store> {
    if |s.audits| < AUDIT_LIMIT then Some(s.(audits := s.audits + [a]))
    else
      var victim := EvictionFrom(s, None, 0);
      if victim.None? then None
      else Some(s.(audits := s.audits[..victim.value] + s.audits[victim.value + 1..] + [a]))
  }

  /** None when the copy raises; the caller then saves nothing. */
  function Replace(s: Store, failed: string, at: nat, prefix: seq<Job>, key: string, r: Response): Option<Store> {
    var l := ClonePrefix(s.jobs, s.checkpoint, prefix, r.plan);
    if !l.Done? || at >= |s.entries| || !Holds(s.entries[at], failed) then None
    else if FindRequest(s.requests, key).Some? || |s.requests| >= JOB_LIMIT || FindAudit(s.audits, key).Some? then None
    else RecordAudit(CutOver(s, l, failed, at, prefix, key, r), AuditOf(r, key))
  }

  datatype Reply = Failure(status: Status) | ProviderFailure | Crash | Recovered(response: Response)

  /** The whole command under the state lock; `r` is the provider's answer if it is asked. */
  function Recover(s: Store, failed: string, key: string, r: Response): (Store, Reply) {
    if !ValidPlanToken(failed) then (s, Failure(InvalidRequest))
    else
      var before := PreflightOf(s, failed, key);
      if before.Refused? then (s, Failure(before.status))
      else if !r.ok then (s, ProviderFailure)
      else if before.Replay? then
        var a := before.audit;
        if ValidResponse(r, failed, a.revision, a.prefix, a.prefix + a.executable, a.generation, a.retained)
           && AuditOf(r, a.key) == a && r.idempotentReplay
        then (s, Recovered(r)) else (s, Failure(StateUncertain))
      else if before.plan.revision.None? || before.plan.jobs.None?
              || !ValidResponse(r, failed, before.plan.revision.value, |before.prefix|, before.plan.jobs.value,
                                before.plan.generation + 1, before.inherited + before.failedTail)
      then (s, Failure(StateUncertain))
      else
        var s' := Replace(s, failed, before.at, before.prefix, key, r);
        if s'.None? then (s, Crash) else (s'.value, Recovered(r))
  }
}
