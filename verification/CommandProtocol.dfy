/**
  The command path of one request id as a protocol: submitters that hold the
  state lock in atomic regions and drop it around each RPC, so that between a
  submitter's send and its reload any other submitter, linker or crash may run.
 */
module CommandProtocol {
  import opened Options
  import opened IngressRecords

  datatype Config = Config(fix: Sanitizer, id: string, horizon: real, retention: real)

  const DEADLINE_REACHED := "request deadline reached"
  const CONFLICTING := "conflicting ingress request"
  const MISSING_JSON := "missing durable request JSON"
  const INVALID_RECEIPT := "invalid Tendwire submission receipt"
  const UNCERTAIN := "Tendwire reported terminal uncertainty"
  const INVALID_RESULT := "invalid Tendwire command result"

  /** What a command RPC may come back with. */
  datatype Response =
    | ProcessLost                                                 // not started, or lost after start
    | Accepted(receipt: Option<Receipt>, owner: Option<Owner>)    // owner: the accepted target's, if known
    | Rejected
    | Uncertain
    | StillInProgress
    | NoReceiptYet(staleTarget: bool)
    | BadAnswer

  /** The end of a lock-held region. */
  datatype Decision =
    | Answer(record: Record, child: Child)                        // saved; the invocation returns `child`
    | Send(record: Record, bytes: RequestJson)                    // saved; the lock is dropped for the RPC
    | Again(record: Record, replayed: bool, refreshed: bool)      // `continue`
    | Fails                                                       // an exception; nothing is saved

  function Done(e: Effect<Child>): Decision {
    if e.Returned? then Answer(e.record, e.value) else Fails
  }

  function Quarantine(c: Config, r: Record, reason: string, now: real, disposition: Option<Transport> := None): Decision {
    Done(QuarantineRequest(c.fix, r, reason, now, disposition, QUARANTINE_REPLY, true))
  }

  /** The top of the submit loop: deadline, bytes, owner, and then the RPC. */
  function LoopTop(c: Config, r: Record, now: real, owner: Option<Owner>): Decision {
    if now >= r.deadlineAt then Quarantine(c, r, DEADLINE_REACHED, now)
    else if r.requestJson.None? then Quarantine(c, r, MISSING_JSON, now)
    else
      var bytes := r.requestJson.value;
      var e := WithOwner(r, if bytes.Canonical? && bytes.request.responseV3 then owner else None, now);
      if e.Returned? then Send(e.record, bytes) else Fails
  }

  function WithOwner(r: Record, owner: Option<Owner>, now: real): Effect<bool> {
    if r.targetOwner.None? && owner.Some? then AttachTargetOwner(r, owner.value, now) else Returned(r, false)
  }

  /** The accepted branch: attach owner and receipt, then reduce to a held terminal outcome. */
  function AfterAccepted(c: Config, r: Record, answer: Response, now: real): Decision
    requires answer.Accepted?
  {
    if answer.receipt.None? then Done(MarkTerminal(c.fix, r, TerminalAccepted, now))
    else
      var owned := WithOwner(r, answer.owner, now);
      if owned.Raised? then Fails
      else
        var attached := AttachSubmissionReceipt(owned.record, answer.receipt.value, now);
        if attached.Raised? then Quarantine(c, attached.record, INVALID_RECEIPT, now)
        else Done(MarkTerminal(c.fix, attached.record, TerminalAccepted, now))
  }

  /** From the reload after the RPC to the end of the loop body. */
  function AfterRpc(c: Config, r: Record, bytes: RequestJson, replayed: bool, answer: Response,
                    now: real, retryAt: real): Decision
  {
    if Closed(r) && r.outcome.Some? then Answer(r, r.outcome.value)
    else if r.requestJson != Some(bytes) then Quarantine(c, r, CONFLICTING, now)
    else match answer
      case ProcessLost =>
        if now >= r.deadlineAt then Quarantine(c, r, DEADLINE_REACHED, now)
        else Done(MarkRetryable(c.fix, r, None, now))
      case Accepted(_, _) => AfterAccepted(c, r, answer, now)
      case Rejected => Done(MarkTerminal(c.fix, r, TerminalRejected, now))
      case Uncertain => Quarantine(c, r, UNCERTAIN, now, Some(TerminalUncertain))
      case BadAnswer => Quarantine(c, r, INVALID_RESULT, now)
      case StillInProgress =>
        if !replayed then Again(r, true, false)
        else if now >= r.deadlineAt then Quarantine(c, r, DEADLINE_REACHED, now)
        else Done(MarkRetryable(c.fix, r, Some(InProgress), now))
      case NoReceiptYet(staleTarget) =>
        if now >= r.deadlineAt then Quarantine(c, r, DEADLINE_REACHED, now)
        else if staleTarget then
          if retryAt >= r.deadlineAt then Quarantine(c, r, DEADLINE_REACHED, retryAt)
          else
            var e := StaleTargetRefresh(r, retryAt);
            if e.Raised? then Fails
            else if e.value.Some? then Again(e.record, replayed, true)
            else Done(MarkRetryable(c.fix, e.record, Some(NoReceipt), now))
        else Done(MarkRetryable(c.fix, r, Some(NoReceipt), now))
  }

  /** What routing decides for a request without bytes; routing itself is not part of this model. */
  datatype Route =
    | Local(reason: string, reply: string, handled: bool)
    | Instruct(owner: Option<Owner>, json: RequestJson)

  /** Prune, then find or create the record; a spooled update restores its first-seen time. */
  function Shell(c: Config, disk: Option<Record>, firstSeen: Option<real>, now: real): Option<Record> {
    if disk.Some? && now <= disk.value.retainUntil then disk
    else NewRecord(c.id, if firstSeen.Some? && firstSeen.value < now then firstSeen.value else now, c.horizon, c.retention)
  }

  /** `command_reply` after the shell exists: preflight, route, bytes, loop top. */
  function Entry(c: Config, r: Record, now: real, route: Route, later: real, topOwner: Option<Owner>): Decision {
    if Closed(r) && r.outcome.Some? then Answer(r, r.outcome.value)
    else if now >= r.deadlineAt then Quarantine(c, r, DEADLINE_REACHED, now)
    else if r.requestJson.Some? then LoopTop(c, r, later, topOwner)
    else match route
      case Local(reason, reply, handled) =>
        Done(QuarantineRequest(c.fix, r, reason, later, None, reply, handled))
      case Instruct(owner, json) =>
        var owned := WithOwner(r, owner, later);
        if owned.Raised? then Fails
        else
          var e := AttachRequestJson(owned.record, json, later);
          if e.Raised? then Quarantine(c, e.record, CONFLICTING, later) else LoopTop(c, e.record, later, topOwner)
  }

  // ----- the interleaved system ----------------------------------------------------------

  datatype Pc =
    | Calling(bytes: RequestJson, replayed: bool, refreshed: bool, sends: nat)
    | Answered(child: Child)
    | Dead                                                        // crashed, or ended by an exception

  datatype System = System(disk: Option<Record>, procs: map<nat, Pc>, sent: seq<RequestJson>, clock: real)

  datatype Event =
    | Enter(pid: nat, now: real, firstSeen: Option<real>, route: Route, later: real, topOwner: Option<Owner>)
    | OwnerSavedThenCrash(pid: nat, now: real, owner: Owner, later: real)  // direct callers save twice
    | Reload(pid: nat, now: real, answer: Response, retryAt: real, topAt: real, topOwner: Option<Owner>)
    | Link(now: real, progress: SubmissionState, turnId: Option<string>)  // source sync reports the submission
    | PruneElsewhere(now: real)                                   // a command for another request prunes the store
    | Crash(pid: nat)

  const EMPTY_SYSTEM: System := System(None, map[], [], 0.0)

  /** Every retained record is validated before any use; an invalid one stops the caller. */
  predicate Corrupt(c: Config, disk: Option<Record>) {
    disk.Some? && !ValidRecord(c.fix, disk.value, c.id)
  }

  predicate Enabled(s: System, e: Event) {
    match e
    case Enter(pid, now, _, _, later, _) => pid !in s.procs && s.clock <= now <= later
    case OwnerSavedThenCrash(pid, now, _, later) => pid !in s.procs && s.clock <= now <= later
    case Reload(pid, now, _, retryAt, topAt, _) =>
      pid in s.procs && s.procs[pid].Calling? && s.clock <= now <= retryAt <= topAt
    case Link(now, progress, turnId) => s.clock <= now && (progress == Linked ==> turnId.Some?)
    case PruneElsewhere(now) => s.clock <= now
    case Crash(pid) => pid in s.procs
  }

  /** The record a reload works on: the saved one, or a fresh shell if retention dropped it meanwhile. */
  function Reloaded(c: Config, disk: Option<Record>, now: real): Option<Record> {
    if disk.Some? then disk else NewRecord(c.id, now, c.horizon, c.retention)
  }

  function Settle(s: System, pid: nat, d: Decision, replayed: bool, refreshed: bool, sends: nat, clock: real): System {
    match d
    case Answer(r, child) => s.(disk := Some(r), procs := s.procs[pid := Answered(child)], clock := clock)
    case Send(r, bytes) =>
      System(Some(r), s.procs[pid := Calling(bytes, replayed, refreshed, sends + 1)], s.sent + [bytes], clock)
    case _ => s.(procs := s.procs[pid := Dead], clock := clock)
  }

  /**
    A region that fails saves nothing more.  A direct caller has saved its shell
    by then; a spooled one saves the shell with the request; a reload saves a shell
    it had to create.
   */
  function Step(c: Config, s: System, e: Event): System
    requires Enabled(s, e)
  {
    match e
    case Crash(pid) => s.(procs := s.procs[pid := Dead])
    case Enter(pid, now, firstSeen, route, later, topOwner) =>
      var shell := Shell(c, s.disk, firstSeen, now);
      if Corrupt(c, s.disk) || shell.None? then s.(procs := s.procs[pid := Dead], clock := later)
      else
        var saved := if firstSeen.None? then s.(disk := shell) else s;
        Settle(saved, pid, Entry(c, shell.value, now, route, later, topOwner), false, false, 0, later)
    case OwnerSavedThenCrash(pid, now, owner, later) =>
      var dead := s.(procs := s.procs[pid := Dead], clock := later);
      var shell := Shell(c, s.disk, None, now);
      if Corrupt(c, s.disk) || shell.None? || shell.value.state != Resolving || now >= shell.value.deadlineAt then dead
      else dead.(disk := Some(AttachTargetOwner(shell.value, owner, later).record))
    case Reload(pid, now, answer, retryAt, topAt, topOwner) =>
      var p := s.procs[pid];
      var shell := Reloaded(c, s.disk, now);
      if Corrupt(c, s.disk) || shell.None? then s.(procs := s.procs[pid := Dead], clock := topAt)
      else
        var d := AfterRpc(c, shell.value, p.bytes, p.replayed, answer, now, retryAt);
        if d.Again? then
          Settle(s.(disk := Some(d.record)), pid, LoopTop(c, d.record, topAt, topOwner),
                 d.replayed, p.refreshed || d.refreshed, p.sends, topAt)
        else Settle(s.(disk := shell), pid, d, p.replayed, p.refreshed, p.sends, topAt)
    case Link(now, progress, turnId) =>
      if Corrupt(c, s.disk) || s.disk.None? || s.disk.value.submissionId.None? then s.(clock := now)
      else
        var e := AttachSubmissionReceipt(s.disk.value, Receipt(s.disk.value.submissionId.value, Some(progress), turnId), now);
        if e.Returned? then s.(disk := Some(e.record), clock := now) else s.(clock := now)
    case PruneElsewhere(now) =>
      if Corrupt(c, s.disk) || s.disk.None? || now <= s.disk.value.retainUntil then s.(clock := now)
      else s.(disk := None, clock := now)
  }

  /** A run starts without a record and takes enabled steps in any order. */
  ghost predicate Run(c: Config, states: seq<System>, events: seq<Event>) {
    |states| == |events| + 1 && states[0] == EMPTY_SYSTEM &&
    forall k | 0 <= k < |events| :: Enabled(states[k], events[k]) && states[k + 1] == Step(c, states[k], events[k])
  }

  /** This step drops the record because its retention is over. */
  predicate Prunes(s: System, e: Event) {
    (e.Enter? || e.OwnerSavedThenCrash? || e.PruneElsewhere?) && s.disk.Some? && e.now > s.disk.value.retainUntil
  }

  /** No step from `k` on and before `n` drops the record: the two lie in one retention period. */
  ghost predicate Retained(states: seq<System>, events: seq<Event>, k: nat, n: nat)
    requires |states| > |events| && n <= |events|
  {
    forall m | k <= m < n :: !Prunes(states[m], events[m])
  }
}
