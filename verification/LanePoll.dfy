/**
  One poll of one receiver: a batch of Telegram updates is previewed and
  spooled in order, the cursor moving with each durable decision, and the
  first failure leaves the rest of the batch above the cursor.
 */
module LanePoll {
  import opened Options
  import opened LaneSpool
  import opened LaneFifo
  import opened IngressLanes

  /** What previewing an update decides; routing itself is not part of this model. */
  datatype Preview =
    | Invalid
    | Dropped                                   // wrong chat, other token, empty, ...
    | Accept(requestId: string, lane: string, kind: string, updateJson: string, routeJson: string, cached: bool)
    | PreviewFails

  /** Where an exception may strike while an accepted update is ingested. */
  datatype Fault = NoFault | BeforeCommit | AfterCommit

  datatype Update = Update(rawId: Option<int>, preview: Preview, seenAt: real, fault: Fault)

  datatype Outcome = WasDropped | WasSpooled(at: nat) | WasDuplicate(at: nat) | WasOverflow | WasCached(at: nat)

  predicate ValidId(u: Update) { u.rawId.Some? && u.rawId.value >= 0 }

  /** The offset a poll starts from: the durable cursor, else the legacy offset file. */
  function StartOffset(cursors: map<string, int>, receiver: string, legacy: Option<int>): Option<int> {
    if receiver in cursors then Some(cursors[receiver]) else legacy
  }

  /** The row holds what the preview decided, and may be retried until the horizon after its first sight. */
  predicate Carries(id: Identity, u: Update, horizon: real) {
    && u.preview.Accept? && id.requestId == u.preview.requestId && id.lane == u.preview.lane && id.kind == u.preview.kind
    && id.updateJson == u.preview.updateJson && id.routeJson == u.preview.routeJson
    && id.firstSeenAt == u.seenAt && id.deadlineAt - id.firstSeenAt == horizon
  }

  /** The durable evidence for the decision recorded about an update. */
  ghost predicate Explained(rows: seq<Row>, receiver: string, u: Update, o: Outcome, horizon: real) {
    && ValidId(u)
    && (o.WasDropped? ==> u.preview.Dropped?)
    && (o.WasSpooled? || o.WasDuplicate? || o.WasCached? ==>
          && u.preview.Accept? && o.at < |rows|
          && rows[o.at].id.receiver == receiver && rows[o.at].id.updateId == u.rawId.value
          && rows[o.at].id.requestId == u.preview.requestId)
    && (o.WasSpooled? || o.WasCached? ==> Carries(rows[o.at].id, u, horizon))
    && (o.WasSpooled? ==> rows[o.at].state == Pending)
    && (o.WasCached? ==> u.preview.cached && rows[o.at].state == Done)
    && (o.WasOverflow? ==> u.preview.Accept? && !u.preview.cached)
  }

  /** Telegram returns increasing ids from the requested offset on (valid or not, they are never below it). */
  ghost predicate Batch(updates: seq<Update>, offset: int) {
    && (forall k | 0 <= k < |updates| && updates[k].rawId.Some? :: updates[k].rawId.value >= offset)
    && (forall j, k | 0 <= j < k < |updates| && updates[j].rawId.Some? && updates[k].rawId.Some? ::
          updates[j].rawId.value < updates[k].rawId.value)
  }

  function AcceptedId(receiver: string, u: Update, horizon: real): Identity
    requires ValidId(u) && u.preview.Accept?
  {
    Identity(u.preview.requestId, receiver, u.rawId.value, u.preview.lane, u.preview.kind,
             u.preview.updateJson, u.preview.routeJson, u.seenAt, u.seenAt + horizon)
  }

  /** The transaction that decides an update. */
  function Decision(receiver: string, u: Update, horizon: real, depthLimit: int): Action
    requires ValidId(u) && (u.preview.Dropped? || u.preview.Accept?)
  {
    if u.preview.Dropped? then Advance(u.seenAt, receiver, u.rawId.value + 1)
    else Enqueue(AcceptedId(receiver, u, horizon), depthLimit, u.preview.cached)
  }

  /** Why an update may be left undecided: nothing of it was committed. */
  ghost predicate Undecided(rows: seq<Row>, receiver: string, u: Update, horizon: real) {
    || !ValidId(u) || u.preview.Invalid? || u.preview.PreviewFails? || u.fault == BeforeCommit
    || (u.preview.Accept? && Clashes(rows, AcceptedId(receiver, u, horizon)))
  }

  ghost predicate AllExplained(rows: seq<Row>, receiver: string, updates: seq<Update>, outcomes: seq<Outcome>, horizon: real) {
    |outcomes| <= |updates| && forall k | 0 <= k < |outcomes| :: Explained(rows, receiver, updates[k], outcomes[k], horizon)
  }

  lemma ExplainedStable(rows: seq<Row>, more: seq<Row>, receiver: string, updates: seq<Update>, outcomes: seq<Outcome>, horizon: real)
    requires AllExplained(rows, receiver, updates, outcomes, horizon) && rows <= more
    ensures AllExplained(more, receiver, updates, outcomes, horizon)
  {
  }

  lemma DroppedExplained(rows: seq<Row>, receiver: string, u: Update, horizon: real)
    ensures ValidId(u) && u.preview.Dropped? ==> Explained(rows, receiver, u, WasDropped, horizon)
  {
  }

  lemma DuplicateExplained(rows: seq<Row>, receiver: string, u: Update, horizon: real, at: nat)
    requires ValidId(u) && u.preview.Accept? && at < |rows| && SameKey(rows[at].id, AcceptedId(receiver, u, horizon))
    ensures Explained(rows, receiver, u, WasDuplicate(at), horizon)
  {
  }

  lemma OverflowExplained(rows: seq<Row>, receiver: string, u: Update, horizon: real)
    requires ValidId(u) && u.preview.Accept? && !u.preview.cached
    ensures Explained(rows, receiver, u, WasOverflow, horizon)
  {
  }

  lemma NewRowExplained(rows: seq<Row>, receiver: string, u: Update, horizon: real, at: nat)
    requires ValidId(u) && u.preview.Accept? && at < |rows|
    requires rows[at] == NewRow(AcceptedId(receiver, u, horizon), u.preview.cached)
    ensures Explained(rows, receiver, u, if u.preview.cached then WasCached(at) else WasSpooled(at), horizon)
  {
  }

  /** One update: a durable decision that moves the cursor past it, or nothing at all. */
  method IngestOne(spool: IngressLaneSpool, receiver: string, u: Update, horizon: real, depthLimit: int)
    returns (outcome: Option<Outcome>)
    requires spool.Valid() && receiver in spool.cursors
    modifies spool
    ensures spool.Valid() && receiver in spool.cursors && old(spool.rows) <= spool.rows
    ensures outcome.None? ==> spool.View() == old(spool.View()) && Undecided(spool.rows, receiver, u, horizon)
    ensures outcome.Some? ==>
      && Explained(spool.rows, receiver, u, outcome.value, horizon)
      && spool.cursors == AdvanceCursor(old(spool.cursors), receiver, u.rawId.value + 1)
      && ValidId(u) && (u.preview.Dropped? || u.preview.Accept?)
      && spool.View() == Step(old(spool.View()), Decision(receiver, u, horizon, depthLimit))
  {
    hide Step, Safe, Depth, Explained, Carries, NewRow;
    DroppedExplained(spool.rows, receiver, u, horizon);
    if !ValidId(u) || u.preview.Invalid? || u.preview.PreviewFails? || u.fault == BeforeCommit { return None; }
    var updateId := u.rawId.value;
    if u.preview.Dropped? {
      var moved := spool.InitializeCursor(receiver, updateId + 1, u.seenAt);
      return Some(WasDropped);
    }
    assert Decision(receiver, u, horizon, depthLimit) == Enqueue(AcceptedId(receiver, u, horizon), depthLimit, u.preview.cached);
    assert AcceptedId(receiver, u, horizon).receiver == receiver && AcceptedId(receiver, u, horizon).updateId == updateId;
    hide Decision, AcceptedId;
    var result := spool.Enqueue(AcceptedId(receiver, u, horizon), depthLimit, u.preview.cached);
    match result {
      case Collision => outcome := None;
      case Duplicate(_, at) =>
        DuplicateExplained(spool.rows, receiver, u, horizon, at);
        outcome := Some(WasDuplicate(at));
      case Overflow(_) =>
        OverflowExplained(spool.rows, receiver, u, horizon);
        outcome := Some(WasOverflow);
      case Enqueued(_, at) =>
        NewRowExplained(spool.rows, receiver, u, horizon, at);
        outcome := Some(WasSpooled(at));
      case AlreadyDone(_, at) =>
        NewRowExplained(spool.rows, receiver, u, horizon, at);
        outcome := Some(WasCached(at));
    }
  }

  /**
    The ingest loop.  Afterwards every update whose id is below the cursor has a
    recorded, durable decision; every other update of the batch, the failed one
    first, is at or above the cursor and will be fetched again.
   */
  method IngestBatch(spool: IngressLaneSpool, receiver: string, updates: seq<Update>, offset: int,
                     horizon: real, depthLimit: int)
    returns (outcomes: seq<Outcome>)
    requires spool.Valid() && Batch(updates, offset)
    requires receiver in spool.cursors && spool.cursors[receiver] == offset
    modifies spool
    ensures spool.Valid() && old(spool.rows) <= spool.rows
    ensures receiver in spool.cursors && spool.cursors[receiver] >= offset
    ensures AllExplained(spool.rows, receiver, updates, outcomes, horizon)
    ensures forall k | 0 <= k < |updates| && updates[k].rawId.Some? ::
      k < |outcomes| <==> updates[k].rawId.value < spool.cursors[receiver]
    ensures |outcomes| < |updates| ==>
      || Undecided(spool.rows, receiver, updates[|outcomes|], horizon)
      || (|outcomes| > 0 && updates[|outcomes| - 1].fault == AfterCommit)
  {
    hide Step, Decision, Clashes, Explained, Undecided, Safe, Depth;
    outcomes := [];
    for k := 0 to |updates|
      invariant spool.Valid() && old(spool.rows) <= spool.rows
      invariant |outcomes| == k && AllExplained(spool.rows, receiver, updates, outcomes, horizon)
      invariant receiver in spool.cursors && spool.cursors[receiver] >= offset
      invariant k > 0 ==> ValidId(updates[k - 1])
      invariant spool.cursors[receiver] == if k == 0 then offset else updates[k - 1].rawId.value + 1
    {
      label before:
      var outcome := IngestOne(spool, receiver, updates[k], horizon, depthLimit);
      if outcome.None? { return; }
      ExplainedStable(old@before(spool.rows), spool.rows, receiver, updates, outcomes, horizon);
      outcomes := outcomes + [outcome.value];
      if updates[k].fault == AfterCommit { return; }
    }
  }

  datatype PollResult = BacklogDrained | NothingToDo | BadBacklog | Ingested(outcomes: seq<Outcome>)

  /**
    A whole poll.  A receiver with neither a durable cursor nor a legacy offset
    skips its backlog once; after that nothing below the cursor is undecided.
   */
  method PollOnce(spool: IngressLaneSpool, receiver: string, legacy: Option<int>, backlog: seq<Option<int>>,
                  updates: seq<Update>, now: real, horizon: real, depthLimit: int)
    returns (result: PollResult)
    requires spool.Valid()
    requires var start := StartOffset(spool.cursors, receiver, legacy); start.Some? ==> Batch(updates, start.value)
    modifies spool
    ensures spool.Valid()
    ensures result.Ingested? <==> StartOffset(old(spool.cursors), receiver, legacy).Some?
    ensures !result.Ingested? ==> spool.rows == old(spool.rows)
    ensures result.BacklogDrained? ==>
      backlog != [] && backlog[|backlog| - 1].Some?
      && receiver in spool.cursors && spool.cursors[receiver] == backlog[|backlog| - 1].value + 1
    ensures result.Ingested? ==>
      && receiver in spool.cursors
      && spool.cursors[receiver] >= StartOffset(old(spool.cursors), receiver, legacy).value
      && AllExplained(spool.rows, receiver, updates, result.outcomes, horizon)
      && (forall k | 0 <= k < |updates| && updates[k].rawId.Some? ::
            k < |result.outcomes| <==> updates[k].rawId.value < spool.cursors[receiver])
  {
    var offset := spool.Cursor(receiver);
    if offset.None? {
      if legacy.None? {
        if backlog == [] { return NothingToDo; }
        var last := backlog[|backlog| - 1];
        if last.None? || last.value < 0 { return BadBacklog; }
        var drained := spool.InitializeCursor(receiver, last.value + 1, now);
        return BacklogDrained;
      }
      var first := spool.InitializeCursor(receiver, legacy.value, now);
      offset := Some(first);
    }
    var outcomes := IngestBatch(spool, receiver, updates, offset.value, horizon, depthLimit);
    result := Ingested(outcomes);
  }

  // ----- a poll among everything else -------------------------------------------------------

  predicate MovesCursor(a: Action, receiver: string) {
    (a.Enqueue? && a.id.receiver == receiver) || (a.Advance? && a.receiver == receiver)
  }

  /**
    In this stretch of a run the poller commits its decisions about the first
    `|at|` updates, in order, at the steps `at`; workers, heartbeats, restarts and
    other receivers' pollers act in between, as they please.
   */
  ghost predicate Polled(states: seq<Spool>, acts: seq<Action>, start: nat, n: nat, at: seq<nat>,
                         receiver: string, updates: seq<Update>, horizon: real, depthLimit: int)
  {
    && Run(states, acts) && start <= n <= |acts| && |at| <= |updates|
    && (forall k | 0 <= k < |at| :: start <= at[k] < n && (forall j | 0 <= j < k :: at[j] < at[k]))
    && (forall k | 0 <= k < |at| ::
          && ValidId(updates[k]) && (updates[k].preview.Dropped? || updates[k].preview.Accept?)
          && acts[at[k]] == Decision(receiver, updates[k], horizon, depthLimit)
          && (updates[k].preview.Accept? ==> !Clashes(states[at[k]].rows, AcceptedId(receiver, updates[k], horizon))))
    && (forall m | start <= m < n && MovesCursor(acts[m], receiver) :: m in at)
  }

  /** The decision is durable: dropped, refused for depth when it was made, or a row that is there still. */
  ghost predicate Durable(states: seq<Spool>, at: nat, n: nat, receiver: string, u: Update, horizon: real, depthLimit: int)
    requires at < |states| && n < |states|
  {
    ValidId(u) &&
    match u.preview
    case Dropped => true
    case Accept(requestId, lane, _, _, _, cached) =>
      || (!cached && Depth(states[at].rows, lane) >= depthLimit)
      || exists i :: 0 <= i < |states[n].rows| && states[n].rows[i].id.receiver == receiver
                     && states[n].rows[i].id.updateId == u.rawId.value && states[n].rows[i].id.requestId == requestId
    case _ => false
  }

  lemma DecisionCommits(s: Spool, receiver: string, u: Update, horizon: real, depthLimit: int)
    requires ValidId(u) && (u.preview.Dropped? || u.preview.Accept?)
    requires u.preview.Accept? ==> !Clashes(s.rows, AcceptedId(receiver, u, horizon))
    ensures Step(s, Decision(receiver, u, horizon, depthLimit)).cursors == AdvanceCursor(s.cursors, receiver, u.rawId.value + 1)
    ensures u.preview.Accept? && (u.preview.cached || Depth(s.rows, u.preview.lane) < depthLimit) ==>
      exists i :: 0 <= i < |Step(s, Decision(receiver, u, horizon, depthLimit)).rows|
                  && Step(s, Decision(receiver, u, horizon, depthLimit)).rows[i].id.receiver == receiver
                  && Step(s, Decision(receiver, u, horizon, depthLimit)).rows[i].id.updateId == u.rawId.value
                  && Step(s, Decision(receiver, u, horizon, depthLimit)).rows[i].id.requestId == u.preview.requestId
  {
    if u.preview.Accept? {
      var id := AcceptedId(receiver, u, horizon);
      var hit := FindHit(s.rows, id);
      var rows' := Step(s, Decision(receiver, u, horizon, depthLimit)).rows;
      if hit.Some? { assert SameKey(s.rows[hit.value].id, id) && rows' == s.rows; }
      else if u.preview.cached || Depth(s.rows, u.preview.lane) < depthLimit { assert rows'[|s.rows|].id == id; }
    }
  }

  lemma CursorKept(s: Spool, a: Action, receiver: string)
    requires !MovesCursor(a, receiver)
    ensures receiver in Step(s, a).cursors <==> receiver in s.cursors
    ensures receiver in s.cursors ==> Step(s, a).cursors[receiver] == s.cursors[receiver]
  {
  }

  lemma PolledBefore(states: seq<Spool>, acts: seq<Action>, start: nat, n: nat, at: seq<nat>,
                     receiver: string, updates: seq<Update>, horizon: real, depthLimit: int)
    requires Polled(states, acts, start, n, at, receiver, updates, horizon, depthLimit) && start < n
    requires at != [] && at[|at| - 1] == n - 1
    ensures Polled(states, acts, start, n - 1, at[..|at| - 1], receiver, updates, horizon, depthLimit)
  {
    hide Run, Decision, Clashes, ValidId, MovesCursor;
    var k := |at| - 1;
    forall m | start <= m < n - 1 && MovesCursor(acts[m], receiver) ensures m in at[..k] {
      var i :| 0 <= i < |at| && at[i] == m;
      assert at[..k][i] == m;
    }
  }

  lemma {:induction false} CursorAfter(states: seq<Spool>, acts: seq<Action>, start: nat, n: nat, at: seq<nat>,
                                       receiver: string, updates: seq<Update>, offset: int, horizon: real, depthLimit: int)
    requires Polled(states, acts, start, n, at, receiver, updates, horizon, depthLimit) && Batch(updates, offset)
    requires receiver in states[start].cursors && states[start].cursors[receiver] == offset
    ensures receiver in states[n].cursors
    ensures states[n].cursors[receiver] == if at == [] then offset else updates[|at| - 1].rawId.value + 1
    decreases n
  {
    hide Step, Clashes;
    if start < n {
      var k := |at| - 1;
      if at != [] && at[k] == n - 1 {
        PolledBefore(states, acts, start, n, at, receiver, updates, horizon, depthLimit);
        CursorAfter(states, acts, start, n - 1, at[..k], receiver, updates, offset, horizon, depthLimit);
        DecisionCommits(states[n - 1], receiver, updates[k], horizon, depthLimit);
      } else {
        CursorAfter(states, acts, start, n - 1, at, receiver, updates, offset, horizon, depthLimit);
        CursorKept(states[n - 1], acts[n - 1], receiver);
      }
    }
  }

  lemma DecisionLasts(states: seq<Spool>, acts: seq<Action>, start: nat, n: nat, at: seq<nat>,
                      receiver: string, updates: seq<Update>, horizon: real, depthLimit: int, k: nat)
    requires Polled(states, acts, start, n, at, receiver, updates, horizon, depthLimit) && k < |at|
    ensures Durable(states, at[k], n, receiver, updates[k], horizon, depthLimit)
  {
    hide Step, Depth;
    var u, s, s' := updates[k], states[at[k]], states[at[k] + 1];
    DecisionCommits(s, receiver, u, horizon, depthLimit);
    if u.preview.Accept? && (u.preview.cached || Depth(s.rows, u.preview.lane) < depthLimit) {
      var i :| 0 <= i < |s'.rows| && s'.rows[i].id.receiver == receiver && s'.rows[i].id.updateId == u.rawId.value
               && s'.rows[i].id.requestId == u.preview.requestId;
      RowHistory(states, acts, at[k] + 1, n, i);
    }
  }

  /**
    No update is lost in any interleaving.  Whatever else commits between the
    poller's decisions, the updates below the receiver's cursor are exactly the
    decided ones, and every decision is durable; the rest will be fetched again.
   */
  lemma InterleavedPoll(states: seq<Spool>, acts: seq<Action>, start: nat, n: nat, at: seq<nat>,
                        receiver: string, updates: seq<Update>, offset: int, horizon: real, depthLimit: int)
    requires Polled(states, acts, start, n, at, receiver, updates, horizon, depthLimit) && Batch(updates, offset)
    requires receiver in states[start].cursors && states[start].cursors[receiver] == offset
    ensures receiver in states[n].cursors && states[n].cursors[receiver] >= offset
    ensures forall k | 0 <= k < |updates| && updates[k].rawId.Some? ::
      k < |at| <==> updates[k].rawId.value < states[n].cursors[receiver]
    ensures forall k | 0 <= k < |at| :: Durable(states, at[k], n, receiver, updates[k], horizon, depthLimit)
  {
    CursorAfter(states, acts, start, n, at, receiver, updates, offset, horizon, depthLimit);
    forall k | 0 <= k < |at| ensures Durable(states, at[k], n, receiver, updates[k], horizon, depthLimit) {
      DecisionLasts(states, acts, start, n, at, receiver, updates, horizon, depthLimit, k);
    }
  }
}
