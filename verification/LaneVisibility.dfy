/**
  The dispatcher's read-only snapshot, and what it is for: every lane that has
  pending work is claimable, or visibly obstructed since a known instant.
 */
module LaneVisibility {
  import opened Options
  import opened LaneSpool
  import opened LaneFifo

  // ----- the snapshot query ---------------------------------------------------

  function PendingRows(rows: seq<Row>): set<nat> {
    set i: nat | i < |rows| && rows[i].state == Pending
  }

  function PendingLanes(rows: seq<Row>): set<string> {
    set i: nat | i < |rows| && rows[i].state == Pending :: rows[i].id.lane
  }

  /** `MIN(seq) ... WHERE state != 'done' GROUP BY lane_key` */
  predicate OpenHead(rows: seq<Row>, i: nat, lane: string) {
    i < |rows| && rows[i].id.lane == lane && rows[i].state != Done && IsHead(rows, i)
  }

  function ClaimableRows(rows: seq<Row>, now: real): set<nat> {
    set i: nat | i < |rows| && Claimable(rows, i, now)
  }

  function ClaimableLanes(rows: seq<Row>, now: real): set<string> {
    set i | i in ClaimableRows(rows, now) :: rows[i].id.lane
  }

  predicate BackingOff(r: Row, now: real) { r.state == Pending && r.nextAttemptAt > now }

  /** When the lane head started to obstruct its lane; `None` is SQL's NULL. */
  function ObstructionStart(head: Row): Option<real> {
    if head.stateSince.Some? then head.stateSince
    else if head.state == Processing then None
    else Some(head.updatedAt)
  }

  function RetryStart(head: Row): Option<real> {
    if head.retryObstructedSince.Some? then head.retryObstructedSince
    else if head.state == Pending && head.attempts > 0 then Some(head.updatedAt) else None
  }

  predicate Elapsed(start: Option<real>, now: real, stallAfter: real) {
    start.Some? && start.value <= now - stallAfter
  }

  function UnknownObstructions(rows: seq<Row>, now: real): set<string> {
    set i: nat | i < |rows| && OpenHead(rows, i, rows[i].id.lane)
                 && rows[i].id.lane in PendingLanes(rows)
                 && !BackingOff(rows[i], now) && ObstructionStart(rows[i]).None? :: rows[i].id.lane
  }

  function StalledLanes(rows: seq<Row>, now: real, stallAfter: real): set<string> {
    set i: nat | i < |rows| && OpenHead(rows, i, rows[i].id.lane)
                 && rows[i].id.lane in PendingLanes(rows)
                 && !BackingOff(rows[i], now) && Elapsed(ObstructionStart(rows[i]), now, stallAfter)
                 && rows[i].id.lane !in ClaimableLanes(rows, now) :: rows[i].id.lane
  }

  function RetryObstructedLanes(rows: seq<Row>, now: real, stallAfter: real): set<string> {
    set i: nat | i < |rows| && OpenHead(rows, i, rows[i].id.lane)
                 && rows[i].id.lane in PendingLanes(rows)
                 && Elapsed(RetryStart(rows[i]), now, stallAfter)
                 && rows[i].id.lane !in ClaimableLanes(rows, now) :: rows[i].id.lane
  }

  datatype DispatchSnapshot = DispatchSnapshot(
    pendingCount: nat, processingCount: nat, blockedCount: nat,
    eligibleLaneCount: nat, claimableLaneCount: nat, firstClaimableLane: string,
    unknownObstructionLaneCount: nat, retryObstructedLaneCount: nat, stalledLaneCount: nat)

  function Snapshot(rows: seq<Row>, now: real, stallAfter: real): DispatchSnapshot {
    var first := FirstClaimable(rows, now);
    DispatchSnapshot(
      |PendingRows(rows)|,
      |set i: nat | i < |rows| && rows[i].state == Processing|,
      |set i: nat | i < |rows| && rows[i].state == Blocked|,
      |PendingLanes(rows)|,
      |ClaimableRows(rows, now)|,
      if first.Some? then rows[first.value].id.lane else "",
      |UnknownObstructions(rows, now)|,
      |RetryObstructedLanes(rows, now, stallAfter)|,
      |StalledLanes(rows, now, stallAfter)|)
  }

  // ----- claim agrees with the snapshot -----------------------------------------

  lemma {:induction false} InjectiveImageSize(s: set<nat>, rows: seq<Row>)
    requires forall i | i in s :: i < |rows|
    requires forall i, j | i in s && j in s && i != j :: rows[i].id.lane != rows[j].id.lane
    ensures |set i | i in s :: rows[i].id.lane| == |s|
    decreases s
  {
    if s != {} {
      var x :| x in s;
      InjectiveImageSize(s - {x}, rows);
      assert (set i | i in s :: rows[i].id.lane) == (set i | i in s - {x} :: rows[i].id.lane) + {rows[x].id.lane};
    }
  }

  /** Counting claimable rows is counting claimable lanes: a lane has one head. */
  lemma ClaimableRowsAreLanes(rows: seq<Row>, now: real, stallAfter: real)
    ensures Snapshot(rows, now, stallAfter).claimableLaneCount == |ClaimableLanes(rows, now)|
  {
    forall i, j | i in ClaimableRows(rows, now) && j in ClaimableRows(rows, now) && i != j
      ensures rows[i].id.lane != rows[j].id.lane
    {
      assert IsHead(rows, i) && IsHead(rows, j);
      if i < j { assert rows[i].state != Done; } else { assert rows[j].state != Done; }
    }
    InjectiveImageSize(ClaimableRows(rows, now), rows);
  }

  /**
    `claim` returns nothing exactly when the snapshot taken after expiry shows
    no claimable lane; with nothing to expire it leases `first_claimable_lane`.
   */
  lemma ClaimAgreesWithSnapshot(s: Spool, owner: string, now: real, lease: real, stallAfter: real)
    ensures Leased(s, Claim(now, owner, lease)).None?
       <==> Snapshot(Expired(s.rows, now), now, stallAfter).claimableLaneCount == 0
    ensures (forall i | 0 <= i < |s.rows| :: !LeaseExpired(s.rows[i], now) && !HoldExpired(s.rows[i], now)) ==>
      var leased := Leased(s, Claim(now, owner, lease));
      && (leased.None? <==> Snapshot(s.rows, now, stallAfter).claimableLaneCount == 0)
      && (leased.Some? ==> Snapshot(s.rows, now, stallAfter).firstClaimableLane == s.rows[leased.value].id.lane)
  {
    var expired := Expired(s.rows, now);
    var leased := FirstClaimable(expired, now);
    if leased.Some? { assert leased.value in ClaimableRows(expired, now); }
    if forall i | 0 <= i < |s.rows| :: !LeaseExpired(s.rows[i], now) && !HoldExpired(s.rows[i], now) {
      assert ExpireLeases(s.rows, now) == s.rows;
      assert expired == s.rows;
    }
  }

  // ----- clocks -------------------------------------------------------------------

  /** The clock fields of a row written by this version, as of the instant `clock`. */
  predicate ClockedRow(r: Row, clock: real) {
    && r.stateSince.Some? && r.stateSince.value <= clock
    && (r.attempts > 0 <==> r.retryObstructedSince.Some?)
    && (r.retryObstructedSince.Some? ==> r.retryObstructedSince.value <= clock)
    && (r.state == Pending || r.state == Processing ==>
          && (r.attempts == 0 ==> r.nextAttemptAt <= clock)
          && r.nextAttemptAt <= Max(r.id.firstSeenAt, r.id.deadlineAt))
    && (r.state == Processing <==> r.leaseOwner.Some?)
    && (r.state == Processing <==> r.leaseUntil.Some?)
  }

  ghost predicate Clocked(s: Spool, clock: real) {
    forall i | 0 <= i < |s.rows| :: ClockedRow(s.rows[i], clock)
  }

  /**
    The instants the first `n` transactions were given have come.  Each is read before
    its transaction opens, so they need not be in the order of the commits.
   */
  ghost predicate AllBy(acts: seq<Action>, n: nat, now: real) {
    n <= |acts| && forall k | 0 <= k < n :: Time(acts[k]) <= now
  }

  lemma ClaimKeepsClocked(s: Spool, a: Action, i: nat, clock: real)
    requires a.Claim? && i < |s.rows| && ClockedRow(s.rows[i], clock) && a.now <= clock
    ensures i < |Step(s, a).rows| && ClockedRow(Step(s, a).rows[i], clock)
  {
    assert ClockedRow(Expired(s.rows, a.now)[i], clock);
  }

  /** Actions that change at most one row. */
  lemma OneRowKeepsClocked(s: Spool, a: Action, i: nat, clock: real)
    requires !a.Claim? && !a.Enqueue? && !a.Advance? && !a.ExpireHoldsAt? && !a.Reclaim?
    requires i < |s.rows| && ClockedRow(s.rows[i], clock) && a.now <= clock
    ensures i < |Step(s, a).rows| && ClockedRow(Step(s, a).rows[i], clock)
  {
    if a.Retry? && OwnedBy(s.rows, a.at, a.owner) && a.at == i {
      assert Step(s, a).rows[i] == Reschedule(s.rows[i], a.backoff, a.now);
    }
  }

  lemma RowKeepsClocked(s: Spool, a: Action, i: nat, clock: real)
    requires i < |s.rows| && ClockedRow(s.rows[i], clock) && Time(a) <= clock
    ensures i < |Step(s, a).rows| && ClockedRow(Step(s, a).rows[i], clock)
  {
    if a.Claim? {
      ClaimKeepsClocked(s, a, i, clock);
    } else if a.Enqueue? {
      Growth(s, a);
    } else if a.ExpireHoldsAt? || a.Reclaim? || a.Advance? {
      RowStep(s, a, i);
    } else {
      OneRowKeepsClocked(s, a, i, clock);
    }
  }

  lemma StepKeepsClocked(s: Spool, a: Action, clock: real)
    requires Clocked(s, clock) && Time(a) <= clock
    ensures Clocked(Step(s, a), clock)
  {
    Growth(s, a);
    forall i | 0 <= i < |s.rows| { RowKeepsClocked(s, a, i, clock); }
  }

  lemma {:induction false} RunIsClocked(states: seq<Spool>, acts: seq<Action>, n: nat, now: real)
    requires Run(states, acts) && AllBy(acts, n, now)
    ensures Clocked(states[n], now)
  {
    if n > 0 {
      RunIsClocked(states, acts, n - 1, now);
      StepKeepsClocked(states[n - 1], acts[n - 1], now);
    }
  }

  lemma {:induction false} LatestInstant(acts: seq<Action>, n: nat) returns (now: real)
    requires n <= |acts|
    ensures AllBy(acts, n, now)
  {
    now := 0.0;
    if n > 0 {
      var before := LatestInstant(acts, n - 1);
      now := Max(before, Time(acts[n - 1]));
    }
  }

  /** A lane with an open row has exactly one open head, at or before that row. */
  lemma {:induction false} FindHead(rows: seq<Row>, i: nat) returns (h: nat)
    requires i < |rows| && rows[i].state != Done
    ensures h <= i && OpenHead(rows, h, rows[i].id.lane)
    decreases i
  {
    if IsHead(rows, i) {
      h := i;
    } else {
      var j: nat :| j < i && rows[j].id.lane == rows[i].id.lane && rows[j].state != Done;
      h := FindHead(rows, j);
    }
  }

  lemma OneHead(rows: seq<Row>, g: nat, h: nat, lane: string)
    requires OpenHead(rows, g, lane) && OpenHead(rows, h, lane)
    ensures g == h
  {
  }

  /**
    Every non-draining lane becomes visible.  In every run of this version, observed
    at an instant no transaction was ahead of, a lane with pending work is claimable,
    or has an obstructing head with a known start `t <= now` and is reported stalled (held head)
    or retry-obstructed (head in backoff) from `t + stallAfter` on.  No
    obstruction has an unknown clock, and a claimable lane is never reported.
   */
  lemma EveryLaneVisible(states: seq<Spool>, acts: seq<Action>, n: nat, now: real, stallAfter: real, i: nat)
    returns (head: nat)
    requires Run(states, acts) && AllBy(acts, n, now)
    requires i < |states[n].rows| && states[n].rows[i].state == Pending
    ensures OpenHead(states[n].rows, head, states[n].rows[i].id.lane)
    ensures UnknownObstructions(states[n].rows, now) == {}
    ensures var rows, lane := states[n].rows, states[n].rows[i].id.lane;
      var stalled := lane in StalledLanes(rows, now, stallAfter);
      var retrying := lane in RetryObstructedLanes(rows, now, stallAfter);
      if lane in ClaimableLanes(rows, now) then !stalled && !retrying
      else if BackingOff(rows[head], now) then
        && RetryStart(rows[head]).Some? && RetryStart(rows[head]).value <= now
        && !stalled && (retrying <==> Elapsed(RetryStart(rows[head]), now, stallAfter))
      else
        && Held(rows[head])
        && ObstructionStart(rows[head]).Some? && ObstructionStart(rows[head]).value <= now
        && (stalled <==> Elapsed(ObstructionStart(rows[head]), now, stallAfter))
  {
    var rows, lane := states[n].rows, states[n].rows[i].id.lane;
    RunIsClocked(states, acts, n, now);
    head := FindHead(rows, i);
    assert ClockedRow(rows[head], now);
    forall h: nat | h < |rows| && OpenHead(rows, h, lane) ensures h == head { OneHead(rows, h, head, lane); }
    assert lane in PendingLanes(rows);
    if Claimable(rows, head, now) { assert head in ClaimableRows(rows, now); }
    forall h: nat | h < |rows| ensures ObstructionStart(rows[h]).Some? { assert ClockedRow(rows[h], now); }
  }

  // ----- what the snapshot counts ---------------------------------------------------

  function CountState(rows: seq<Row>, state: RowState): nat {
    if rows == [] then 0
    else CountState(rows[..|rows| - 1], state) + if rows[|rows| - 1].state == state then 1 else 0
  }

  function InState(rows: seq<Row>, state: RowState): set<nat> { set i: nat | i < |rows| && rows[i].state == state }

  lemma {:induction false} CountsAreSizes(rows: seq<Row>, state: RowState)
    ensures |InState(rows, state)| == CountState(rows, state)
  {
    if rows != [] {
      var n := |rows| - 1;
      CountsAreSizes(rows[..n], state);
      assert InState(rows, state) == InState(rows[..n], state) + (if rows[n].state == state then {n} else {});
    }
  }

  /** Lanes with pending work whose head waits for its next attempt. */
  function BackoffLanes(rows: seq<Row>, now: real): set<string> {
    set i: nat | i < |rows| && OpenHead(rows, i, rows[i].id.lane) && BackingOff(rows[i], now) :: rows[i].id.lane
  }

  /** Lanes with pending work behind a row in processing or on hold. */
  function HeldLanes(rows: seq<Row>): set<string> {
    set i: nat | i < |rows| && OpenHead(rows, i, rows[i].id.lane) && Held(rows[i])
                 && rows[i].id.lane in PendingLanes(rows) :: rows[i].id.lane
  }

  /** Every lane with pending work is claimable, or its head is backing off, or its head is held; and only one of them. */
  lemma LanesPartition(rows: seq<Row>, now: real)
    ensures PendingLanes(rows) == ClaimableLanes(rows, now) + BackoffLanes(rows, now) + HeldLanes(rows)
    ensures ClaimableLanes(rows, now) !! BackoffLanes(rows, now)
    ensures HeldLanes(rows) !! ClaimableLanes(rows, now) + BackoffLanes(rows, now)
  {
    forall lane | lane in PendingLanes(rows)
      ensures lane in ClaimableLanes(rows, now) + BackoffLanes(rows, now) + HeldLanes(rows)
    {
      var i: nat :| i < |rows| && rows[i].state == Pending && rows[i].id.lane == lane;
      var h := FindHead(rows, i);
      assert OpenHead(rows, h, rows[h].id.lane);
      if Claimable(rows, h, now) { assert h in ClaimableRows(rows, now); }
    }
    LanesExclude(rows, now);
  }

  lemma LanesExclude(rows: seq<Row>, now: real)
    ensures ClaimableLanes(rows, now) !! BackoffLanes(rows, now)
    ensures HeldLanes(rows) !! ClaimableLanes(rows, now) + BackoffLanes(rows, now)
    ensures ClaimableLanes(rows, now) + BackoffLanes(rows, now) <= PendingLanes(rows)
  {
    forall g: nat, h: nat | g < |rows| && h < |rows| && rows[g].id.lane == rows[h].id.lane
                            && OpenHead(rows, g, rows[g].id.lane) && OpenHead(rows, h, rows[h].id.lane)
      ensures g == h
    {
      OneHead(rows, g, h, rows[g].id.lane);
    }
    forall i | i in ClaimableRows(rows, now) ensures OpenHead(rows, i, rows[i].id.lane) { }
  }

  /** The lanes a set of heads belongs to that are obstructed since `start`, long enough to be reported. */
  function Overdue(rows: seq<Row>, lanes: set<string>, now: real, stallAfter: real): set<string> {
    set i: nat | i < |rows| && OpenHead(rows, i, rows[i].id.lane) && rows[i].id.lane in lanes
                 && rows[i].stateSince.Some? && rows[i].stateSince.value + stallAfter <= now :: rows[i].id.lane
  }

  function RetriedLongAgo(rows: seq<Row>, lanes: set<string>, now: real, stallAfter: real): set<string> {
    set i: nat | i < |rows| && OpenHead(rows, i, rows[i].id.lane) && rows[i].id.lane in lanes && rows[i].attempts > 0
                 && rows[i].retryObstructedSince.Some? && rows[i].retryObstructedSince.value + stallAfter <= now :: rows[i].id.lane
  }

  /**
    What the dispatcher's snapshot counts, in every run.  Rows by state; lanes with
    work, which are the claimable, the backing off and the held ones; no unknown
    obstruction; stalled are the held lanes whose head has been held that long, and
    retry-obstructed the unclaimable ones whose head was first retried that long ago.
   */
  lemma SnapshotCounts(states: seq<Spool>, acts: seq<Action>, n: nat, now: real, stallAfter: real)
    requires Run(states, acts) && AllBy(acts, n, now)
    ensures var rows := states[n].rows;
      var shot := Snapshot(rows, now, stallAfter);
      && shot.pendingCount == CountState(rows, Pending) && shot.processingCount == CountState(rows, Processing)
      && shot.blockedCount == CountState(rows, Blocked)
      && shot.eligibleLaneCount == shot.claimableLaneCount + |BackoffLanes(rows, now)| + |HeldLanes(rows)|
      && shot.unknownObstructionLaneCount == 0
      && shot.stalledLaneCount == |Overdue(rows, HeldLanes(rows), now, stallAfter)|
      && shot.retryObstructedLaneCount == |RetriedLongAgo(rows, BackoffLanes(rows, now) + HeldLanes(rows), now, stallAfter)|
  {
    var rows := states[n].rows;
    RunIsClocked(states, acts, n, now);
    CountsAreSizes(rows, Pending);
    CountsAreSizes(rows, Processing);
    CountsAreSizes(rows, Blocked);
    LanesPartition(rows, now);
    ClaimableRowsAreLanes(rows, now, stallAfter);
    ReportedLanes(rows, now, stallAfter);
    assert |PendingLanes(rows)| == |ClaimableLanes(rows, now) + BackoffLanes(rows, now)| + |HeldLanes(rows)|;
    assert PendingRows(rows) == InState(rows, Pending);
    hide PendingLanes, ClaimableLanes, BackoffLanes, HeldLanes, StalledLanes, RetryObstructedLanes, UnknownObstructions, Overdue, RetriedLongAgo;
  }

  lemma ReportedLanes(rows: seq<Row>, now: real, stallAfter: real)
    requires forall i | 0 <= i < |rows| :: ClockedRow(rows[i], now)
    ensures UnknownObstructions(rows, now) == {}
    ensures StalledLanes(rows, now, stallAfter) == Overdue(rows, HeldLanes(rows), now, stallAfter)
    ensures RetryObstructedLanes(rows, now, stallAfter)
         == RetriedLongAgo(rows, BackoffLanes(rows, now) + HeldLanes(rows), now, stallAfter)
  {
    LanesPartition(rows, now);
    forall h: nat | h < |rows| ensures ObstructionStart(rows[h]) == rows[h].stateSince { assert ClockedRow(rows[h], now); }
    forall h: nat | h < |rows|
      ensures RetryStart(rows[h]) == rows[h].retryObstructedSince && (rows[h].attempts > 0 <==> rows[h].retryObstructedSince.Some?)
    {
      assert ClockedRow(rows[h], now);
    }
    StalledAreHeld(rows, now, stallAfter);
    hide Claimable, IsHead;
  }

  lemma StalledAreHeld(rows: seq<Row>, now: real, stallAfter: real)
    requires forall h: nat | h < |rows| :: ObstructionStart(rows[h]) == rows[h].stateSince
    ensures StalledLanes(rows, now, stallAfter) == Overdue(rows, HeldLanes(rows), now, stallAfter)
  {
    LanesPartition(rows, now);
    forall i: nat | i < |rows| && OpenHead(rows, i, rows[i].id.lane) && rows[i].id.lane in PendingLanes(rows)
      ensures rows[i].id.lane in HeldLanes(rows) <==> rows[i].id.lane !in ClaimableLanes(rows, now) && !BackingOff(rows[i], now)
    {
      HeadDecides(rows, i, now);
    }
  }

  lemma HeadDecides(rows: seq<Row>, i: nat, now: real)
    requires i < |rows| && OpenHead(rows, i, rows[i].id.lane) && rows[i].id.lane in PendingLanes(rows)
    ensures rows[i].id.lane in HeldLanes(rows) <==> Held(rows[i])
    ensures rows[i].id.lane in BackoffLanes(rows, now) <==> BackingOff(rows[i], now)
    ensures rows[i].id.lane in ClaimableLanes(rows, now) <==> Claimable(rows, i, now)
  {
    forall h: nat | h < |rows| && OpenHead(rows, h, rows[i].id.lane) ensures h == i { OneHead(rows, h, i, rows[i].id.lane); }
    forall h | h in ClaimableRows(rows, now) && rows[h].id.lane == rows[i].id.lane ensures h == i {
      assert OpenHead(rows, h, rows[i].id.lane);
    }
    if Claimable(rows, i, now) { assert i in ClaimableRows(rows, now); }
  }

  /** Whatever its backoff, a lane's pending head is claimable once its deadline has come. */
  lemma HeadDueByDeadline(states: seq<Spool>, acts: seq<Action>, n: nat, now: real, i: nat)
    requires Run(states, acts) && AllBy(acts, n, now)
    requires i < |states[n].rows| && OpenHead(states[n].rows, i, states[n].rows[i].id.lane)
    requires states[n].rows[i].state == Pending
    requires Max(states[n].rows[i].id.firstSeenAt, states[n].rows[i].id.deadlineAt) <= now
    ensures states[n].rows[i].id.lane in ClaimableLanes(states[n].rows, now)
  {
    RunIsClocked(states, acts, n, now);
    assert ClockedRow(states[n].rows[i], now);
    assert i in ClaimableRows(states[n].rows, now);
  }

  /** How a step may move the two obstruction clocks of one row. */
  predicate ClocksMove(s: Spool, a: Action, i: nat, r: Row, r': Row) {
    && (r.retryObstructedSince.Some? ==> r'.retryObstructedSince == r.retryObstructedSince)
    && (r.retryObstructedSince.None? && r'.retryObstructedSince.Some? ==>
          a.Retry? && a.at == i && r'.retryObstructedSince == Some(a.now) && r'.attempts == 1)
    && (r'.stateSince != r.stateSince ==> r'.state != r.state || Leased(s, a) == Some(i))
    && (a.Renew? ==> r'.stateSince == r.stateSince && r'.state == r.state)
  }

  lemma ClaimMovesClocks(s: Spool, a: Action, i: nat, clock: real)
    requires a.Claim? && i < |s.rows| && ClockedRow(s.rows[i], clock)
    ensures i < |Step(s, a).rows| && ClocksMove(s, a, i, s.rows[i], Step(s, a).rows[i])
  {
  }

  lemma OtherMovesClocks(s: Spool, a: Action, i: nat, clock: real)
    requires !a.Claim? && !a.Enqueue? && i < |s.rows| && ClockedRow(s.rows[i], clock)
    ensures i < |Step(s, a).rows| && ClocksMove(s, a, i, s.rows[i], Step(s, a).rows[i])
  {
  }

  /**
    The retry clock is written by the first retry and never again, and
    `state_since` moves only when the state does (or the row is leased): a
    lease renewal moves neither.
   */
  lemma ClocksAreNotReset(s: Spool, a: Action, i: nat, clock: real)
    requires Clocked(s, clock) && i < |s.rows|
    ensures i < |Step(s, a).rows| && ClocksMove(s, a, i, s.rows[i], Step(s, a).rows[i])
  {
    assert ClockedRow(s.rows[i], clock);
    if a.Claim? { ClaimMovesClocks(s, a, i, clock); }
    else if a.Enqueue? { Growth(s, a); }
    else { OtherMovesClocks(s, a, i, clock); }
  }

  /** The retry clock survives every run, whatever the clocks of its transactions say. */
  lemma {:induction false} RetryClockNeverMoves(states: seq<Spool>, acts: seq<Action>, k: nat, n: nat, i: nat)
    requires Run(states, acts) && k <= n <= |acts| && i < |states[k].rows|
    requires states[k].rows[i].retryObstructedSince.Some?
    ensures i < |states[n].rows| && states[n].rows[i].retryObstructedSince == states[k].rows[i].retryObstructedSince
    decreases n
  {
    if k < n {
      RetryClockNeverMoves(states, acts, k, n - 1, i);
      var latest := LatestInstant(acts, n - 1);
      RunIsClocked(states, acts, n - 1, latest);
      ClocksAreNotReset(states[n - 1], acts[n - 1], i, latest);
      RowStep(states[n - 1], acts[n - 1], i);
    }
  }

  // ----- backoff --------------------------------------------------------------------

  lemma {:induction false} DoublingGrows(backoff: real, m: nat, n: nat)
    requires m <= n && backoff >= 0.0
    ensures 0.0 <= Doubled(backoff, m) <= Doubled(backoff, n)
    decreases n
  {
    if m < n { DoublingGrows(backoff, m, n - 1); }
    else if m > 0 { DoublingGrows(backoff, m - 1, n - 1); }
  }

  /** Backoff delays never shrink from one attempt to the next and never exceed five minutes. */
  lemma BackoffMonotone(backoff: real, m: nat, n: nat)
    requires 0 < m <= n && backoff >= 0.0
    ensures 0.0 <= RetryDelay(backoff, m) <= RetryDelay(backoff, n) <= 300.0
  {
    DoublingGrows(backoff, if m - 1 <= 16 then m - 1 else 16, if n - 1 <= 16 then n - 1 else 16);
  }

  /** A retried row is next due no later than five minutes from now and its deadline. */
  lemma RetryIsBounded(s: Spool, i: nat, owner: string, now: real, backoff: real)
    requires OwnedBy(s.rows, i, owner) && backoff >= 0.0
    ensures var r := Step(s, Retry(now, i, owner, backoff)).rows[i];
      && r.state == Pending && r.attempts == s.rows[i].attempts + 1
      && r.nextAttemptAt <= now + 300.0 && r.nextAttemptAt <= r.id.deadlineAt
      && (now <= r.id.deadlineAt ==> r.nextAttemptAt >= now)
  {
    BackoffMonotone(backoff, s.rows[i].attempts + 1, s.rows[i].attempts + 1);
  }
}
