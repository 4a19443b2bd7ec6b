/**
  Safety of the spool over whole runs: strict FIFO inside a lane, absorbing
  `done`, no redelivery of a held row, fencing by lease owner, bounded depth,
  and the agreement between a spooled row and its receiver's cursor.
 */
module LaneFifo {
  import opened Options
  import opened LaneSpool

  predicate Held(r: Row) { r.state == Processing || r.state == Blocked }

  /** Every held row is the head of its lane. */
  ghost predicate HeldIsHead(rows: seq<Row>) {
    forall i | 0 <= i < |rows| && Held(rows[i]) :: IsHead(rows, i)
  }

  ghost predicate KeysUnique(rows: seq<Row>) {
    forall i, j | 0 <= i < j < |rows| ::
      && rows[i].id.requestId != rows[j].id.requestId
      && !(rows[i].id.receiver == rows[j].id.receiver && rows[i].id.updateId == rows[j].id.updateId)
  }

  ghost predicate CursorsCover(s: Spool) {
    forall i | 0 <= i < |s.rows| ::
      s.rows[i].id.receiver in s.cursors && s.rows[i].id.updateId < s.cursors[s.rows[i].id.receiver]
  }

  ghost predicate Safe(s: Spool) {
    HeldIsHead(s.rows) && KeysUnique(s.rows) && CursorsCover(s)
  }

  /** What one transaction may do to one existing row. */
  lemma RowStep(s: Spool, a: Action, i: nat)
    requires i < |s.rows|
    ensures i < |Step(s, a).rows|
    ensures var r, r' := s.rows[i], Step(s, a).rows[i];
      && r'.id == r.id
      && r'.attempts >= r.attempts
      && (r.state == Done ==> r'.state == Done && Leased(s, a) != Some(i))
      && (r.state == Blocked ==> r'.state in {Blocked, Done} && Leased(s, a) != Some(i))
      && (Held(r') ==> Held(r) || Leased(s, a) == Some(i))
  {
  }

  /** A transaction appends at most one row, and never a held one. */
  lemma Growth(s: Spool, a: Action)
    ensures |s.rows| <= |Step(s, a).rows| <= |s.rows| + 1
    ensures |Step(s, a).rows| > |s.rows| ==>
      a.Enqueue? && Step(s, a).rows == s.rows + [NewRow(a.id, a.alreadyDone)]
      && forall i | 0 <= i < |s.rows| :: !LookupHit(s.rows[i], a.id)
  {
  }

  /** The leased row is the head of its lane, before and after the claim. */
  lemma LeasedIsHead(s: Spool, a: Action, i: nat)
    requires Leased(s, a) == Some(i)
    ensures IsHead(Step(s, a).rows, i) && Step(s, a).rows[i].state == Processing
  {
    var expired := Expired(s.rows, a.now);
    assert IsHead(expired, i);
  }

  lemma HeadKept(s: Spool, a: Action, i: nat)
    requires i < |s.rows| && IsHead(s.rows, i)
    ensures i < |Step(s, a).rows| && IsHead(Step(s, a).rows, i)
  {
    RowStep(s, a, i);
    forall j | 0 <= j < i { RowStep(s, a, j); }
  }

  lemma CursorStep(s: Spool, a: Action)
    ensures forall k | k in s.cursors :: k in Step(s, a).cursors && Step(s, a).cursors[k] >= s.cursors[k]
  {
  }

  lemma StepKeepsSafe(s: Spool, a: Action)
    requires Safe(s)
    ensures Safe(Step(s, a))
  {
    var rows' := Step(s, a).rows;
    Growth(s, a);
    CursorStep(s, a);
    forall i | 0 <= i < |rows'| && Held(rows'[i]) ensures IsHead(rows', i) {
      RowStep(s, a, i);
      if Leased(s, a) == Some(i) { LeasedIsHead(s, a, i); } else { HeadKept(s, a, i); }
    }
    forall i | 0 <= i < |s.rows| ensures rows'[i].id == s.rows[i].id { RowStep(s, a, i); }
  }

  lemma {:induction false} RunIsSafe(states: seq<Spool>, acts: seq<Action>, n: nat)
    requires Run(states, acts) && n <= |acts|
    ensures Safe(states[n])
  {
    hide Step;
    if n > 0 {
      RunIsSafe(states, acts, n - 1);
      StepKeepsSafe(states[n - 1], acts[n - 1]);
    }
  }

  /**
    Whatever a row was at step `k`, at any later step it has the same identity
    and at least as many attempts, a done row is still done, a blocked row is
    blocked or done, and a lane head is still a lane head.
   */
  lemma {:induction false} RowHistory(states: seq<Spool>, acts: seq<Action>, k: nat, n: nat, i: nat)
    requires Run(states, acts) && k <= n <= |acts| && i < |states[k].rows|
    ensures i < |states[n].rows|
    ensures var r, r' := states[k].rows[i], states[n].rows[i];
      && r'.id == r.id && r'.attempts >= r.attempts
      && (r.state == Done ==> r'.state == Done)
      && (r.state == Blocked ==> r'.state in {Blocked, Done})
      && (IsHead(states[k].rows, i) ==> IsHead(states[n].rows, i))
    ensures forall receiver | receiver in states[k].cursors ::
      receiver in states[n].cursors && states[n].cursors[receiver] >= states[k].cursors[receiver]
    decreases n - k
  {
    hide Step, Leased;
    if k < n {
      RowHistory(states, acts, k, n - 1, i);
      RowStep(states[n - 1], acts[n - 1], i);
      CursorStep(states[n - 1], acts[n - 1]);
      if IsHead(states[n - 1].rows, i) { HeadKept(states[n - 1], acts[n - 1], i); }
    }
  }

  /**
    Strict lane FIFO over every run.  A row that is processing or blocked now, or
    that some earlier claim leased, has every smaller-`seq` row of its lane done;
    so a lane never has two held rows.
   */
  lemma StrictFifo(states: seq<Spool>, acts: seq<Action>, n: nat, i: nat, j: nat)
    requires Run(states, acts) && n <= |acts| && i < |states[n].rows| && j < i
    requires states[n].rows[j].id.lane == states[n].rows[i].id.lane
    requires Held(states[n].rows[i]) || exists k :: 0 <= k < n && Leased(states[k], acts[k]) == Some(i)
    ensures states[n].rows[j].state == Done
  {
    RunIsSafe(states, acts, n);
    if !Held(states[n].rows[i]) {
      var k :| 0 <= k < n && Leased(states[k], acts[k]) == Some(i);
      LeasedIsHead(states[k], acts[k], i);
      assert states[k + 1] == Step(states[k], acts[k]);
      RowHistory(states, acts, k + 1, n, i);
    }
  }

  /** An ambiguous delivery is never redispatched: no claim ever leases a row once held or finished. */
  lemma NeverRedispatched(states: seq<Spool>, acts: seq<Action>, k: nat, n: nat, i: nat)
    requires Run(states, acts) && k <= n < |acts| && i < |states[k].rows|
    requires states[k].rows[i].state in {Blocked, Done}
    ensures Leased(states[n], acts[n]) != Some(i)
  {
    RowHistory(states, acts, k, n, i);
    RowStep(states[n], acts[n], i);
  }

  /**
    Fencing.  Outside a claim (or a restart's reclaim) only an action that carries
    the current lease owner's string can take a row out of `processing`.
   */
  lemma OnlyTheOwnerSettles(s: Spool, a: Action, i: nat)
    requires i < |s.rows| && s.rows[i].state == Processing
    requires !a.Claim? && !a.Reclaim?
    requires Step(s, a).rows[i].state != Processing
    ensures a.MarkDone? || a.MarkBlocked? || a.Retry?
    ensures a.at == i && s.rows[i].leaseOwner == Some(a.owner)
  {
  }

  lemma OwnerStep(s: Spool, a: Action, i: nat)
    requires i < |s.rows| && Leased(s, a) != Some(i)
    ensures i < |Step(s, a).rows|
    ensures var r, r' := s.rows[i], Step(s, a).rows[i];
      r'.state == Processing ==> r.state == Processing && r'.leaseOwner == r.leaseOwner
  {
  }

  /** Between two claims of a row nothing leases it or changes its owner. */
  lemma {:induction false} LeasedByClaimsOnly(states: seq<Spool>, acts: seq<Action>, k: nat, n: nat, i: nat)
    requires Run(states, acts) && k <= n <= |acts| && i < |states[k].rows|
    requires forall m | k <= m < n :: Leased(states[m], acts[m]) != Some(i)
    ensures i < |states[n].rows|
    ensures states[n].rows[i].state == Processing ==>
      states[k].rows[i].state == Processing && states[n].rows[i].leaseOwner == states[k].rows[i].leaseOwner
    decreases n
  {
    hide Step, Leased;
    if k < n {
      LeasedByClaimsOnly(states, acts, k, n - 1, i);
      OwnerStep(states[n - 1], acts[n - 1], i);
    }
  }

  lemma NotifyStep(s: Spool, a: Action, i: nat)
    requires i < |s.rows| && s.rows[i].notifyState != "pending"
    requires a.MarkDone? ==> a.notify != Some("pending")
    ensures i < |Step(s, a).rows| && Step(s, a).rows[i].notifyState != "pending"
  {
    RowStep(s, a, i);
  }

  /**
    At most one notification claim per row succeeds, as long as no settlement
    writes the initial notification state back.
   */
  lemma {:induction false} NotificationClaimedOnce(states: seq<Spool>, acts: seq<Action>, k: nat, n: nat, i: nat)
    requires Run(states, acts) && k < n <= |acts| && i < |states[k].rows|
    requires forall m | 0 <= m < |acts| && acts[m].MarkDone? :: acts[m].notify != Some("pending")
    requires acts[k].ClaimNotification? && acts[k].at == i && NotifyIs(states[k].rows, i, "pending")
    ensures i < |states[n].rows| && states[n].rows[i].notifyState != "pending"
    decreases n
  {
    if k + 1 == n {
      assert states[n] == Step(states[k], acts[k]);
    } else {
      NotificationClaimedOnce(states, acts, k, n - 1, i);
      NotifyStep(states[n - 1], acts[n - 1], i);
    }
  }

  // ----- depth --------------------------------------------------------------

  lemma {:induction false} DepthPointwise(a: seq<Row>, b: seq<Row>, lane: string)
    requires |a| == |b|
    requires forall i | 0 <= i < |a| :: a[i].id == b[i].id && (a[i].state == Done ==> b[i].state == Done)
    ensures Depth(b, lane) <= Depth(a, lane)
    decreases |a|
  {
    if |a| > 0 { DepthPointwise(a[..|a| - 1], b[..|b| - 1], lane); }
  }

  lemma DepthStep(s: Spool, a: Action, lane: string, limit: int)
    requires a.Enqueue? ==> a.depthLimit <= limit
    ensures Depth(Step(s, a).rows, lane) <= Depth(s.rows, lane) || Depth(Step(s, a).rows, lane) <= limit
  {
    var rows' := Step(s, a).rows;
    Growth(s, a);
    forall i | 0 <= i < |s.rows| ensures rows'[i].id == s.rows[i].id && (s.rows[i].state == Done ==> rows'[i].state == Done) {
      RowStep(s, a, i);
    }
    if |rows'| == |s.rows| {
      DepthPointwise(s.rows, rows', lane);
    } else {
      assert rows'[..|rows'| - 1] == s.rows;
    }
  }

  predicate OpenIn(r: Row, lane: string) { r.id.lane == lane && r.state != Done }

  /** The rows of a lane that still count against its depth. */
  ghost function OpenRows(rows: seq<Row>, lane: string): set<int> {
    set i | 0 <= i < |rows| && OpenIn(rows[i], lane)
  }

  lemma OpenNext(before: seq<Row>, r: Row, lane: string)
    ensures |OpenRows(before + [r], lane)| == |OpenRows(before, lane)| + if OpenIn(r, lane) then 1 else 0
  {
    hide OpenIn;
    var rows, n := before + [r], |before|;
    forall i ensures i in OpenRows(rows, lane) <==> i in OpenRows(before, lane) || (i == n && OpenIn(r, lane)) {
      if 0 <= i < n { assert rows[i] == before[i]; }
    }
    assert OpenRows(rows, lane) == OpenRows(before, lane) + if OpenIn(r, lane) then {n} else {};
  }

  lemma {:induction false} DepthCounts(rows: seq<Row>, lane: string)
    ensures Depth(rows, lane) == |OpenRows(rows, lane)|
  {
    if rows != [] {
      var n := |rows| - 1;
      assert rows == rows[..n] + [rows[n]];
      OpenNext(rows[..n], rows[n], lane);
      hide OpenRows;
      DepthCounts(rows[..n], lane);
    }
  }

  predicate Stored(rows: seq<Row>, id: Identity) { exists i | 0 <= i < |rows| :: SameKey(rows[i].id, id) }

  /**
    Which answer an update gets: the row it already has, a collision that changes
    nothing, an overflow exactly if its lane is full, or a new row.  All but the
    collision move the cursor past it, and never back.
   */
  lemma EnqueueExactly(s: Spool, id: Identity, limit: int, alreadyDone: bool)
    requires Safe(s)
    ensures var (s', r) := EnqueueTx(s, id, limit, alreadyDone);
      var full := !alreadyDone && |OpenRows(s.rows, id.lane)| >= limit;
      var next := if id.receiver in s.cursors && s.cursors[id.receiver] > id.updateId then s.cursors[id.receiver] else id.updateId + 1;
      && (r.Collision? <==> Clashes(s.rows, id)) && (r.Duplicate? <==> Stored(s.rows, id) && !Clashes(s.rows, id))
      && (r.Duplicate? ==> r.at < |s.rows| && SameKey(s.rows[r.at].id, id))
      && (!Clashes(s.rows, id) && !Stored(s.rows, id) ==>
            r == if full then Overflow(next) else if alreadyDone then AlreadyDone(next, |s.rows|) else Enqueued(next, |s.rows|))
      && s'.cursors == (if r.Collision? then s.cursors else s.cursors[id.receiver := next])
      && (if r.Enqueued? || r.AlreadyDone? then |s'.rows| == |s.rows| + 1 && s'.rows[|s.rows|].id == id else s'.rows == s.rows)
  {
    DepthCounts(s.rows, id.lane);
  }

  lemma NoDepth(lane: string)
    ensures Depth(EMPTY.rows, lane) == 0
  {
  }

  /** If every enqueue of a run uses a depth limit of at most `limit`, no lane ever has more open rows. */
  lemma {:induction false} DepthBounded(states: seq<Spool>, acts: seq<Action>, n: nat, lane: string, limit: nat)
    requires Run(states, acts) && n <= |acts|
    requires forall k | 0 <= k < |acts| && acts[k].Enqueue? :: acts[k].depthLimit <= limit
    ensures Depth(states[n].rows, lane) <= limit
  {
    hide Step, Depth;
    if n == 0 {
      NoDepth(lane);
    } else {
      DepthBounded(states, acts, n - 1, lane, limit);
      DepthStep(states[n - 1], acts[n - 1], lane, limit);
    }
  }

  // ----- enqueue --------------------------------------------------------------

  /** The outcome of `enqueue` does not depend on which row its OR lookup fetched. */
  lemma LookupChoiceIrrelevant(s: Spool, id: Identity, limit: int, done: bool, x: nat, y: nat)
    requires KeysUnique(s.rows)
    requires x < |s.rows| && LookupHit(s.rows[x], id)
    requires y < |s.rows| && LookupHit(s.rows[y], id)
    ensures EnqueueFetched(s, id, limit, done, Some(x)) == EnqueueFetched(s, id, limit, done, Some(y))
  {
    if x < y { assert s.rows[x].id.requestId != s.rows[y].id.requestId; }
    if y < x { assert s.rows[y].id.requestId != s.rows[x].id.requestId; }
  }

  /** Redelivering an accepted update changes nothing and names the same row. */
  lemma EnqueueIdempotent(s: Spool, id: Identity, limit: int, done: bool, limit': int, done': bool)
    requires Safe(s)
    requires var r := EnqueueTx(s, id, limit, done).1; !r.Collision? && !r.Overflow?
    ensures var (s1, r1) := EnqueueTx(s, id, limit, done);
      EnqueueTx(s1, id, limit', done') == (s1, Duplicate(r1.cursor, r1.at))
  {
    var (s1, r1) := EnqueueTx(s, id, limit, done);
    StepKeepsSafe(s, Enqueue(id, limit, done));
    assert s1 == Step(s, Enqueue(id, limit, done));
    assert LookupHit(s1.rows[r1.at], id);
    LookupChoiceIrrelevant(s1, id, limit', done', FindHit(s1.rows, id).value, r1.at);
    assert AdvanceCursor(s1.cursors, id.receiver, id.updateId + 1) == s1.cursors;
  }

  /** No accepted update is lost: a spooled row stays, below its receiver's never-decreasing cursor. */
  lemma SpooledBelowCursor(states: seq<Spool>, acts: seq<Action>, k: nat, n: nat, i: nat)
    requires Run(states, acts) && k <= n <= |acts| && i < |states[k].rows|
    ensures i < |states[n].rows| && states[n].rows[i].id == states[k].rows[i].id
    ensures var id := states[k].rows[i].id;
      && id.receiver in states[k].cursors && id.receiver in states[n].cursors
      && id.updateId < states[k].cursors[id.receiver] <= states[n].cursors[id.receiver]
  {
    RunIsSafe(states, acts, k);
    RowHistory(states, acts, k, n, i);
  }
}
