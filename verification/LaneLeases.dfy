/**
  How long a claim, a hold and a retry last, over whole runs: until exactly which
  instant a row stays with its owner, stays blocked, or waits for its next attempt.
 */
module LaneLeases {
  import opened Options
  import opened LaneSpool
  import opened LaneFifo
  import opened LaneVisibility

  function LeaseEnd(now: real, seconds: real): real { now + if seconds > 0.1 then seconds else 0.1 }

  // ----- leases -----------------------------------------------------------------------

  predicate HeldUntil(rows: seq<Row>, i: nat, owner: string, until: real) {
    i < |rows| && rows[i].state == Processing && rows[i].leaseOwner == Some(owner) && rows[i].leaseUntil == Some(until)
  }

  /** The action gives row `i` to its owner: a claim that leases it, or a renewal by the owner. */
  predicate Grants(s: Spool, a: Action, i: nat) {
    Leased(s, a) == Some(i) || (a.Renew? && a.at == i && OwnedBy(s.rows, i, a.owner))
  }

  lemma GrantHolds(s: Spool, a: Action, i: nat)
    requires Grants(s, a, i)
    ensures HeldUntil(Step(s, a).rows, i, a.owner, LeaseEnd(a.now, a.leaseSeconds))
  {
  }

  /** Neither the owner's renewal or settlement of the row, nor a restart, nor a claim once the lease is over. */
  predicate LeavesLease(a: Action, i: nat, owner: string, until: real) {
    && !a.Reclaim? && (a.Claim? ==> a.now < until)
    && (a.Renew? || a.MarkDone? || a.MarkBlocked? || a.Retry? ==> a.at != i || a.owner != owner)
  }

  lemma LeaseStep(s: Spool, a: Action, i: nat, owner: string, until: real)
    requires HeldUntil(s.rows, i, owner, until) && LeavesLease(a, i, owner, until)
    ensures HeldUntil(Step(s, a).rows, i, owner, until) && Leased(s, a) != Some(i)
  {
    if a.Claim? {
      assert Expired(s.rows, a.now)[i] == s.rows[i];
    } else if a.Enqueue? {
      Growth(s, a);
    }
  }

  lemma {:induction false} LeaseLasts(states: seq<Spool>, acts: seq<Action>, k: nat, n: nat, i: nat, owner: string, until: real)
    requires Run(states, acts) && k <= n <= |acts| && HeldUntil(states[k].rows, i, owner, until)
    requires forall m | k <= m < n :: LeavesLease(acts[m], i, owner, until)
    ensures HeldUntil(states[n].rows, i, owner, until)
    ensures forall m | k <= m < n :: Leased(states[m], acts[m]) != Some(i)
    decreases n
  {
    hide Step, Leased, LeavesLease, HeldUntil;
    if k < n {
      LeaseLasts(states, acts, k, n - 1, i, owner, until);
      LeaseStep(states[n - 1], acts[n - 1], i, owner, until);
    }
  }

  /** A claim ends a lease exactly from its end on: the row is pending again, or leased by that very claim. */
  lemma ClaimEndsLease(s: Spool, a: Action, i: nat, owner: string, until: real)
    requires a.Claim? && HeldUntil(s.rows, i, owner, until)
    ensures HeldUntil(Step(s, a).rows, i, owner, until) <==> a.now < until
    ensures a.now >= until ==> Step(s, a).rows[i].state == Pending || Leased(s, a) == Some(i)
  {
    if a.now < until {
      LeaseStep(s, a, i, owner, until);
    } else {
      assert Expired(s.rows, a.now)[i].state == Pending;
    }
  }

  /**
    A row claimed or renewed at `t` for `L` seconds is its owner's until exactly
    `t + max(0.1, L)`.  As long as the owner does not settle or renew it and no
    restart reclaims it, no claim with an earlier instant releases it or leases it to
    anyone, and the first one from then on does release it.
   */
  lemma LeaseIsExclusive(states: seq<Spool>, acts: seq<Action>, k: nat, n: nat, i: nat)
    requires Run(states, acts) && k < n <= |acts| && Grants(states[k], acts[k], i)
    requires var until := LeaseEnd(acts[k].now, acts[k].leaseSeconds);
      forall m | k < m < n :: LeavesLease(acts[m], i, acts[k].owner, until)
    ensures var until := LeaseEnd(acts[k].now, acts[k].leaseSeconds);
      && HeldUntil(states[n].rows, i, acts[k].owner, until)
      && (forall m | k < m < n :: Leased(states[m], acts[m]) != Some(i))
      && (n < |acts| && acts[n].Claim? ==>
            && (HeldUntil(states[n + 1].rows, i, acts[k].owner, until) <==> acts[n].now < until)
            && (Leased(states[n], acts[n]) == Some(i) ==> acts[n].now >= until)
            && (acts[n].now >= until ==> states[n + 1].rows[i].state == Pending || Leased(states[n], acts[n]) == Some(i)))
  {
    var until := LeaseEnd(acts[k].now, acts[k].leaseSeconds);
    GrantHolds(states[k], acts[k], i);
    hide Step, Leased, LeavesLease, HeldUntil, Grants;
    LeaseLasts(states, acts, k + 1, n, i, acts[k].owner, until);
    if n < |acts| && acts[n].Claim? {
      ClaimEndsLease(states[n], acts[n], i, acts[k].owner, until);
      if acts[n].now < until { EarlyClaimPasses(states[n], acts[n], i, acts[k].owner, until); }
    }
  }

  lemma EarlyClaimPasses(s: Spool, a: Action, i: nat, owner: string, until: real)
    requires a.Claim? && a.now < until && HeldUntil(s.rows, i, owner, until)
    ensures Leased(s, a) != Some(i)
  {
    LeaseStep(s, a, i, owner, until);
  }

  /** The owner's settlement always takes effect, and frees the row. */
  lemma OwnerAlwaysSettles(s: Spool, a: Action, i: nat)
    requires (a.MarkDone? || a.MarkBlocked? || a.Retry?) && a.at == i && OwnedBy(s.rows, i, a.owner)
    ensures var r, r' := s.rows[i], Step(s, a).rows[i];
      && r'.leaseOwner.None? && r'.leaseUntil.None?
      && r'.state == (if a.MarkDone? then Done else if a.MarkBlocked? then Blocked else Pending)
      && r'.attempts == r.attempts + (if a.Retry? then 1 else 0)
      && r'.notifyState == (if a.MarkDone? && a.notify.Some? then a.notify.value else r.notifyState)
      && forall j | 0 <= j < |s.rows| && j != i :: Step(s, a).rows[j] == s.rows[j]
  {
  }

  // ----- holds --------------------------------------------------------------------------

  predicate BlockedUntil(rows: seq<Row>, i: nat, until: real) {
    i < |rows| && rows[i].state == Blocked && rows[i].nextAttemptAt == until
  }

  function HoldEnd(id: Identity, now: real, seconds: real): real {
    if LeaseEnd(now, seconds) < id.deadlineAt then LeaseEnd(now, seconds) else id.deadlineAt
  }

  predicate Expires(a: Action, until: real) { (a.Claim? || a.ExpireHoldsAt?) && a.now >= until }

  lemma HoldStep(s: Spool, a: Action, i: nat, until: real)
    requires BlockedUntil(s.rows, i, until)
    ensures if Expires(a, until) then i < |Step(s, a).rows| && Step(s, a).rows[i].state == Done
            else BlockedUntil(Step(s, a).rows, i, until)
  {
    if a.Enqueue? { Growth(s, a); }
    if a.Claim? { assert Expired(s.rows, a.now)[i] == if a.now >= until then Terminalize(s.rows[i], a.now) else s.rows[i]; }
  }

  lemma {:induction false} HoldLasts(states: seq<Spool>, acts: seq<Action>, k: nat, n: nat, i: nat, until: real)
    requires Run(states, acts) && k <= n <= |acts| && BlockedUntil(states[k].rows, i, until)
    requires forall m | k <= m < n :: !Expires(acts[m], until)
    ensures BlockedUntil(states[n].rows, i, until)
    decreases n
  {
    hide Step, BlockedUntil, Expires;
    if k < n {
      HoldLasts(states, acts, k, n - 1, i, until);
      HoldStep(states[n - 1], acts[n - 1], i, until);
    }
  }

  /** A row its owner blocks stays blocked until its hold or its deadline is over, and is then done, not dispatched. */
  lemma HoldIsBounded(states: seq<Spool>, acts: seq<Action>, k: nat, n: nat, i: nat)
    requires Run(states, acts) && k < n <= |acts|
    requires acts[k].MarkBlocked? && acts[k].at == i && OwnedBy(states[k].rows, i, acts[k].owner)
    requires var until := HoldEnd(states[k].rows[i].id, acts[k].now, acts[k].holdSeconds);
      forall m | k < m < n :: !Expires(acts[m], until)
    ensures var until := HoldEnd(states[k].rows[i].id, acts[k].now, acts[k].holdSeconds);
      && BlockedUntil(states[n].rows, i, until)
      && (n < |acts| ==>
            i < |states[n + 1].rows| && (states[n + 1].rows[i].state == Done <==> Expires(acts[n], until)))
  {
    var until := HoldEnd(states[k].rows[i].id, acts[k].now, acts[k].holdSeconds);
    assert BlockedUntil(states[k + 1].rows, i, until) by { assert states[k + 1] == Step(states[k], acts[k]); }
    HoldLasts(states, acts, k + 1, n, i, until);
    if n < |acts| { HoldStep(states[n], acts[n], i, until); }
    hide Step, Expires;
  }

  // ----- retries ---------------------------------------------------------------------------

  /** The delay starts at the backoff, doubles sixteen times, and never exceeds five minutes. */
  lemma DelayDoubles(backoff: real, n: nat)
    requires backoff >= 0.0 && n > 0
    ensures RetryDelay(backoff, 1) == if backoff < 300.0 then backoff else 300.0
    ensures var twice := 2.0 * RetryDelay(backoff, n);
      RetryDelay(backoff, n + 1) == if n > 16 then RetryDelay(backoff, n) else if twice < 300.0 then twice else 300.0
  {
    if n <= 16 { DoublingGrows(backoff, n - 1, n); }
  }

  function NextAttempt(id: Identity, now: real, delay: real): real {
    if now + delay < id.deadlineAt then now + delay else id.deadlineAt
  }

  predicate WaitsUntil(rows: seq<Row>, i: nat, time: real) {
    i < |rows| && rows[i].state == Pending && rows[i].nextAttemptAt == time
  }

  lemma WaitStep(s: Spool, a: Action, i: nat, time: real)
    requires WaitsUntil(s.rows, i, time)
    ensures if Leased(s, a) == Some(i) then a.now >= time else WaitsUntil(Step(s, a).rows, i, time)
    ensures a.Claim? && IsHead(s.rows, i) && a.now >= time ==> Claimable(Expired(s.rows, a.now), i, a.now)
  {
    if a.Enqueue? { Growth(s, a); }
  }

  lemma {:induction false} WaitLasts(states: seq<Spool>, acts: seq<Action>, k: nat, n: nat, i: nat, time: real)
    requires Run(states, acts) && k <= n <= |acts| && WaitsUntil(states[k].rows, i, time)
    requires forall m | k <= m < n :: Leased(states[m], acts[m]) != Some(i)
    ensures WaitsUntil(states[n].rows, i, time)
    decreases n
  {
    hide Step, WaitsUntil, Leased;
    if k < n {
      WaitLasts(states, acts, k, n - 1, i, time);
      WaitStep(states[n - 1], acts[n - 1], i, time);
    }
  }

  /**
    A row its owner retries is not leased again before its backoff or its deadline is
    over; from then on a claim may lease it as soon as it is the head of its lane.
   */
  lemma RetryWaits(states: seq<Spool>, acts: seq<Action>, k: nat, n: nat, i: nat)
    requires Run(states, acts) && k < n < |acts|
    requires acts[k].Retry? && acts[k].at == i && OwnedBy(states[k].rows, i, acts[k].owner)
    requires forall m | k < m < n :: Leased(states[m], acts[m]) != Some(i)
    ensures var r := states[k].rows[i];
      var time := NextAttempt(r.id, acts[k].now, RetryDelay(acts[k].backoff, r.attempts + 1));
      && WaitsUntil(states[n].rows, i, time)
      && (Leased(states[n], acts[n]) == Some(i) ==> acts[n].now >= time)
      && (acts[n].Claim? && IsHead(states[n].rows, i) && acts[n].now >= time ==>
            Claimable(Expired(states[n].rows, acts[n].now), i, acts[n].now))
  {
    var r := states[k].rows[i];
    var time := NextAttempt(r.id, acts[k].now, RetryDelay(acts[k].backoff, r.attempts + 1));
    assert WaitsUntil(states[k + 1].rows, i, time) by { assert states[k + 1] == Step(states[k], acts[k]); }
    hide Step;
    WaitLasts(states, acts, k + 1, n, i, time);
    WaitStep(states[n], acts[n], i, time);
  }

  /** A spooled row is due at once and its notification is open; one already answered is done and never claimed. */
  lemma SpooledRowIsDue(s: Spool, a: Action)
    requires a.Enqueue? && |Step(s, a).rows| > |s.rows|
    ensures var r := Step(s, a).rows[|s.rows|];
      && r.id == a.id && r.attempts == 0
      && (if a.alreadyDone then r.state == Done && r.notifyState == "cached"
          else WaitsUntil(Step(s, a).rows, |s.rows|, a.id.firstSeenAt) && r.notifyState == "pending")
      && Step(s, a).rows[..|s.rows|] == s.rows
  {
    Growth(s, a);
  }

  /** A notification is claimed while it is pending and sent once claimed; neither touches anything else. */
  lemma NotificationMoves(s: Spool, a: Action, i: nat)
    requires (a.ClaimNotification? || a.NotificationSent?) && a.at == i < |s.rows|
    ensures var r, r' := s.rows[i], Step(s, a).rows[i];
      && r'.notifyState == (if a.ClaimNotification? && r.notifyState == "pending" then "claimed"
                            else if a.NotificationSent? && r.notifyState == "claimed" then "sent" else r.notifyState)
      && r'.(notifyState := r.notifyState, updatedAt := r.updatedAt, retryObstructedSince := r.retryObstructedSince) == r
      && Step(s, a) == s.(rows := s.rows[i := r'])
  {
  }

  /** A restart makes every processing row due, and touches no other. */
  lemma RestartFreesAll(s: Spool, a: Action, i: nat)
    requires a.Reclaim? && i < |s.rows|
    ensures if s.rows[i].state == Processing then
              Step(s, a).rows[i].state == Pending && Step(s, a).rows[i].leaseOwner.None? && Step(s, a).rows[i].nextAttemptAt <= a.now
            else Step(s, a).rows[i] == s.rows[i]
  {
  }
}
