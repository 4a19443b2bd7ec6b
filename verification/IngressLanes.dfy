/**
  The spool object: SQLite's two tables as fields the methods update in place.
  Each method is one transaction, proved equal to the labelled step of
  `LaneSpool` and to keep the safety invariant of `LaneFifo`.
 */
module IngressLanes {
  import opened Options
  import opened LaneSpool
  import opened LaneFifo

  /** The claimed row as `claim` returns it: columns before the lease, plus the lease. */
  datatype LaneItem = LaneItem(
    at: nat, id: Identity, attempts: nat, nextAttemptAt: real,
    leaseOwner: string, leaseUntil: real, notifyState: string)

  class IngressLaneSpool {
    var rows: seq<Row>
    var cursors: map<string, int>

    ghost function View(): Spool
      reads this
    {
      Spool(rows, cursors)
    }

    ghost predicate Valid()
      reads this
    {
      Safe(View())
    }

    constructor ()
      ensures Valid() && View() == EMPTY
    {
      rows, cursors := [], map[];
    }

    method Cursor(receiver: string) returns (next: Option<int>)
      ensures next == if receiver in cursors then Some(cursors[receiver]) else None
    {
      next := if receiver in cursors then Some(cursors[receiver]) else None;
    }

    method InitializeCursor(receiver: string, next: int, now: real) returns (cursor: int)
      requires Valid()
      modifies this
      ensures Valid() && View() == Step(old(View()), Advance(now, receiver, next))
      ensures rows == old(rows) && cursors == AdvanceCursor(old(cursors), receiver, next)
      ensures cursor == cursors[receiver] >= next
    {
      StepKeepsSafe(View(), Advance(now, receiver, next));
      cursors := AdvanceCursor(cursors, receiver, next);
      cursor := cursors[receiver];
    }

    /** Accept one update.  The duplicate lookup may fetch any row its OR matches. */
    method Enqueue(id: Identity, depthLimit: int, alreadyDone: bool) returns (result: EnqueueResult)
      requires Valid()
      modifies this
      ensures Valid() && View() == Step(old(View()), Action.Enqueue(id, depthLimit, alreadyDone))
      ensures result == EnqueueTx(old(View()), id, depthLimit, alreadyDone).1
      ensures result.Collision? ==> View() == old(View()) && Clashes(rows, id)
      ensures !result.Collision? ==> cursors == AdvanceCursor(old(cursors), id.receiver, id.updateId + 1)
      ensures !result.Collision? ==> cursors[id.receiver] == result.cursor > id.updateId
      ensures result.Enqueued? || result.AlreadyDone? ==>
        result.at == |old(rows)| && rows == old(rows) + [NewRow(id, alreadyDone)]
      ensures result.Duplicate? ==> result.at < |rows| && SameKey(rows[result.at].id, id) && rows == old(rows)
      ensures result.Overflow? ==> !alreadyDone && Depth(rows, id.lane) >= depthLimit && rows == old(rows)
    {
      ghost var before := View();
      StepKeepsSafe(before, Action.Enqueue(id, depthLimit, alreadyDone));
      if exists i: nat | i < |rows| :: LookupHit(rows[i], id) {
        var hit: nat :| hit < |rows| && LookupHit(rows[hit], id);
        LookupChoiceIrrelevant(before, id, depthLimit, alreadyDone, hit, FindHit(rows, id).value);
        if !SameKey(rows[hit].id, id) { return Collision; }
        cursors := AdvanceCursor(cursors, id.receiver, id.updateId + 1);
        return Duplicate(cursors[id.receiver], hit);
      }
      if !alreadyDone {
        var depth := CountOpen(id.lane);
        if depth >= depthLimit {
          cursors := AdvanceCursor(cursors, id.receiver, id.updateId + 1);
          return Overflow(cursors[id.receiver]);
        }
      }
      var at := |rows|;
      rows := rows + [NewRow(id, alreadyDone)];
      cursors := AdvanceCursor(cursors, id.receiver, id.updateId + 1);
      result := if alreadyDone then AlreadyDone(cursors[id.receiver], at) else Enqueued(cursors[id.receiver], at);
    }

    method CountOpen(lane: string) returns (depth: nat)
      ensures depth == Depth(rows, lane)
    {
      depth := 0;
      for i := 0 to |rows|
        invariant depth == Depth(rows[..i], lane)
      {
        assert rows[..i + 1][..i] == rows[..i];
        if rows[i].id.lane == lane && rows[i].state != Done { depth := depth + 1; }
      }
      assert rows[..|rows|] == rows;
    }

    /** The head-only query: the first pending, due row none of whose lane predecessors is open. */
    method SelectHead(now: real) returns (head: Option<nat>)
      ensures head == FirstClaimable(rows, now)
    {
      var i := 0;
      while i < |rows|
        invariant 0 <= i <= |rows|
        invariant FirstClaimable(rows, now) == FirstClaimable(rows, now, i)
      {
        if Claimable(rows, i, now) { return Some(i); }
        i := i + 1;
      }
      head := None;
    }

    /**
      Lease one lane head: expire leases, terminalize expired holds, select, lease,
      all in one transaction.
     */
    method Claim(owner: string, now: real, leaseSeconds: real) returns (item: Option<LaneItem>)
      requires Valid()
      modifies this`rows
      ensures Valid() && View() == Step(old(View()), Action.Claim(now, owner, leaseSeconds))
      ensures item.None? <==> forall i | 0 <= i < |old(rows)| :: !Claimable(Expired(old(rows), now), i, now)
      ensures item.None? ==> rows == Expired(old(rows), now)
      ensures item.Some? ==>
        var i := item.value.at;
        && i < |rows| && rows[i].state == Processing && rows[i].leaseOwner == Some(owner)
        && rows[i].leaseUntil == Some(item.value.leaseUntil) && item.value.leaseUntil > now
        && item.value.leaseOwner == owner && item.value.id == rows[i].id
        && item.value.attempts == old(rows)[i].attempts
        && item.value.notifyState == old(rows)[i].notifyState
        && old(rows)[i].state in {Pending, Processing} && old(rows)[i].nextAttemptAt == item.value.nextAttemptAt <= now
        && (forall j | 0 <= j < i && rows[j].id.lane == rows[i].id.lane :: rows[j].state == Done)
        && (forall j | 0 <= j < |rows| && j != i :: rows[j] == Expired(old(rows), now)[j])
    {
      ghost var before := View();
      StepKeepsSafe(before, Action.Claim(now, owner, leaseSeconds));
      rows := UpdateWhere(rows, r => LeaseExpired(r, now), r => Release(r, now));
      rows := UpdateWhere(rows, r => HoldExpired(r, now), r => Terminalize(r, now));
      assert rows == Expired(before.rows, now);
      var head := SelectHead(now);
      if head.None? { return None; }
      var row := rows[head.value];
      rows := rows[head.value := Lease(row, owner, now, leaseSeconds)];
      LeasedIsHead(before, Action.Claim(now, owner, leaseSeconds), head.value);
      item := Some(LaneItem(head.value, row.id, row.attempts, row.nextAttemptAt, owner,
                            now + Max(0.1, leaseSeconds), row.notifyState));
    }

    method ExpireHolds(now: real)
      requires Valid()
      modifies this`rows
      ensures Valid() && View() == Step(old(View()), ExpireHoldsAt(now))
      ensures forall i | 0 <= i < |rows| :: rows[i].state == Blocked ==> rows[i].nextAttemptAt > now
    {
      StepKeepsSafe(View(), ExpireHoldsAt(now));
      rows := UpdateWhere(rows, r => HoldExpired(r, now), r => Terminalize(r, now));
    }

    method ReclaimProcessing(now: real)
      requires Valid()
      modifies this`rows
      ensures Valid() && View() == Step(old(View()), Reclaim(now))
      ensures forall i | 0 <= i < |rows| :: rows[i].state != Processing
      ensures forall i | 0 <= i < |rows| && old(rows)[i].state == Processing ::
        rows[i].state == Pending && rows[i].nextAttemptAt <= now
    {
      StepKeepsSafe(View(), Reclaim(now));
      rows := UpdateWhere(rows, (r: Row) => r.state == Processing,
                          r => Release(r, now).(nextAttemptAt := Min(r.nextAttemptAt, now)));
    }

    method RenewLease(at: int, owner: string, leaseSeconds: real, now: real) returns (changed: bool)
      requires Valid()
      modifies this`rows
      ensures Valid() && View() == Step(old(View()), Renew(now, at, owner, leaseSeconds))
      ensures changed == OwnedBy(old(rows), at, owner) && (!changed ==> rows == old(rows))
      ensures changed ==> OwnedBy(rows, at, owner) && rows[at].stateSince == old(rows)[at].stateSince
    {
      StepKeepsSafe(View(), Renew(now, at, owner, leaseSeconds));
      changed := OwnedBy(rows, at, owner);
      if changed {
        rows := rows[at := Touch(rows[at], now).(leaseUntil := Some(now + Max(0.1, leaseSeconds)))];
      }
    }

    method ClaimNotification(at: int, now: real) returns (changed: bool)
      requires Valid()
      modifies this`rows
      ensures Valid() && View() == Step(old(View()), Action.ClaimNotification(now, at))
      ensures changed == NotifyIs(old(rows), at, "pending") && (changed ==> NotifyIs(rows, at, "claimed"))
    {
      StepKeepsSafe(View(), Action.ClaimNotification(now, at));
      changed := NotifyIs(rows, at, "pending");
      if changed { rows := rows[at := Touch(rows[at], now).(notifyState := "claimed")]; }
    }

    method MarkNotificationSent(at: int, now: real) returns (changed: bool)
      requires Valid()
      modifies this`rows
      ensures Valid() && View() == Step(old(View()), NotificationSent(now, at))
      ensures changed == NotifyIs(old(rows), at, "claimed") && (changed ==> NotifyIs(rows, at, "sent"))
    {
      StepKeepsSafe(View(), NotificationSent(now, at));
      changed := NotifyIs(rows, at, "claimed");
      if changed { rows := rows[at := Touch(rows[at], now).(notifyState := "sent")]; }
    }

    method MarkDone(at: int, owner: string, notify: Option<string>, now: real) returns (changed: bool)
      requires Valid()
      modifies this`rows
      ensures Valid() && View() == Step(old(View()), Action.MarkDone(now, at, owner, notify))
      ensures changed == OwnedBy(old(rows), at, owner) && (!changed ==> rows == old(rows))
      ensures changed ==> rows[at].state == Done && rows[at].id == old(rows)[at].id
    {
      StepKeepsSafe(View(), Action.MarkDone(now, at, owner, notify));
      changed := OwnedBy(rows, at, owner);
      if changed {
        rows := rows[at := Terminalize(rows[at], now).(
                  notifyState := if notify.Some? then notify.value else rows[at].notifyState)];
      }
    }

    method MarkBlocked(at: int, owner: string, holdSeconds: real, now: real) returns (changed: bool)
      requires Valid()
      modifies this`rows
      ensures Valid() && View() == Step(old(View()), Action.MarkBlocked(now, at, owner, holdSeconds))
      ensures changed == OwnedBy(old(rows), at, owner) && (!changed ==> rows == old(rows))
      ensures changed ==> rows[at].state == Blocked && rows[at].nextAttemptAt <= now + Max(0.1, holdSeconds)
    {
      StepKeepsSafe(View(), Action.MarkBlocked(now, at, owner, holdSeconds));
      changed := OwnedBy(rows, at, owner);
      if changed { rows := rows[at := Hold(rows[at], holdSeconds, now)]; }
    }

    method Retry(at: int, owner: string, backoff: real, now: real) returns (changed: bool)
      requires Valid()
      modifies this`rows
      ensures Valid() && View() == Step(old(View()), Action.Retry(now, at, owner, backoff))
      ensures changed == OwnedBy(old(rows), at, owner) && (!changed ==> rows == old(rows))
      ensures changed ==> rows[at].state == Pending && rows[at].attempts == old(rows)[at].attempts + 1
    {
      StepKeepsSafe(View(), Action.Retry(now, at, owner, backoff));
      changed := OwnedBy(rows, at, owner);
      if changed { rows := rows[at := Reschedule(rows[at], backoff, now)]; }
    }
  }
}
