/**
  The durable ingress spool: the table of lane rows and the receiver cursors,
  with one function per SQL transaction.  A row's `seq` column is its position:
  the column is AUTOINCREMENT and no statement deletes a row, so the table is
  always in `seq` order.  `UPDATE ... WHERE` statements are `UpdateWhere`.
 */
module LaneSpool {
  import opened Options

  datatype RowState = Pending | Processing | Blocked | Done

  /** The columns no statement ever assigns. */
  datatype Identity = Identity(
    requestId: string, receiver: string, updateId: int, lane: string,
    kind: string, updateJson: string, routeJson: string,
    firstSeenAt: real, deadlineAt: real)

  datatype Row = Row(
    id: Identity,
    state: RowState,
    attempts: nat,
    nextAttemptAt: real,
    leaseOwner: Option<string>,
    leaseUntil: Option<real>,
    notifyState: string,
    stateSince: Option<real>,
    retryObstructedSince: Option<real>,
    updatedAt: real)

  datatype Spool = Spool(rows: seq<Row>, cursors: map<string, int>)

  const EMPTY: Spool := Spool([], map[])

  function Min(a: real, b: real): real { if a <= b then a else b }
  function Max(a: real, b: real): real { if a <= b then b else a }

  function UpdateWhere(rows: seq<Row>, where: Row -> bool, assign: Row -> Row): (r: seq<Row>)
    ensures |r| == |rows|
    ensures forall i | 0 <= i < |r| :: r[i] == if where(rows[i]) then assign(rows[i]) else rows[i]
  {
    seq(|rows|, i requires 0 <= i < |rows| => if where(rows[i]) then assign(rows[i]) else rows[i])
  }

  /** `COALESCE(retry_obstructed_since, CASE WHEN attempts > 0 THEN updated_at END)` */
  function RetryClock(r: Row): Option<real> {
    if r.retryObstructedSince.Some? then r.retryObstructedSince
    else if r.attempts > 0 then Some(r.updatedAt) else None
  }

  predicate LeaseExpired(r: Row, now: real) {
    r.state == Processing && r.leaseUntil.Some? && r.leaseUntil.value <= now
  }

  predicate HoldExpired(r: Row, now: real) {
    r.state == Blocked && r.nextAttemptAt <= now
  }

  function Release(r: Row, now: real): Row {
    r.(state := Pending, leaseOwner := None, leaseUntil := None,
       retryObstructedSince := RetryClock(r), stateSince := Some(now), updatedAt := now)
  }

  function Terminalize(r: Row, now: real): Row {
    r.(state := Done, leaseOwner := None, leaseUntil := None,
       retryObstructedSince := RetryClock(r), stateSince := Some(now), updatedAt := now)
  }

  function ExpireLeases(rows: seq<Row>, now: real): seq<Row> {
    UpdateWhere(rows, r => LeaseExpired(r, now), r => Release(r, now))
  }

  function ExpireHolds(rows: seq<Row>, now: real): seq<Row> {
    UpdateWhere(rows, r => HoldExpired(r, now), r => Terminalize(r, now))
  }

  /** What `claim` does before it selects: expired leases, then expired holds. */
  function Expired(rows: seq<Row>, now: real): (r: seq<Row>)
    ensures |r| == |rows|
  {
    ExpireHolds(ExpireLeases(rows, now), now)
  }

  predicate IsHead(rows: seq<Row>, i: nat)
    requires i < |rows|
  {
    forall j | 0 <= j < i :: rows[j].id.lane == rows[i].id.lane ==> rows[j].state == Done
  }

  predicate Claimable(rows: seq<Row>, i: nat, now: real)
    requires i < |rows|
  {
    rows[i].state == Pending && rows[i].nextAttemptAt <= now && IsHead(rows, i)
  }

  /** `ORDER BY candidate.seq LIMIT 1`, searching from position `from`. */
  function FirstClaimable(rows: seq<Row>, now: real, from: nat := 0): (r: Option<nat>)
    requires from <= |rows|
    ensures r.None? ==> forall i | from <= i < |rows| :: !Claimable(rows, i, now)
    ensures r.Some? ==> from <= r.value < |rows| && Claimable(rows, r.value, now)
    ensures r.Some? ==> forall i | from <= i < r.value :: !Claimable(rows, i, now)
    decreases |rows| - from
  {
    if from == |rows| then None
    else if Claimable(rows, from, now) then Some(from)
    else FirstClaimable(rows, now, from + 1)
  }

  function Lease(r: Row, owner: string, now: real, leaseSeconds: real): Row {
    r.(state := Processing, leaseOwner := Some(owner),
       leaseUntil := Some(now + Max(0.1, leaseSeconds)),
       stateSince := Some(now), retryObstructedSince := RetryClock(r), updatedAt := now)
  }

  /** `min(300, backoff * 2 ** min(attempts - 1, 16))` for the attempt just counted. */
  function RetryDelay(backoff: real, attempts: nat): real
    requires attempts > 0
  {
    Min(300.0, Doubled(backoff, if attempts - 1 <= 16 then attempts - 1 else 16))
  }

  /** `backoff * 2 ** n` */
  function Doubled(backoff: real, n: nat): real {
    if n == 0 then backoff else 2.0 * Doubled(backoff, n - 1)
  }

  function Reschedule(r: Row, backoff: real, now: real): Row {
    r.(state := Pending, attempts := r.attempts + 1,
       nextAttemptAt := Min(now + RetryDelay(backoff, r.attempts + 1), r.id.deadlineAt),
       leaseOwner := None, leaseUntil := None, stateSince := Some(now),
       retryObstructedSince := if r.retryObstructedSince.Some? then r.retryObstructedSince else Some(now),
       updatedAt := now)
  }

  function Hold(r: Row, holdSeconds: real, now: real): Row {
    r.(state := Blocked, leaseOwner := None, leaseUntil := None,
       nextAttemptAt := Min(r.id.deadlineAt, now + Max(0.1, holdSeconds)),
       retryObstructedSince := RetryClock(r), stateSince := Some(now), updatedAt := now)
  }

  /** `WHERE seq = ? AND state = 'processing' AND lease_owner = ?` */
  predicate OwnedBy(rows: seq<Row>, s: int, owner: string) {
    0 <= s < |rows| && rows[s].state == Processing && rows[s].leaseOwner == Some(owner)
  }

  predicate NotifyIs(rows: seq<Row>, s: int, notify: string) {
    0 <= s < |rows| && rows[s].notifyState == notify
  }

  // ----- receiver cursors and enqueue ------------------------------------

  function AdvanceCursor(cursors: map<string, int>, receiver: string, next: int): (r: map<string, int>)
    ensures receiver in r && r[receiver] >= next
    ensures r.Keys == cursors.Keys + {receiver}
    ensures forall k | k in cursors :: r[k] >= cursors[k]
    ensures forall k | k in cursors && k != receiver :: r[k] == cursors[k]
  {
    cursors[receiver := if receiver in cursors && cursors[receiver] > next then cursors[receiver] else next]
  }

  predicate SameKey(a: Identity, b: Identity) {
    a.requestId == b.requestId && a.receiver == b.receiver && a.updateId == b.updateId
  }

  /** The duplicate lookup: `request_id = ? OR (receiver_kind = ? AND update_id = ?)`. */
  predicate LookupHit(r: Row, id: Identity) {
    r.id.requestId == id.requestId || (r.id.receiver == id.receiver && r.id.updateId == id.updateId)
  }

  /** The update's identity clashes with a stored row that is not the same update. */
  ghost predicate Clashes(rows: seq<Row>, id: Identity) {
    exists i :: 0 <= i < |rows| && LookupHit(rows[i], id) && !SameKey(rows[i].id, id)
  }

  function FindHit(rows: seq<Row>, id: Identity, from: nat := 0): (r: Option<nat>)
    requires from <= |rows|
    ensures r.None? ==> forall i | from <= i < |rows| :: !LookupHit(rows[i], id)
    ensures r.Some? ==> from <= r.value < |rows| && LookupHit(rows[r.value], id)
    decreases |rows| - from
  {
    if from == |rows| then None
    else if LookupHit(rows[from], id) then Some(from) else FindHit(rows, id, from + 1)
  }

  /** `COUNT(*) ... WHERE lane_key = ? AND state != 'done'` */
  function Depth(rows: seq<Row>, lane: string): nat {
    if |rows| == 0 then 0
    else Depth(rows[..|rows| - 1], lane) +
         if rows[|rows| - 1].id.lane == lane && rows[|rows| - 1].state != Done then 1 else 0
  }

  datatype EnqueueResult =
    | Collision                             // raised, and the transaction rolled back
    | Duplicate(cursor: int, at: nat)
    | Overflow(cursor: int)
    | Enqueued(cursor: int, at: nat)
    | AlreadyDone(cursor: int, at: nat)

  function NewRow(id: Identity, alreadyDone: bool): Row {
    Row(id, if alreadyDone then Done else Pending, 0, id.firstSeenAt, None, None,
        if alreadyDone then "cached" else "pending", Some(id.firstSeenAt), None, id.firstSeenAt)
  }

  /** `enqueue`, given which row (if any) the OR lookup happened to fetch. */
  function EnqueueFetched(s: Spool, id: Identity, depthLimit: int, alreadyDone: bool, hit: Option<nat>)
      : (r: (Spool, EnqueueResult))
    requires hit.Some? ==> hit.value < |s.rows|
  {
    var cursors := AdvanceCursor(s.cursors, id.receiver, id.updateId + 1);
    if hit.Some? then
      if SameKey(s.rows[hit.value].id, id)
      then (s.(cursors := cursors), Duplicate(cursors[id.receiver], hit.value))
      else (s, Collision)
    else if !alreadyDone && Depth(s.rows, id.lane) >= depthLimit then
      (s.(cursors := cursors), Overflow(cursors[id.receiver]))
    else
      (Spool(s.rows + [NewRow(id, alreadyDone)], cursors),
       if alreadyDone then AlreadyDone(cursors[id.receiver], |s.rows|)
       else Enqueued(cursors[id.receiver], |s.rows|))
  }

  function EnqueueTx(s: Spool, id: Identity, depthLimit: int, alreadyDone: bool): (Spool, EnqueueResult) {
    EnqueueFetched(s, id, depthLimit, alreadyDone, FindHit(s.rows, id))
  }

  // ----- the labelled transition system -----------------------------------

  /** One committed transaction.  A crash commits nothing; a restart is a `Reclaim`. */
  datatype Action =
    | Enqueue(id: Identity, depthLimit: int, alreadyDone: bool)
    | Claim(now: real, owner: string, leaseSeconds: real)
    | ExpireHoldsAt(now: real)
    | Reclaim(now: real)
    | Renew(now: real, at: int, owner: string, leaseSeconds: real)
    | ClaimNotification(now: real, at: int)
    | NotificationSent(now: real, at: int)
    | MarkDone(now: real, at: int, owner: string, notify: Option<string>)
    | MarkBlocked(now: real, at: int, owner: string, holdSeconds: real)
    | Retry(now: real, at: int, owner: string, backoff: real)
    | Advance(now: real, receiver: string, next: int)

  function Time(a: Action): real { if a.Enqueue? then a.id.firstSeenAt else a.now }

  /** The row a `claim` leases, if the action is a claim that leases one. */
  function Leased(s: Spool, a: Action): (r: Option<nat>)
    ensures r.Some? ==> a.Claim? && r.value < |s.rows|
  {
    if a.Claim? then FirstClaimable(Expired(s.rows, a.now), a.now) else None
  }

  function Touch(r: Row, now: real): Row {
    r.(retryObstructedSince := RetryClock(r), updatedAt := now)
  }

  function StepRows(s: Spool, a: Action): seq<Row> {
    var rows := s.rows;
    match a
    case Enqueue(id, limit, done) => EnqueueTx(s, id, limit, done).0.rows
    case Claim(now, owner, lease) =>
      var expired := Expired(rows, now);
      var head := FirstClaimable(expired, now);
      if head.None? then expired
      else expired[head.value := Lease(expired[head.value], owner, now, lease)]
    case ExpireHoldsAt(now) => ExpireHolds(rows, now)
    case Reclaim(now) =>
      UpdateWhere(rows, (r: Row) => r.state == Processing,
                  r => Release(r, now).(nextAttemptAt := Min(r.nextAttemptAt, now)))
    case Renew(now, at, owner, lease) =>
      if !OwnedBy(rows, at, owner) then rows
      else rows[at := Touch(rows[at], now).(leaseUntil := Some(now + Max(0.1, lease)))]
    case ClaimNotification(now, at) =>
      if !NotifyIs(rows, at, "pending") then rows
      else rows[at := Touch(rows[at], now).(notifyState := "claimed")]
    case NotificationSent(now, at) =>
      if !NotifyIs(rows, at, "claimed") then rows
      else rows[at := Touch(rows[at], now).(notifyState := "sent")]
    case MarkDone(now, at, owner, notify) =>
      if !OwnedBy(rows, at, owner) then rows
      else rows[at := Terminalize(rows[at], now).(
             notifyState := if notify.Some? then notify.value else rows[at].notifyState)]
    case MarkBlocked(now, at, owner, hold) =>
      if !OwnedBy(rows, at, owner) then rows else rows[at := Hold(rows[at], hold, now)]
    case Retry(now, at, owner, backoff) =>
      if !OwnedBy(rows, at, owner) then rows else rows[at := Reschedule(rows[at], backoff, now)]
    case Advance(_, _, _) => rows
  }

  function Step(s: Spool, a: Action): Spool {
    Spool(StepRows(s, a),
          match a
          case Enqueue(id, limit, done) => EnqueueTx(s, id, limit, done).0.cursors
          case Advance(_, receiver, next) => AdvanceCursor(s.cursors, receiver, next)
          case _ => s.cursors)
  }

  /** A run of the spool: any interleaving of transactions by any callers. */
  ghost predicate Run(states: seq<Spool>, acts: seq<Action>) {
    |states| == |acts| + 1 && states[0] == EMPTY &&
    forall k | 0 <= k < |acts| :: states[k + 1] == Step(states[k], acts[k])
  }
}
