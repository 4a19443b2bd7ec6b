/**
  The multi-part delivery loop under one write budget, and what resuming a failed
  delivery at the reported part achieves.
 */
module FeedDelivery {
  import opened Options
  import opened WriteBudget

  /** One part handed to the rich sender: what it reported, and the calls it made. */
  datatype Attempt = Attempt(part: nat, result: Result, calls: seq<Sent>)

  predicate Ok(a: Attempt) { a.result.ok }

  datatype TerminalOutcome = NotDelivered | DeliveryUnknown

  datatype FeedReply = InvalidStart | Delivered(result: Result) | Interrupted

  /** The terminal outcome a caller records: only a named part can be known not to be delivered. */
  function RecordedOutcome(r: Result): TerminalOutcome {
    if r.failedPart.Some? && !Ambiguous(r) then NotDelivered else TerminalOutcome.DeliveryUnknown
  }

  /** A failure is recorded if something was accepted, or if it is the failure of a retry. */
  predicate Recorded(r: Result, retry: bool) { r.ids != [] || retry }

  /**
    Where the next delivery starts.  A failure that is not recorded starts over; a
    recorded one may be retried at the part it names, unless that part may have
    been delivered: then it is held, to be accepted as it is.
   */
  function ResumeAt(r: Result, retry: bool): Option<nat> {
    if !Recorded(r, retry) then Some(0)
    else if RecordedOutcome(r).NotDelivered? then r.failedPart
    else None
  }

  // ----- what a delivery does -----------------------------------------------------------

  predicate LastFailed(made: seq<Attempt>) { made != [] && !Ok(made[|made| - 1]) }

  /** The first part these attempts leave undelivered. */
  function Undelivered(made: seq<Attempt>, start: nat): nat {
    if LastFailed(made) then start + |made| - 1 else start + |made|
  }

  /**
    Whether a failure names the first part not delivered: a part was delivered
    before it, or the budget was gone, or a resumed delivery had one part left.
   */
  predicate Names(made: seq<Attempt>, start: nat, count: nat) {
    !LastFailed(made) || |made| > 1 || (start != 0 && count - start == 1)
  }

  function AcceptedIds(made: seq<Attempt>): seq<string> {
    if made == [] then [] else AcceptedIds(made[..|made| - 1]) + made[|made| - 1].result.ids
  }

  function TotalWrites(made: seq<Attempt>): nat {
    if made == [] then 0 else TotalWrites(made[..|made| - 1]) + Writes(made[|made| - 1].result)
  }

  /** All calls, in order. */
  function Calls(made: seq<Attempt>): seq<Sent> {
    if made == [] then [] else Calls(made[..|made| - 1]) + made[|made| - 1].calls
  }

  /** Parts attempted in order from `start`, nothing after the first failure. */
  predicate InOrder(made: seq<Attempt>, start: nat, count: nat) {
    && start + |made| <= count
    && (forall i | 0 <= i < |made| :: made[i].part == start + i && (Ok(made[i]) <==> made[i].result.ids != []))
    && forall i | 0 <= i < |made| - 1 :: Ok(made[i])
  }

  /** The result adds up the parts; a failure is the last part's, or the budget's, and names its part if it may. */
  predicate AddsUp(made: seq<Attempt>, start: nat, count: nat, r: Result) {
    && r.ids == AcceptedIds(made) && Writes(r) == TotalWrites(made)
    && if r.ok then start + |made| == count && !LastFailed(made) && r.failedPart == None
       else
         && Undelivered(made, start) < count
         && r.failedPart == (if Names(made, start, count) then Some(Undelivered(made, start)) else None)
         && if LastFailed(made) then r.kind == made[|made| - 1].result.kind && r.error == made[|made| - 1].result.error
            else r.kind == BudgetExhausted
  }

  predicate DeliveryRun(made: seq<Attempt>, start: nat, count: nat, r: Result) {
    InOrder(made, start, count) && AddsUp(made, start, count, r)
  }

  /** The attempt is one run of the ladder on its part, under some budget. */
  ghost predicate Traced(a: Attempt, parts: seq<Part>, rich: bool, token: bool) {
    a.part < |parts| && exists limit: Option<nat> :: RichTrace(a.calls, parts[a.part], rich, token, false, limit, Returned(a.result))
  }

  ghost predicate AllTraced(made: seq<Attempt>, parts: seq<Part>, rich: bool, token: bool) {
    forall i | 0 <= i < |made| :: Traced(made[i], parts, rich, token)
  }

  /** Inside one part no call follows a rich message that may have arrived, and the part has failed. */
  lemma AmbiguousCallEndsPart(a: Attempt, parts: seq<Part>, rich: bool, token: bool)
    requires Traced(a, parts, rich, token)
    requires a.calls != [] && a.calls[0].call == RichCall && a.calls[0].answer.Refused? && a.calls[0].answer.kind == Transient
    ensures |a.calls| == 1 && !Ok(a) && Ambiguous(a.result)
  {
    var limit: Option<nat> :| RichTrace(a.calls, parts[a.part], rich, token, false, limit, Returned(a.result));
    AmbiguousRichEndsSend(a.calls, parts[a.part], rich, token, false, limit, Returned(a.result));
    hide RichTrace;
  }

  // ----- the loop, step by step ------------------------------------------------------------

  /** Every part so far was delivered. */
  ghost predicate SoFar(made: seq<Attempt>, start: nat, ids: seq<string>, physical: nat, parts: seq<Part>, rich: bool, token: bool) {
    && (forall i | 0 <= i < |made| :: made[i].part == start + i && Ok(made[i]) && made[i].result.ids != [])
    && ids == AcceptedIds(made) && physical == TotalWrites(made) && (ids == [] <==> made == [])
    && AllTraced(made, parts, rich, token)
  }

  lemma NoneMade(start: nat, allowance: Option<nat>, parts: seq<Part>, rich: bool, token: bool)
    ensures SoFar([], start, [], 0, parts, rich, token) && Splits(allowance, 0, allowance) && Calls([]) == []
  {
  }

  lemma OneMore(made: seq<Attempt>, a: Attempt)
    ensures (made + [a])[..|made|] == made
    ensures AcceptedIds(made + [a]) == AcceptedIds(made) + a.result.ids
    ensures TotalWrites(made + [a]) == TotalWrites(made) + Writes(a.result)
    ensures Calls(made + [a]) == Calls(made) + a.calls
  {
    assert (made + [a])[..|made|] == made;
  }

  lemma PartDelivered(made: seq<Attempt>, start: nat, ids: seq<string>, physical: nat, parts: seq<Part>, rich: bool, token: bool, a: Attempt)
    requires SoFar(made, start, ids, physical, parts, rich, token) && a.part == start + |made| && Traced(a, parts, rich, token)
    requires Ok(a) && a.result.ids != []
    ensures SoFar(made + [a], start, ids + a.result.ids, physical + Writes(a.result), parts, rich, token)
  {
    OneMore(made, a);
    hide Traced, Writes, AcceptedIds, TotalWrites;
  }

  lemma PartFailed(made: seq<Attempt>, start: nat, ids: seq<string>, physical: nat, parts: seq<Part>, rich: bool, token: bool, a: Attempt)
    requires SoFar(made, start, ids, physical, parts, rich, token) && a.part == start + |made| && Traced(a, parts, rich, token)
    requires !Ok(a) && a.result.ids == [] && a.result.failedPart.None? && start + |made| < |parts| && start + 1 < |parts|
    ensures AllTraced(made + [a], parts, rich, token)
    ensures DeliveryRun(made + [a], start, |parts|, Summed(a.result, ids, physical + Writes(a.result), a.part))
  {
    OneMore(made, a);
    hide Traced, AcceptedIds, TotalWrites;
    assert ids + [] == ids;
  }

  lemma BudgetGone(made: seq<Attempt>, start: nat, ids: seq<string>, physical: nat, parts: seq<Part>, rich: bool, token: bool)
    requires SoFar(made, start, ids, physical, parts, rich, token) && start + |made| < |parts|
    ensures DeliveryRun(made, start, |parts|, Exhausted(ids, physical, start + |made|)) && AllTraced(made, parts, rich, token)
  {
    hide Traced, AcceptedIds, TotalWrites;
  }

  lemma AllDone(made: seq<Attempt>, start: nat, ids: seq<string>, physical: nat, parts: seq<Part>, rich: bool, token: bool)
    requires SoFar(made, start, ids, physical, parts, rich, token) && start + |made| == |parts|
    ensures DeliveryRun(made, start, |parts|, Complete(ids, physical)) && AllTraced(made, parts, rich, token)
  {
    hide Traced, AcceptedIds, TotalWrites;
  }

  /** A delivery of one part is that part's own, named if it resumed there. */
  lemma OnlyPart(a: Attempt, parts: seq<Part>, rich: bool, token: bool)
    requires Traced(a, parts, rich, token) && a.part + 1 == |parts| && (Ok(a) <==> a.result.ids != []) && a.result.failedPart.None?
    ensures var r := if a.part != 0 && !Ok(a) then a.result.(failedPart := Some(a.part)) else a.result;
      DeliveryRun([a], a.part, |parts|, r) && AllTraced([a], parts, rich, token) && Calls([a]) == a.calls
  {
    OneMore([], a);
    assert [] + [a] == [a];
    hide Traced;
  }

  /** The report covers the calls and exceeds them by at most one. */
  predicate Reported(r: Result, calls: nat) { calls <= Writes(r) <= calls + 1 }

  function AsLimit(remaining: Option<nat>): (r: Option<int>)
    ensures Allowance(r) == remaining
  { if remaining.Some? then Some(remaining.value) else None }

  /** The writes so far and what remains make up the allowance. */
  predicate Splits(allowance: Option<nat>, physical: nat, remaining: Option<nat>) {
    if allowance.None? then remaining.None? else remaining.Some? && physical + remaining.value == allowance.value
  }

  /** After a part that made `calls` calls, the total is covered and covers the calls. */
  lemma Spent(allowance: Option<nat>, physical: nat, remaining: Option<nat>, r: Result, calls: nat)
    requires Splits(allowance, physical, remaining) && Reported(r, calls) && Covers(Writes(r), remaining)
    ensures Splits(allowance, physical + Writes(r), Left(remaining, Writes(r)))
    ensures forall sum: Result | Writes(sum) == physical + Writes(r) :: Reported(sum, physical + calls) && Covers(Writes(sum), allowance)
  {
  }

  lemma ExactReport(r: Result, physical: nat, remaining: Option<nat>, allowance: Option<nat>)
    requires Writes(r) == physical && Splits(allowance, physical, remaining)
    ensures Reported(r, physical) && Covers(Writes(r), allowance)
  {
  }

  /** What a part that used `writes` leaves of the budget. */
  function Left(remaining: Option<nat>, writes: nat): (r: Option<nat>)
    ensures remaining.None? <==> r.None?
    ensures remaining.Some? && writes <= remaining.value ==> r == Some(remaining.value - writes)
  {
    if remaining.None? then None else Some(if remaining.value > writes then remaining.value - writes else 0)
  }

  /** The failure of one part as the failure of the delivery; the part is named once another was delivered. */
  function Summed(result: Result, ids: seq<string>, physical: nat, index: nat): (r: Result)
    ensures Writes(r) == physical && r.ok == result.ok
  {
    if ids != [] then result.(failedPart := Some(index), writes := Some(physical), ids := ids)
    else result.(writes := Some(physical))
  }

  function Exhausted(ids: seq<string>, physical: nat, index: nat): (r: Result)
    ensures Writes(r) == physical && !r.ok
  { Result(false, BudgetExhausted, OtherError, Some(physical), ids, Some(index)) }

  function Complete(ids: seq<string>, physical: nat): (r: Result)
    ensures Writes(r) == physical && r.ok
  { Result(true, NoKind, OtherError, Some(physical), ids, None) }

  class FeedSender {
    const client: TelegramClient
    const rich: bool
    const token: bool
    var attempts: seq<Attempt>

    constructor (client: TelegramClient, rich: bool, token: bool)
      ensures this.client == client && this.rich == rich && this.token == token && attempts == []
    {
      this.client, this.rich, this.token := client, rich, token;
      attempts := [];
    }

    method SendPart(parts: seq<Part>, index: nat, max: Option<int>) returns (r: Reply)
      requires index < |parts|
      modifies this`attempts, client`log
      ensures old(client.log) <= client.log
      ensures r.RateLimited? ==> attempts == old(attempts)
      ensures r.Returned? ==>
        var a := Attempt(index, r.result, client.log[|old(client.log)|..]);
        && attempts == old(attempts) + [a] && Traced(a, parts, rich, token)
      ensures r.Returned? ==> Reported(r.result, |client.log| - |old(client.log)|) && Covers(Writes(r.result), Allowance(max))
      ensures r.Returned? ==> r.result.failedPart.None? && (r.result.ok <==> r.result.ids != [])
      ensures r.Returned? && r.result.ok ==> Writes(r.result) == |client.log| - |old(client.log)|
    {
      hide RichTrace;
      var before := |client.log|;
      r := client.SendRichMessage(parts[index], rich, token, false, max);
      RichIsReliable(client.log[before..], parts[index], rich, token, false, Allowance(max), r);
      if r.Returned? { attempts := attempts + [Attempt(index, r.result, client.log[before..])]; }
    }

    method SendFeedItem(parts: seq<Part>, start: int, max: Option<int>) returns (r: FeedReply)
      modifies this`attempts, client`log
      ensures r.InvalidStart? <==> !(0 <= start < |parts|)
      ensures r.InvalidStart? ==> attempts == old(attempts) && client.log == old(client.log)
      ensures old(attempts) <= attempts && old(client.log) <= client.log
      ensures r.Delivered? ==>
        var made := attempts[|old(attempts)|..];
        && DeliveryRun(made, start, |parts|, r.result) && AllTraced(made, parts, rich, token)
        && client.log == old(client.log) + Calls(made)
      ensures r.Delivered? ==> Reported(r.result, |client.log| - |old(client.log)|) && Covers(Writes(r.result), Allowance(max))
    {
      if start < 0 || start >= |parts| { return InvalidStart; }
      if |parts| - start <= 1 {
        hide Traced, DeliveryRun;
        var reply := SendPart(parts, start, max);
        if reply.RateLimited? { return Interrupted; }
        var result := reply.result;
        OnlyPart(Attempt(start, result, client.log[|old(client.log)|..]), parts, rich, token);
        if start != 0 && !result.ok { result := result.(failedPart := Some(start)); }
        assert attempts[|old(attempts)|..] == [Attempt(start, reply.result, client.log[|old(client.log)|..])];
        return Delivered(result);
      }
      r := SendParts(parts, start, Allowance(max));
    }

    method SendParts(parts: seq<Part>, start: nat, allowance: Option<nat>) returns (r: FeedReply)
      requires start + 1 < |parts|
      modifies this`attempts, client`log
      ensures !r.InvalidStart? && old(attempts) <= attempts && old(client.log) <= client.log
      ensures r.Delivered? ==>
        var made := attempts[|old(attempts)|..];
        && DeliveryRun(made, start, |parts|, r.result) && AllTraced(made, parts, rich, token)
        && client.log == old(client.log) + Calls(made)
      ensures r.Delivered? ==> Reported(r.result, |client.log| - |old(client.log)|) && Covers(Writes(r.result), allowance)
    {
      hide Splits, Reported, Covers, Writes, Allowance, Ambiguous, Left, Summed, Exhausted, Complete, DeliveryRun, Traced, AllTraced, Calls, SoFar;
      var remaining := allowance;
      var ids: seq<string> := [];
      var physical: nat := 0;
      ghost var made: seq<Attempt> := [];
      NoneMade(start, allowance, parts, rich, token);
      for index := start to |parts|
        invariant attempts == old(attempts) + made && attempts[|old(attempts)|..] == made && |made| == index - start
        invariant client.log == old(client.log) + Calls(made) && physical == |Calls(made)|
        invariant SoFar(made, start, ids, physical, parts, rich, token)
        invariant Splits(allowance, physical, remaining)
      {
        if remaining == Some(0) {
          ExactReport(Exhausted(ids, physical, index), physical, remaining, allowance);
          BudgetGone(made, start, ids, physical, parts, rich, token);
          return Delivered(Exhausted(ids, physical, index));
        }
        ghost var before := client.log;
        var reply := SendPart(parts, index, AsLimit(remaining));
        if reply.RateLimited? { return Interrupted; }
        var result := reply.result;
        ghost var a := Attempt(index, result, client.log[|before|..]);
        OneMore(made, a);
        Appended(old(attempts), made, a, old(client.log), before, client.log);
        var writes := Writes(result);
        Spent(allowance, physical, remaining, result, |a.calls|);
        if !result.ok {
          PartFailed(made, start, ids, physical, parts, rich, token, a);
          return Delivered(Summed(result, ids, physical + writes, index));
        }
        PartDelivered(made, start, ids, physical, parts, rich, token, a);
        made := made + [a];
        physical := physical + writes;
        remaining := Left(remaining, writes);
        ids := ids + result.ids;
      }
      ExactReport(Complete(ids, physical), physical, remaining, allowance);
      AllDone(made, start, ids, physical, parts, rich, token);
      return Delivered(Complete(ids, physical));
    }
  }

  lemma Appended(attempts: seq<Attempt>, made: seq<Attempt>, a: Attempt, log: seq<Sent>, before: seq<Sent>, after: seq<Sent>)
    requires before == log + Calls(made) && before <= after && a.calls == after[|before|..]
    requires Calls(made + [a]) == Calls(made) + a.calls
    ensures attempts + made + [a] == attempts + (made + [a]) && (attempts + (made + [a]))[|attempts|..] == made + [a]
    ensures after == log + Calls(made + [a])
  {
    hide Calls;
    assert after == before + after[|before|..];
  }

  // ----- resuming ----------------------------------------------------------------------

  /** One delivery of a logical item and its reported result; only a retry starts later than at part 0. */
  datatype Delivery = Delivery(retry: bool, start: nat, made: seq<Attempt>, result: Result)

  predicate WellStarted(d: Delivery) { !d.retry ==> d.start == 0 }

  predicate Continues(a: Delivery, b: Delivery) {
    && !a.result.ok && b.retry == Recorded(a.result, a.retry)
    && ResumeAt(a.result, a.retry) == Some(b.start)
  }

  /** Deliveries that each resume where the previous, failed one said. */
  ghost predicate Resumed(ds: seq<Delivery>, count: nat) {
    && (forall i | 0 <= i < |ds| :: WellStarted(ds[i]) && DeliveryRun(ds[i].made, ds[i].start, count, ds[i].result))
    && (forall i, j | 0 <= i < j < |ds| && j == i + 1 :: Continues(ds[i], ds[j]))
  }

  /** The parts delivered, in the order they were delivered. */
  function DeliveredParts(made: seq<Attempt>): seq<nat> {
    if made == [] then []
    else
      var last := made[|made| - 1];
      DeliveredParts(made[..|made| - 1]) + if Ok(last) then [last.part] else []
  }

  function AllDelivered(ds: seq<Delivery>): seq<nat> {
    if ds == [] then [] else AllDelivered(ds[..|ds| - 1]) + DeliveredParts(ds[|ds| - 1].made)
  }

  function Range(from: nat, to: nat): (r: seq<nat>)
    requires from <= to
    ensures |r| == to - from && forall i | 0 <= i < |r| :: r[i] == from + i
  {
    seq(to - from, i requires 0 <= i => from + i)
  }

  /** How far a delivery got. */
  function Reached(d: Delivery, count: nat): nat { if d.result.ok then count else Undelivered(d.made, d.start) }

  predicate AllOk(made: seq<Attempt>, start: nat) {
    forall i | 0 <= i < |made| :: made[i].part == start + i && Ok(made[i])
  }

  lemma {:induction false} AllOkDelivered(made: seq<Attempt>, start: nat)
    requires AllOk(made, start)
    ensures DeliveredParts(made) == Range(start, start + |made|)
  {
    if made != [] { AllOkDelivered(made[..|made| - 1], start); }
  }

  /** The part that failed may have been delivered. */
  predicate EndsAmbiguous(made: seq<Attempt>) { LastFailed(made) && Ambiguous(made[|made| - 1].result) }

  /**
    A failed delivery continues where it stopped exactly if it starts over, being no
    retry and having delivered nothing, or if it names the part and that part was
    definitely not delivered.
   */
  lemma ResumableExactly(made: seq<Attempt>, start: nat, retry: bool, count: nat, r: Result)
    requires DeliveryRun(made, start, count, r) && !r.ok && (!retry ==> start == 0)
    ensures ResumeAt(r, retry) ==
      if (!retry && Undelivered(made, start) == 0) || (Names(made, start, count) && !EndsAmbiguous(made))
      then Some(Undelivered(made, start)) else None
  {
    IdsAccepted(made, start, count);
    hide AcceptedIds, TotalWrites;
  }

  lemma {:induction false} IdsAccepted(made: seq<Attempt>, start: nat, count: nat)
    requires InOrder(made, start, count)
    ensures AcceptedIds(made) != [] <==> Undelivered(made, start) > start
  {
    if made != [] {
      var n := |made| - 1;
      IdsAccepted(made[..n], start, count);
      if n > 0 { assert Ok(made[..n][n - 1]); }
    }
  }

  /** Two of three parts tried, the second one refused for a reason that may be the network's: nothing is resumed. */
  lemma AmbiguousSuffixIsHeld(error: ErrorKind, ids: seq<string>, first: seq<Sent>, second: seq<Sent>)
    requires ids != []
    ensures var sent := Attempt(0, Result(true, NoKind, OtherError, Some(1), ids, None), first);
      var lost := Attempt(1, Result(false, RichRefused(Transient), error, Some(1), [], None), second);
      var r := Result(false, RichRefused(Transient), error, Some(2), ids, Some(1));
      DeliveryRun([sent, lost], 0, 3, r) && ResumeAt(r, false) == None
  {
    var sent := Attempt(0, Result(true, NoKind, OtherError, Some(1), ids, None), first);
    var lost := Attempt(1, Result(false, RichRefused(Transient), error, Some(1), [], None), second);
    OneMore([], sent);
    OneMore([sent], lost);
    assert [] + [sent] == [sent] && [sent] + [lost] == [sent, lost] && [] + ids == ids && ids + [] == ids;
  }

  /**
    A part that may have been delivered is attempted again only if it is the first
    part of a delivery that was no retry: such a failure leaves no record.
   */
  lemma AmbiguousPartRepeats(ds: seq<Delivery>, count: nat, i: nat)
    requires Resumed(ds, count) && i + 1 < |ds| && EndsAmbiguous(ds[i].made)
    ensures !ds[i].retry && |ds[i].made| == 1 && ds[i + 1].start == 0 && !ds[i + 1].retry
  {
    assert Continues(ds[i], ds[i + 1]);
    ResumableExactly(ds[i].made, ds[i].start, ds[i].retry, count, ds[i].result);
  }

  lemma RunDelivers(d: Delivery, count: nat)
    requires DeliveryRun(d.made, d.start, count, d.result)
    ensures d.start <= Reached(d, count) <= count && DeliveredParts(d.made) == Range(d.start, Reached(d, count))
  {
    var made := d.made;
    if LastFailed(made) {
      AllOkDelivered(made[..|made| - 1], d.start);
    } else {
      AllOkDelivered(made, d.start);
    }
  }

  /**
    However often a delivery fails and is resumed, the delivered parts are the
    consecutive ones from the first start on, each exactly once and in order; a
    final success delivers them all.
   */
  lemma {:induction false} ResumedDeliversOnce(ds: seq<Delivery>, count: nat)
    requires ds != [] && Resumed(ds, count)
    ensures ds[0].start <= Reached(ds[|ds| - 1], count)
    ensures AllDelivered(ds) == Range(ds[0].start, Reached(ds[|ds| - 1], count))
  {
    hide DeliveryRun, DeliveredParts, Reached, Range, Continues;
    var n := |ds| - 1;
    RunDelivers(ds[n], count);
    if n > 0 {
      ResumedPrefix(ds, count);
      ResumedDeliversOnce(ds[..n], count);
      assert ds[..n][n - 1] == ds[n - 1] && ds[..n][0] == ds[0];
      ContinuesWhereLeft(ds[n - 1], ds[n], count);
      RangesJoin(ds[0].start, ds[n].start, Reached(ds[n], count));
    } else {
      assert ds[..0] == [];
    }
  }

  lemma ContinuesWhereLeft(a: Delivery, b: Delivery, count: nat)
    requires DeliveryRun(a.made, a.start, count, a.result) && WellStarted(a) && Continues(a, b)
    ensures b.start == Reached(a, count)
  {
    ResumableExactly(a.made, a.start, a.retry, count, a.result);
  }

  lemma RangesJoin(from: nat, mid: nat, to: nat)
    requires from <= mid <= to
    ensures Range(from, mid) + Range(mid, to) == Range(from, to)
  {
  }

  lemma ResumedPrefix(ds: seq<Delivery>, count: nat)
    requires ds != [] && Resumed(ds, count)
    ensures Resumed(ds[..|ds| - 1], count)
  {
    hide DeliveryRun, Continues;
    var before := ds[..|ds| - 1];
    forall i, j | 0 <= i < j < |before| && j == i + 1 ensures Continues(before[i], before[j]) {
      assert Continues(ds[i], ds[j]);
    }
  }
}
