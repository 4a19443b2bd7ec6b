/**
  The dispatcher's bounded hand-off: `size` claim workers take a slot before
  they claim, put the claimed item on a queue of capacity `size`, and `size`
  service workers return the slot when the item's service ends, normally or not.
 */
module Dispatcher {
  type Job = nat                       // the leased row

  datatype Pool = Pool(
    size: nat,
    free: nat,                         // permits left in the bounded semaphore
    claiming: set<nat>,                // claim workers whose `dispatch_slot_acquired` is set
    queue: seq<Job>,
    serving: map<nat, Job>,            // service workers and what they serve
    ended: set<nat>,                   // claim workers ended by an exception
    dead: set<nat>,                    // service workers ended by an exception
    lost: nat)                         // slots that went with a service worker

  /** Atomic steps; a claim worker and a service worker are numbers below `size`. */
  datatype Event =
    | Acquire(worker: nat)             // non-blocking acquire, taken or refused
    | ClaimEmpty(worker: nat)          // the claim found nothing, or anything raised while the slot was held
    | ClaimWorkerEnds(worker: nat)     // a log call outside the `try` raised
    | ClaimItem(worker: nat, job: Job) // the claim leased a row; put_nowait follows
    | Take(worker: nat)                // a service worker gets the oldest queued item
    | Finish(worker: nat)              // its dispatch returned or raised
    | ServiceEnds(worker: nat)         // a log call before the release raised: the slot is never returned
    | ServiceWorkerEnds(worker: nat)   // the worker ended after the release, or while idle

  /** A step, or the exception a broken count would raise. */
  datatype Result = Ok(pool: Pool) | QueueFull | OverRelease

  function Release(p: Pool): Result {
    if p.free >= p.size then OverRelease else Ok(p.(free := p.free + 1))
  }

  predicate Enabled(p: Pool, e: Event) {
    e.worker < p.size &&
    match e
    case Acquire(w) => w !in p.claiming && w !in p.ended
    case ClaimEmpty(w) => w in p.claiming
    case ClaimItem(w, _) => w in p.claiming
    case ClaimWorkerEnds(w) => w !in p.claiming
    case Take(v) => v !in p.serving && v !in p.dead && p.queue != []
    case Finish(v) => v in p.serving
    case ServiceEnds(v) => v in p.serving
    case ServiceWorkerEnds(v) => v !in p.serving
  }

  function Step(p: Pool, e: Event): Result
    requires Enabled(p, e)
  {
    match e
    case Acquire(w) =>
      Ok(if p.free == 0 then p else p.(free := p.free - 1, claiming := p.claiming + {w}))
    case ClaimEmpty(w) => Release(p.(claiming := p.claiming - {w}))
    case ClaimItem(w, job) =>
      if |p.queue| >= p.size then QueueFull
      else Ok(p.(claiming := p.claiming - {w}, queue := p.queue + [job]))
    case Take(v) => Ok(p.(queue := p.queue[1..], serving := p.serving[v := p.queue[0]]))
    case ClaimWorkerEnds(w) => Ok(p.(ended := p.ended + {w}))
    case Finish(v) => Release(p.(serving := p.serving - {v}))
    case ServiceEnds(v) => Ok(p.(serving := p.serving - {v}, dead := p.dead + {v}, lost := p.lost + 1))
    case ServiceWorkerEnds(v) => Ok(p.(dead := p.dead + {v}))
  }

  function Start(size: nat): Pool { Pool(size, size, {}, [], map[], {}, {}, 0) }

  ghost predicate Run(size: nat, pools: seq<Pool>, events: seq<Event>) {
    |pools| == |events| + 1 && pools[0] == Start(size) &&
    forall k | 0 <= k < |events| ::
      Enabled(pools[k], events[k]) && Step(pools[k], events[k]) == Ok(pools[k + 1])
  }

  /** Slots are free, or held by the claims in flight, the queued items and the items in service, or lost. */
  ghost predicate Conserved(p: Pool) {
    p.free + |p.claiming| + |p.queue| + |p.serving| + p.lost == p.size
  }

  /** How often a service worker ended before its release. */
  function Losses(events: seq<Event>): nat {
    if events == [] then 0
    else Losses(events[..|events| - 1]) + if events[|events| - 1].ServiceEnds? then 1 else 0
  }

  lemma ServingSize(m: map<nat, Job>, v: nat, job: Job)
    ensures v !in m ==> |m[v := job]| == |m| + 1
    ensures v in m ==> |m - {v}| == |m| - 1
  {
    if v !in m {
      assert m[v := job].Keys == m.Keys + {v};
      assert |m[v := job].Keys| == |m.Keys| + 1;
    } else {
      assert (m - {v}).Keys == m.Keys - {v};
      assert |(m - {v}).Keys| == |m.Keys| - 1;
    }
  }

  lemma ClaimingSize(s: set<nat>, w: nat)
    ensures w !in s ==> |s + {w}| == |s| + 1
    ensures w in s ==> |s - {w}| == |s| - 1
  {
    if w in s { assert s == (s - {w}) + {w}; }
  }

  /** No enabled step overflows the queue or returns a slot twice, and the count is kept. */
  lemma StepConserves(p: Pool, e: Event)
    requires Conserved(p) && Enabled(p, e)
    ensures Step(p, e).Ok? && Step(p, e).pool.size == p.size && Conserved(Step(p, e).pool)
    ensures Step(p, e).pool.lost == p.lost + if e.ServiceEnds? then 1 else 0
  {
    ServingSize(p.serving, e.worker, if e.Take? then p.queue[0] else 0);
    ClaimingSize(p.claiming, e.worker);
  }

  /**
    Slot conservation over every interleaving of claim and service workers, with
    exceptions: `put_nowait` always finds room, none is released twice, and exactly
    those slots are lost whose service worker ended by a log call before its
    release.  Without any, a quiet pool has every slot back.
   */
  lemma {:induction false} SlotsConserved(size: nat, pools: seq<Pool>, events: seq<Event>, n: nat, e: Event)
    requires Run(size, pools, events) && n <= |events|
    ensures pools[n].size == size && Conserved(pools[n])
    ensures pools[n].lost == Losses(events[..n])
    ensures |pools[n].claiming| + |pools[n].queue| + |pools[n].serving| + Losses(events[..n]) <= size
    ensures Enabled(pools[n], e) ==> Step(pools[n], e).Ok?
    ensures pools[n].claiming == {} && pools[n].queue == [] && pools[n].serving == map[] ==>
      pools[n].free == size - Losses(events[..n])
    decreases n
  {
    hide Step, Enabled;
    if n > 0 {
      SlotsConserved(size, pools, events, n - 1, events[n - 1]);
      StepConserves(pools[n - 1], events[n - 1]);
      assert events[..n][..n - 1] == events[..n - 1];
    }
    if Enabled(pools[n], e) { StepConserves(pools[n], e); }
  }

  /** A free slot is taken when a claim worker asks for one, and every claim or service that ends gives its slot back. */
  lemma SlotsAreUsed(p: Pool, e: Event)
    requires Conserved(p) && Enabled(p, e)
    ensures var p' := Step(p, e).pool;
      && (e.Acquire? ==> if p.free > 0 then p'.free == p.free - 1 && e.worker in p'.claiming else p' == p)
      && (e.ClaimEmpty? || e.Finish? ==> p'.free == p.free + 1)
      && (e.ClaimItem? ==> e.worker !in p'.claiming && p'.queue == p.queue + [e.job])
      && (e.Take? ==> p'.serving == p.serving[e.worker := p.queue[0]] && p'.queue == p.queue[1..])
  {
    StepConserves(p, e);
  }

  // ----- no claimed item is lost or served twice ----------------------------------

  /** The items put on the queue, in order. */
  function Claimed(events: seq<Event>): seq<Job> {
    if events == [] then []
    else
      var last := events[|events| - 1];
      Claimed(events[..|events| - 1]) + if last.ClaimItem? then [last.job] else []
  }

  /** The items handed to a service worker, in order. */
  function Served(pools: seq<Pool>, events: seq<Event>): seq<Job>
    requires |pools| > |events|
    requires forall k | 0 <= k < |events| && events[k].Take? :: pools[k].queue != []
  {
    if events == [] then []
    else
      var k := |events| - 1;
      Served(pools, events[..k]) + if events[k].Take? then [pools[k].queue[0]] else []
  }

  /** One step moves the queue by the item it claimed or handed out. */
  lemma QueueStep(p: Pool, e: Event)
    requires Enabled(p, e) && Step(p, e).Ok?
    ensures e.Take? ==> p.queue != [] && p.queue == [p.queue[0]] + Step(p, e).pool.queue
    ensures !e.Take? ==> Step(p, e).pool.queue == p.queue + if e.ClaimItem? then [e.job] else []
  {
  }

  /** An item is only taken from a nonempty queue. */
  lemma TakesFromNonempty(size: nat, pools: seq<Pool>, events: seq<Event>)
    requires Run(size, pools, events)
    ensures forall k | 0 <= k < |events| && events[k].Take? :: pools[k].queue != []
  {
    forall k | 0 <= k < |events| && events[k].Take? ensures pools[k].queue != [] {
      assert Step(pools[k], events[k]) == Ok(pools[k + 1]);
      QueueStep(pools[k], events[k]);
    }
  }

  /** At every point the hand-off is a FIFO: what was served, then what is queued, is what was claimed. */
  lemma {:induction false} HandOffIsFifo(size: nat, pools: seq<Pool>, events: seq<Event>, n: nat)
    requires Run(size, pools, events) && n <= |events|
    ensures forall k | 0 <= k < |events| && events[k].Take? :: pools[k].queue != []
    ensures Claimed(events[..n]) == Served(pools, events[..n]) + pools[n].queue
  {
    TakesFromNonempty(size, pools, events);
    if n > 0 {
      var k := n - 1;
      HandOffIsFifo(size, pools, events, k);
      assert Step(pools[k], events[k]) == Ok(pools[n]);
      QueueStep(pools[k], events[k]);
      hide Step;
      assert events[..n][..k] == events[..k];
    }
  }
}
