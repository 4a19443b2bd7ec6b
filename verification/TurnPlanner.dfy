/**
  Planning a turn's delivery as bounded parts: limits shrink until every part
  fits, each part takes at most one span of each field, and the materialised
  parts spell both fields again.
 */
module TurnPlanner {
  import opened Numbers
  import opened Options
  import opened TextSpans
  import opened TableSpans

  datatype Field = UserText | FinalText

  datatype FieldSpan = FieldSpan(field: Field, start: int, end: int)

  /** `limits` are the planning limits of both fields; the single full part carries none. */
  datatype Part = Part(ordinal: int, count: int, spans: seq<FieldSpan>, limits: Option<int>)

  datatype Turn = Turn(user: string, final: string, blocks: seq<Block>)

  /** The presentation checks on a rendered part: plain text, rich message, rich multipart bytes. */
  datatype Bounds = Bounds(plain: Part -> bool, rich: Part -> bool, bytes: Part -> bool)

  datatype Plan = Parts(parts: seq<Part>) | CannotFit

  const SOURCE_CHARS: nat := 3400

  ghost predicate ValidTurn(t: Turn) { Ordered(t.blocks, |t.final|) }

  function TextOf(t: Turn, f: Field): string { if f == UserText then t.user else t.final }

  // ----- planning -----------------------------------------------------------------

  predicate Bounded(b: Bounds, p: Part, rich: bool, multipart: bool) {
    b.plain(p) && (rich ==> b.rich(p) && (multipart ==> b.bytes(p)))
  }

  /** What a sender or editor checks again before it acts on a stored part. */
  predicate Executable(b: Bounds, p: Part) { Bounded(b, p, false, false) }

  function Spans(t: Turn, f: Field, limit: nat): seq<Span>
    requires ValidTurn(t) && limit > 0
  {
    if f == UserText then TextSpansFrom(t.user, 0, limit) else TableSpansFrom(t.final, t.blocks, 0, limit)
  }

  function PartSpans(user: seq<Span>, final: seq<Span>, i: nat): seq<FieldSpan> {
    (if i < |user| then [FieldSpan(UserText, user[i].start, user[i].end)] else [])
    + (if i < |final| then [FieldSpan(FinalText, final[i].start, final[i].end)] else [])
  }

  function PlannedParts(user: seq<Span>, final: seq<Span>, limit: nat): seq<Part> {
    var n := Max(|user|, |final|);
    seq(n, i requires 0 <= i < n => Part(i, n, PartSpans(user, final, i), Some(limit)))
  }

  function PlanAt(t: Turn, limit: nat): seq<Part>
    requires ValidTurn(t) && limit > 0
  { PlannedParts(Spans(t, UserText, limit), Spans(t, FinalText, limit), limit) }

  predicate AllBounded(b: Bounds, ps: seq<Part>, rich: bool) {
    forall i | 0 <= i < |ps| :: Bounded(b, ps[i], rich, true)
  }

  function Halve(limit: nat): (h: nat)
    requires limit > 0
    ensures 0 < h && (limit > 1 ==> h < limit)
  { Max(1, limit / 2) }

  /** The planning loop from a limit on; both limits are always equal. */
  function PlanFrom(t: Turn, b: Bounds, rich: bool, limit: nat): Plan
    requires ValidTurn(t) && limit > 0
    decreases limit
  {
    if AllBounded(b, PlanAt(t, limit), rich) then Parts(PlanAt(t, limit))
    else if limit == 1 then CannotFit
    else PlanFrom(t, b, rich, Halve(limit))
  }

  function FullSpans(t: Turn): seq<FieldSpan> {
    (if t.user != "" then [FieldSpan(UserText, 0, |t.user|)] else [])
    + (if t.final != "" then [FieldSpan(FinalText, 0, |t.final|)] else [])
  }

  function FullPart(t: Turn): Part { Part(0, 1, FullSpans(t), None) }

  /** `short` is the check that an unsplit turn renders without preview cuts. */
  function Prepare(t: Turn, b: Bounds, isTurn: bool, live: bool, rich: bool, short: bool): Plan
    requires ValidTurn(t)
  {
    if live || !isTurn || (t.user == "" && t.final == "") then Parts([])
    else if short && Bounded(b, FullPart(t), rich, false) then Parts([FullPart(t)])
    else PlanFrom(t, b, rich, SOURCE_CHARS)
  }

  method PlannedPartsForLimits(t: Turn, userLimit: nat, finalLimit: nat) returns (ps: seq<Part>)
    requires ValidTurn(t) && userLimit == finalLimit > 0
    ensures ps == PlanAt(t, userLimit)
  {
    hide Tiles, TextSpansFrom, TableSpansFrom;
    var user := SplitTextSpans(t.user, userLimit);
    var final := SplitTableAwareSpans(t.final, t.blocks, finalLimit);
    var n := Max(|user.value|, |final.value|);
    ps := [];
    for ordinal := 0 to n
      invariant ps == PlannedParts(user.value, final.value, userLimit)[..ordinal]
    {
      var spans: seq<FieldSpan> := [];
      if ordinal < |user.value| {
        spans := spans + [FieldSpan(UserText, user.value[ordinal].start, user.value[ordinal].end)];
      }
      if ordinal < |final.value| {
        spans := spans + [FieldSpan(FinalText, final.value[ordinal].start, final.value[ordinal].end)];
      }
      assert spans == PartSpans(user.value, final.value, ordinal);
      ps := ps + [Part(ordinal, n, spans, Some(userLimit))];
    }
  }

  /** Terminates because the limits halve down to one. */
  method PrepareTurnDeliveryParts(t: Turn, b: Bounds, isTurn: bool, live: bool, rich: bool, short: bool) returns (plan: Plan)
    requires ValidTurn(t)
    ensures plan == Prepare(t, b, isTurn, live, rich, short)
  {
    hide PlanAt, Bounded;
    if live || !isTurn { return Parts([]); }
    if t.user == "" && t.final == "" { return Parts([]); }
    var full: seq<FieldSpan> := [];
    if t.user != "" { full := full + [FieldSpan(UserText, 0, |t.user|)]; }
    if t.final != "" { full := full + [FieldSpan(FinalText, 0, |t.final|)]; }
    assert full == FullSpans(t);
    if short && Bounded(b, Part(0, 1, full, None), rich, false) { return Parts([Part(0, 1, full, None)]); }
    var userLimit, finalLimit := Max(1, SOURCE_CHARS), Max(1, SOURCE_CHARS);
    while true
      invariant userLimit == finalLimit > 0
      invariant PlanFrom(t, b, rich, SOURCE_CHARS) == PlanFrom(t, b, rich, userLimit)
      decreases userLimit
    {
      var ps := PlannedPartsForLimits(t, userLimit, finalLimit);
      if AllBounded(b, ps, rich) { return Parts(ps); }
      if userLimit == 1 && finalLimit == 1 { return CannotFit; }
      userLimit, finalLimit := Max(1, userLimit / 2), Max(1, finalLimit / 2);
    }
  }

  // ----- what a plan is -----------------------------------------------------------------

  /** The spans a list of parts takes from one field, in part order. */
  function Taken(ps: seq<Part>, f: Field): seq<Span> {
    if ps == [] then [] else Taken(ps[..|ps| - 1], f) + TakenBy(ps[|ps| - 1].spans, f)
  }

  function AsSpan(s: FieldSpan): seq<Span> { if 0 <= s.start <= s.end then [Span(s.start, s.end)] else [] }

  /** The first span of a field; a well-formed part has no other. */
  function TakenBy(spans: seq<FieldSpan>, f: Field): seq<Span> {
    if |spans| > 0 && spans[0].field == f then AsSpan(spans[0])
    else if |spans| > 1 && spans[1].field == f then AsSpan(spans[1])
    else []
  }

  /** One or two nonempty spans, at most one per field, the user's first. */
  predicate WellFormed(p: Part, i: nat, n: nat) {
    && p.ordinal == i && p.count == n && 1 <= |p.spans| <= 2 && (p.limits.Some? ==> p.limits.value > 0)
    && (|p.spans| == 2 ==> p.spans[0].field == UserText && p.spans[1].field == FinalText)
    && forall k | 0 <= k < |p.spans| :: 0 <= p.spans[k].start < p.spans[k].end
  }

  /** Ordinals 0..n-1, well-formed parts, and an exact partition of both fields in order. */
  ghost predicate ExactPlan(t: Turn, ps: seq<Part>, limit: nat) {
    && (forall i | 0 <= i < |ps| :: WellFormed(ps[i], i, |ps|))
    && Tiles(Taken(ps, UserText), 0, |t.user|, limit) && Tiles(Taken(ps, FinalText), 0, |t.final|, limit)
  }

  predicate Nonempty(spans: seq<Span>) { forall k | 0 <= k < |spans| :: spans[k].start < spans[k].end }

  lemma PartSpansTaken(user: seq<Span>, final: seq<Span>, i: nat)
    requires Nonempty(user) && Nonempty(final)
    ensures TakenBy(PartSpans(user, final, i), UserText) == if i < |user| then [user[i]] else []
    ensures TakenBy(PartSpans(user, final, i), FinalText) == if i < |final| then [final[i]] else []
  {
  }

  lemma {:induction false} PlannedTaken(ps: seq<Part>, user: seq<Span>, final: seq<Span>, n: nat)
    requires Nonempty(user) && Nonempty(final) && n <= |ps|
    requires forall i | 0 <= i < |ps| :: ps[i].spans == PartSpans(user, final, i)
    ensures Taken(ps[..n], UserText) == user[..Min(n, |user|)]
    ensures Taken(ps[..n], FinalText) == final[..Min(n, |final|)]
  {
    hide TakenBy, PartSpans, Nonempty;
    if n > 0 {
      PlannedTaken(ps, user, final, n - 1);
      assert ps[..n][..n - 1] == ps[..n - 1];
      PartSpansTaken(user, final, n - 1);
    }
  }

  lemma PlannedWellFormed(user: seq<Span>, final: seq<Span>, limit: nat, i: nat)
    requires Nonempty(user) && Nonempty(final) && limit > 0 && i < Max(|user|, |final|)
    ensures WellFormed(PlannedParts(user, final, limit)[i], i, |PlannedParts(user, final, limit)|)
  {
  }

  lemma TilesNonempty(spans: seq<Span>, from: nat, to: nat, limit: nat)
    requires Tiles(spans, from, to, limit)
    ensures Nonempty(spans)
  {
  }

  lemma AllTaken(user: seq<Span>, final: seq<Span>, limit: nat)
    requires Nonempty(user) && Nonempty(final)
    ensures Taken(PlannedParts(user, final, limit), UserText) == user
    ensures Taken(PlannedParts(user, final, limit), FinalText) == final
  {
    var ps := PlannedParts(user, final, limit);
    hide Nonempty, Taken, TakenBy, PartSpans;
    assert |ps| == Max(|user|, |final|) && forall i | 0 <= i < |ps| :: ps[i].spans == PartSpans(user, final, i);
    PlannedTaken(ps, user, final, |ps|);
    hide PlannedParts;
    assert ps[..|ps|] == ps && user[..|user|] == user && final[..|final|] == final;
  }

  lemma PlannedIsExact(t: Turn, user: seq<Span>, final: seq<Span>, limit: nat)
    requires limit > 0 && Tiles(user, 0, |t.user|, limit) && Tiles(final, 0, |t.final|, limit)
    ensures ExactPlan(t, PlannedParts(user, final, limit), limit)
  {
    hide Tiles, WellFormed, PlannedParts, Taken, Nonempty;
    TilesNonempty(user, 0, |t.user|, limit);
    TilesNonempty(final, 0, |t.final|, limit);
    AllTaken(user, final, limit);
    var ps := PlannedParts(user, final, limit);
    forall i | 0 <= i < |ps| ensures WellFormed(ps[i], i, |ps|) { PlannedLength(user, final, limit); PlannedWellFormed(user, final, limit, i); }
  }

  lemma PlannedLength(user: seq<Span>, final: seq<Span>, limit: nat)
    ensures |PlannedParts(user, final, limit)| == Max(|user|, |final|)
  {
  }

  lemma PlanAtIsExact(t: Turn, limit: nat)
    requires ValidTurn(t) && limit > 0
    ensures ExactPlan(t, PlanAt(t, limit), limit)
  {
    hide Tiles, ExactPlan, PlannedParts;
    PlannedIsExact(t, Spans(t, UserText, limit), Spans(t, FinalText, limit), limit);
  }

  lemma {:induction false} PlanFromIsExact(t: Turn, b: Bounds, rich: bool, limit: nat)
    requires ValidTurn(t) && limit > 0 && PlanFrom(t, b, rich, limit).Parts?
    ensures ExactPlan(t, PlanFrom(t, b, rich, limit).parts, limit)
    ensures AllBounded(b, PlanFrom(t, b, rich, limit).parts, rich)
    decreases limit
  {
    hide PlanAt, Bounded;
    if AllBounded(b, PlanAt(t, limit), rich) {
      PlanAtIsExact(t, limit);
    } else {
      PlanFromIsExact(t, b, rich, Halve(limit));
      WiderLimit(t, PlanFrom(t, b, rich, limit).parts, Halve(limit), limit);
    }
  }

  lemma WiderLimit(t: Turn, ps: seq<Part>, narrow: nat, wide: nat)
    requires ExactPlan(t, ps, narrow) && narrow <= wide
    ensures ExactPlan(t, ps, wide)
  {
  }

  /** A nonempty exact plan whose parts meet the bound they were planned for and pass their executor's check. */
  ghost predicate Deliverable(t: Turn, b: Bounds, rich: bool, ps: seq<Part>) {
    && |ps| > 0 && (exists limit: nat :: ExactPlan(t, ps, limit))
    && forall i | 0 <= i < |ps| :: Bounded(b, ps[i], rich, |ps| > 1) && Executable(b, ps[i])
  }

  lemma PlannedIsDeliverable(t: Turn, b: Bounds, rich: bool, limit: nat)
    requires ValidTurn(t) && !(t.user == "" && t.final == "") && limit > 0 && PlanFrom(t, b, rich, limit).Parts?
    ensures Deliverable(t, b, rich, PlanFrom(t, b, rich, limit).parts)
  {
    var ps := PlanFrom(t, b, rich, limit).parts;
    hide PlanFrom, ExactPlan, AllBounded, Bounded, Executable;
    PlanFromIsExact(t, b, rich, limit);
    PlanIsNonempty(t, ps, limit);
    BoundedIsExecutable(b, ps, rich);
  }

  lemma BoundedIsExecutable(b: Bounds, ps: seq<Part>, rich: bool)
    requires AllBounded(b, ps, rich)
    ensures forall i | 0 <= i < |ps| :: Bounded(b, ps[i], rich, |ps| > 1) && Executable(b, ps[i])
  {
    forall i | 0 <= i < |ps| ensures Bounded(b, ps[i], rich, |ps| > 1) && Executable(b, ps[i]) {
      assert Bounded(b, ps[i], rich, true);
    }
  }

  lemma FullIsDeliverable(t: Turn, b: Bounds, rich: bool)
    requires !(t.user == "" && t.final == "") && Bounded(b, FullPart(t), rich, false)
    ensures Deliverable(t, b, rich, [FullPart(t)])
  {
    FullIsExact(t);
    hide ExactPlan, FullPart;
  }

  /**
    A plan is exact and bounded: both fields are partitioned in order, every part
    is well formed and meets the bound it was planned for, and every part passes
    the check its executor makes.  Only a live item, another kind of item and an
    empty turn have no parts.
   */
  lemma PlanIsExact(t: Turn, b: Bounds, isTurn: bool, live: bool, rich: bool, short: bool)
    requires ValidTurn(t) && Prepare(t, b, isTurn, live, rich, short).Parts?
    ensures var ps := Prepare(t, b, isTurn, live, rich, short).parts;
      if live || !isTurn || (t.user == "" && t.final == "") then ps == [] else Deliverable(t, b, rich, ps)
  {
    hide Deliverable, PlanFrom, ValidTurn;
    if !live && isTurn && !(t.user == "" && t.final == "") {
      if short && Bounded(b, FullPart(t), rich, false) { FullIsDeliverable(t, b, rich); } else { PlannedIsDeliverable(t, b, rich, SOURCE_CHARS); }
    }
  }

  lemma PlanIsNonempty(t: Turn, ps: seq<Part>, limit: nat)
    requires ExactPlan(t, ps, limit) && !(t.user == "" && t.final == "")
    ensures ps != []
  {
    hide WellFormed;
  }

  lemma TakenOne(p: Part, f: Field)
    ensures Taken([p], f) == TakenBy(p.spans, f)
  {
    assert [p][..0] == [];
    assert Taken([p], f) == Taken([], f) + TakenBy(p.spans, f);
  }

  lemma OneTile(n: nat, limit: nat)
    requires n <= limit
    ensures Tiles(if n == 0 then [] else [Span(0, n)], 0, n, limit)
  {
  }

  lemma FullIsExact(t: Turn)
    requires !(t.user == "" && t.final == "")
    ensures ExactPlan(t, [FullPart(t)], |t.user| + |t.final|)
  {
    hide Tiles, Taken, TakenBy, WellFormed, FullSpans;
    var p := FullPart(t);
    TakenOne(p, UserText);
    TakenOne(p, FinalText);
    FullTaken(t);
    OneTile(|t.user|, |t.user| + |t.final|);
    OneTile(|t.final|, |t.user| + |t.final|);
    FullWellFormed(t);
  }

  lemma FullWellFormed(t: Turn)
    requires !(t.user == "" && t.final == "")
    ensures WellFormed(FullPart(t), 0, 1)
  {
  }

  lemma FullTaken(t: Turn)
    ensures TakenBy(FullSpans(t), UserText) == if |t.user| == 0 then [] else [Span(0, |t.user|)]
    ensures TakenBy(FullSpans(t), FinalText) == if |t.final| == 0 then [] else [Span(0, |t.final|)]
  {
  }

  /** The limits the loop may try: the first one, its half, and so on down to one. */
  function Tried(n: nat): nat { if n == 0 then SOURCE_CHARS else Max(1, Tried(n - 1) / 2) }

  /** The planner gives up exactly when no limit it tries makes every part fit. */
  lemma {:induction false} GivesUpExactly(t: Turn, b: Bounds, rich: bool, n: nat)
    requires ValidTurn(t) && Tried(n) > 0
    ensures PlanFrom(t, b, rich, Tried(n)).CannotFit? <==>
      forall k: nat | n <= k && Tried(k) > 0 :: !AllBounded(b, PlanAt(t, Tried(k)), rich)
    decreases Tried(n)
  {
    hide PlanAt, AllBounded;
    if Tried(n) == 1 {
      StaysOne(n);
    } else {
      assert Tried(n + 1) == Halve(Tried(n));
      GivesUpExactly(t, b, rich, n + 1);
    }
  }

  /** Otherwise it takes the largest limit it tries that makes every part fit. */
  lemma {:induction false} FirstFitting(t: Turn, b: Bounds, rich: bool, n: nat) returns (k: nat)
    requires ValidTurn(t) && Tried(n) > 0 && PlanFrom(t, b, rich, Tried(n)).Parts?
    ensures n <= k && Tried(k) > 0 && PlanFrom(t, b, rich, Tried(n)) == Parts(PlanAt(t, Tried(k)))
    ensures AllBounded(b, PlanAt(t, Tried(k)), rich)
    ensures forall j: nat | n <= j < k && Tried(j) > 0 :: !AllBounded(b, PlanAt(t, Tried(j)), rich)
    decreases Tried(n)
  {
    hide PlanAt, AllBounded;
    if AllBounded(b, PlanAt(t, Tried(n)), rich) {
      k := n;
    } else {
      assert Tried(n + 1) == Halve(Tried(n));
      k := FirstFitting(t, b, rich, n + 1);
    }
  }

  /** The limits start at the source limit and are halved, down to one. */
  lemma LimitsHalve(n: nat)
    ensures Tried(0) == SOURCE_CHARS && 1 <= Tried(n) <= SOURCE_CHARS
    ensures Tried(n + 1) == if Tried(n) >= 2 then Tried(n) / 2 else 1
  {
    if n > 0 { LimitsHalve(n - 1); }
  }

  /** Part `i` of a plan takes the `i`th span of each field that has one; the spans are the splitters' own. */
  lemma PlanPairsSpans(t: Turn, limit: nat, i: nat)
    requires ValidTurn(t) && limit > 0 && i < |PlanAt(t, limit)|
    ensures var p, user, final := PlanAt(t, limit)[i], TextSpansFrom(t.user, 0, limit), TableSpansFrom(t.final, t.blocks, 0, limit);
      && |PlanAt(t, limit)| == (if |user| >= |final| then |user| else |final|)
      && TakenBy(p.spans, UserText) == (if i < |user| then [user[i]] else [])
      && TakenBy(p.spans, FinalText) == (if i < |final| then [final[i]] else [])
      && p.limits == Some(limit)
  {
    var user, final := TextSpansFrom(t.user, 0, limit), TableSpansFrom(t.final, t.blocks, 0, limit);
    TilesNonempty(user, 0, |t.user|, limit);
    TilesNonempty(final, 0, |t.final|, limit);
    hide TextSpansFrom, TableSpansFrom, Tiles, Nonempty;
    PartSpansTaken(user, final, i);
  }

  /** A short turn that fits goes out whole; any other is planned from the source limit on. */
  lemma WholeExactlyIfShort(t: Turn, b: Bounds, rich: bool, short: bool)
    requires ValidTurn(t) && !(t.user == "" && t.final == "")
    ensures var plan := Prepare(t, b, true, false, rich, short);
      if short && b.plain(FullPart(t)) && (rich ==> b.rich(FullPart(t))) then
        && plan.Parts? && |plan.parts| == 1 && plan.parts[0].limits.None?
        && TakenBy(plan.parts[0].spans, UserText) == (if t.user == "" then [] else [Span(0, |t.user|)])
        && TakenBy(plan.parts[0].spans, FinalText) == (if t.final == "" then [] else [Span(0, |t.final|)])
      else plan == PlanFrom(t, b, rich, SOURCE_CHARS)
  {
    hide PlanFrom;
    FullTaken(t);
  }

  lemma StaysOne(n: nat)
    requires Tried(n) == 1
    ensures forall k: nat | n <= k :: Tried(k) == 1
  {
    forall k: nat | n <= k ensures Tried(k) == 1 { OneFrom(n, k); }
  }

  lemma {:induction false} OneFrom(n: nat, k: nat)
    requires Tried(n) == 1 && n <= k
    ensures Tried(k) == 1
    decreases k
  {
    if n < k { OneFrom(n, k - 1); }
  }

  // ----- executing a stored part ---------------------------------------------------------------

  /** The coordinates that are stored with a job: the planning limits are not among them. */
  datatype Stored = Stored(ordinal: int, count: int, spans: seq<FieldSpan>)

  function StoredOf(p: Part): Stored { Stored(p.ordinal, p.count, p.spans) }

  /** The executor plans the turn again, as plain text, and acts on the part with the stored coordinates, or on none. */
  function PartToExecute(t: Turn, b: Bounds, short: bool, job: Stored): Option<Part>
    requires ValidTurn(t)
  {
    var plan := Prepare(t, b, true, false, false, short);
    if plan.Parts? && 0 <= job.ordinal < |plan.parts| && job.count == |plan.parts| && job.spans == plan.parts[job.ordinal].spans
    then Some(plan.parts[job.ordinal]) else None
  }

  /** Whatever the turn has become since, a part is executed only if it has the stored spans, passes the recheck and is not rejected. */
  lemma ExecutedPartIsSound(t: Turn, b: Bounds, short: bool, job: Stored)
    requires ValidTurn(t) && PartToExecute(t, b, short, job).Some?
    ensures var p := PartToExecute(t, b, short, job).value;
      StoredOf(p) == job && Executable(b, p) && Materialisable(t, p)
  {
    PlanIsExact(t, b, true, false, false, short);
    var ps := Prepare(t, b, true, false, false, short).parts;
    hide Prepare, Executable, Materialisable;
    assert Deliverable(t, b, false, ps);
    var limit: nat :| ExactPlan(t, ps, limit);
    PlanRestoresFields(t, ps, limit);
    assert WellFormed(ps[job.ordinal], job.ordinal, |ps|);
  }

  /** As long as the turn renders as it did, every stored part of its plan is executed as planned. */
  lemma StoredPartsAreExecuted(t: Turn, b: Bounds, short: bool, i: nat)
    requires ValidTurn(t) && Prepare(t, b, true, false, false, short).Parts?
    requires i < |Prepare(t, b, true, false, false, short).parts|
    ensures var p := Prepare(t, b, true, false, false, short).parts[i];
      PartToExecute(t, b, short, StoredOf(p)) == Some(p)
  {
    PlanIsExact(t, b, true, false, false, short);
    var ps := Prepare(t, b, true, false, false, short).parts;
    hide Prepare;
    assert Deliverable(t, b, false, ps);
    var limit: nat :| ExactPlan(t, ps, limit);
    assert WellFormed(ps[i], i, |ps|);
  }

  // ----- materialising --------------------------------------------------------------------

  datatype Fragments = Fragments(user: string, final: string)

  predicate SpanFits(t: Turn, s: FieldSpan) { 0 <= s.start < s.end <= |TextOf(t, s.field)| }

  /** The planning limit, which is only looked at for the final text. */
  predicate UsableLimit(p: Part) { p.limits.Some? ==> p.limits.value > 0 }

  /** The first `n` spans fit their fields, and no field comes twice. */
  predicate Usable(t: Turn, p: Part, n: nat)
    requires n <= |p.spans|
  {
    && (forall i | 0 <= i < n :: SpanFits(t, p.spans[i]) && (p.spans[i].field == FinalText ==> UsableLimit(p)))
    && (forall i, j | 0 <= i < n && 0 <= j < i :: p.spans[i].field != p.spans[j].field)
  }

  predicate Materialisable(t: Turn, p: Part) {
    0 <= p.ordinal < p.count && p.spans != [] && Usable(t, p, |p.spans|)
  }

  function LimitOf(p: Part): nat { if p.limits.Some? && p.limits.value > 0 then p.limits.value else SOURCE_CHARS }

  function HeaderOf(t: Turn, p: Part, s: FieldSpan): string
    requires SpanFits(t, s)
  {
    if s.field == FinalText then ContinuationFrom(t.blocks, s.start, LimitOf(p), 0) else ""
  }

  function Whole(t: Turn, p: Part): Fragments
    requires Materialisable(t, p)
  { FragmentsOf(t, p, |p.spans|) }

  /** The fragments of the first `n` spans. */
  function FragmentsOf(t: Turn, p: Part, n: nat): Fragments
    requires n <= |p.spans| && forall i | 0 <= i < n :: SpanFits(t, p.spans[i])
  {
    if n == 0 then Fragments("", "")
    else
      var before, s := FragmentsOf(t, p, n - 1), p.spans[n - 1];
      assert SpanFits(t, s);
      if s.field == UserText then before.(user := before.user + t.user[s.start..s.end])
      else before.(final := before.final + HeaderOf(t, p, s) + t.final[s.start..s.end])
  }

  predicate SeenIn(p: Part, n: nat, f: Field)
    requires n <= |p.spans|
  { exists k | 0 <= k < n :: p.spans[k].field == f }

  lemma UsableNext(t: Turn, p: Part, n: nat)
    requires n < |p.spans| && Usable(t, p, n)
    ensures var s := p.spans[n];
      Usable(t, p, n + 1) <==> !SeenIn(p, n, s.field) && SpanFits(t, s) && (s.field == FinalText ==> UsableLimit(p))
    ensures !Usable(t, p, n + 1) ==> !Usable(t, p, |p.spans|)
    ensures forall f :: SeenIn(p, n + 1, f) <==> SeenIn(p, n, f) || f == p.spans[n].field
  {
    assert p.spans[n].field == p.spans[n].field;
  }

  /** None stands for a rejected part. */
  method MaterializeTurnDeliveryPart(t: Turn, p: Part) returns (r: Option<Fragments>)
    ensures r.Some? <==> Materialisable(t, p)
    ensures r.Some? ==> r.value == Whole(t, p)
  {
    hide ContinuationFrom, ValidTurn, Usable, SeenIn;
    if p.ordinal < 0 || p.count <= p.ordinal || p.spans == [] { return None; }
    var user, final := "", "";
    var seen: set<Field> := {};
    NothingUsed(t, p);
    for i := 0 to |p.spans|
      invariant Usable(t, p, i) && forall k | 0 <= k < i :: SpanFits(t, p.spans[k])
      invariant forall f :: f in seen <==> SeenIn(p, i, f)
      invariant Fragments(user, final) == FragmentsOf(t, p, i)
    {
      var s := p.spans[i];
      UsableNext(t, p, i);
      if s.field in seen { return None; }
      seen := seen + {s.field};
      if s.start < 0 || s.end <= s.start || s.end > |TextOf(t, s.field)| { return None; }
      if s.field == UserText {
        user := user + t.user[s.start..s.end];
      } else {
        if p.limits.Some? && p.limits.value <= 0 { return None; }
        var header := TableContinuationHeader(t.blocks, s.start, LimitOf(p));
        final := final + header.value + t.final[s.start..s.end];
      }
    }
    return Some(Fragments(user, final));
  }

  lemma NothingUsed(t: Turn, p: Part)
    ensures Usable(t, p, 0) && forall f :: !SeenIn(p, 0, f)
  {
  }

  /** A part that starts among a table's data rows begins with that table's header, if it fits; any other with its own text. */
  lemma PartStartsWithHeader(t: Turn, p: Part, k: nat)
    requires ValidTurn(t) && Materialisable(t, p) && k < |p.spans| && p.spans[k].field == FinalText
    ensures var s, final := p.spans[k], Whole(t, p).final;
      && (forall j | 0 <= j < |t.blocks| && t.blocks[j].dataStart <= s.start < t.blocks[j].end ::
            final == (if |t.blocks[j].header| <= LimitOf(p) then t.blocks[j].header else "") + t.final[s.start..s.end])
      && ((forall j | 0 <= j < |t.blocks| :: !(t.blocks[j].dataStart <= s.start < t.blocks[j].end)) ==> final == t.final[s.start..s.end])
  {
    hide ContinuationFrom;
    var s := p.spans[k];
    OnlyFinal(t, p, k, |p.spans|);
    forall j | 0 <= j < |t.blocks| && t.blocks[j].dataStart <= s.start < t.blocks[j].end
      ensures HeaderOf(t, p, s) == if |t.blocks[j].header| <= LimitOf(p) then t.blocks[j].header else ""
    {
      ContinuationExact(t.blocks, |t.final|, s.start, LimitOf(p), 0, j);
    }
    if forall j | 0 <= j < |t.blocks| :: !(t.blocks[j].dataStart <= s.start < t.blocks[j].end) {
      NoContinuation(t.blocks, s.start, LimitOf(p), 0);
      assert "" + t.final[s.start..s.end] == t.final[s.start..s.end];
    }
    hide FragmentsOf, HeaderOf, Usable, ValidTurn;
  }

  /** One span makes the whole final text of a part. */
  lemma {:induction false} OnlyFinal(t: Turn, p: Part, k: nat, n: nat)
    requires Materialisable(t, p) && k < |p.spans| && p.spans[k].field == FinalText && n <= |p.spans|
    ensures FragmentsOf(t, p, n).final ==
      if k < n then HeaderOf(t, p, p.spans[k]) + t.final[p.spans[k].start..p.spans[k].end] else ""
  {
    hide HeaderOf;
    if n > 0 {
      OnlyFinal(t, p, k, n - 1);
      if n - 1 == k {
        var header := HeaderOf(t, p, p.spans[k]);
        assert "" + header == header;
      }
    }
  }

  /** The final text of a part without the header it repeats. */
  function WithoutHeader(t: Turn, p: Part): string
    requires Materialisable(t, p)
  {
    var final := Whole(t, p).final;
    var last := p.spans[|p.spans| - 1];
    var header := HeaderOf(t, p, last);
    if |header| <= |final| then final[|header|..] else final
  }

  function JoinUser(t: Turn, ps: seq<Part>): string
    requires forall i | 0 <= i < |ps| :: Materialisable(t, ps[i])
  {
    if ps == [] then "" else JoinUser(t, ps[..|ps| - 1]) + Whole(t, ps[|ps| - 1]).user
  }

  function JoinFinal(t: Turn, ps: seq<Part>): string
    requires forall i | 0 <= i < |ps| :: Materialisable(t, ps[i])
  {
    if ps == [] then "" else JoinFinal(t, ps[..|ps| - 1]) + WithoutHeader(t, ps[|ps| - 1])
  }

  lemma PartFragments(t: Turn, p: Part, i: nat, n: nat)
    requires WellFormed(p, i, n) && Materialisable(t, p)
    requires Within(TakenBy(p.spans, UserText), 0, |t.user|) && Within(TakenBy(p.spans, FinalText), 0, |t.final|)
    ensures Whole(t, p).user == Pieces(t.user, TakenBy(p.spans, UserText))
    ensures WithoutHeader(t, p) == Pieces(t.final, TakenBy(p.spans, FinalText))
  {
    var s := p.spans;
    assert SpanFits(t, s[0]) && FragmentsOf(t, p, 0) == Fragments("", "");
    assert FragmentsOf(t, p, 1) == if s[0].field == UserText then Fragments(t.user[s[0].start..s[0].end], "")
                                   else Fragments("", HeaderOf(t, p, s[0]) + t.final[s[0].start..s[0].end]);
  }

  lemma {:induction false} PiecesConcat(text: string, a: seq<Span>, b: seq<Span>)
    requires Within(a, 0, |text|) && Within(b, 0, |text|)
    ensures Within(a + b, 0, |text|) && Pieces(text, a + b) == Pieces(text, a) + Pieces(text, b)
    decreases |a|
  {
    if a == [] {
      assert a + b == b;
    } else {
      PiecesConcat(text, a[1..], b);
      assert (a + b)[1..] == a[1..] + b;
    }
  }

  lemma {:induction false} JoinIsPieces(t: Turn, ps: seq<Part>, n: nat)
    requires |ps| <= n && forall i | 0 <= i < |ps| :: WellFormed(ps[i], i, n) && Materialisable(t, ps[i])
    requires Within(Taken(ps, UserText), 0, |t.user|) && Within(Taken(ps, FinalText), 0, |t.final|)
    ensures JoinUser(t, ps) == Pieces(t.user, Taken(ps, UserText))
    ensures JoinFinal(t, ps) == Pieces(t.final, Taken(ps, FinalText))
    decreases |ps|
  {
    if ps != [] {
      var k := |ps| - 1;
      hide WellFormed, Materialisable, WithoutHeader, Whole;
      SplitWithin(Taken(ps[..k], UserText), TakenBy(ps[k].spans, UserText), |t.user|);
      SplitWithin(Taken(ps[..k], FinalText), TakenBy(ps[k].spans, FinalText), |t.final|);
      JoinIsPieces(t, ps[..k], n);
      PartFragments(t, ps[k], k, n);
      PiecesConcat(t.user, Taken(ps[..k], UserText), TakenBy(ps[k].spans, UserText));
      PiecesConcat(t.final, Taken(ps[..k], FinalText), TakenBy(ps[k].spans, FinalText));
    }
  }

  lemma SplitWithin(a: seq<Span>, b: seq<Span>, n: nat)
    requires Within(a + b, 0, n)
    ensures Within(a, 0, n) && Within(b, 0, n)
  {
    assert forall i | 0 <= i < |a| :: (a + b)[i] == a[i];
    assert forall i | 0 <= i < |b| :: (a + b)[|a| + i] == b[i];
  }

  lemma {:induction false} PartWithin(ps: seq<Part>, f: Field, n: nat, i: nat)
    requires Within(Taken(ps, f), 0, n) && i < |ps|
    ensures Within(TakenBy(ps[i].spans, f), 0, n)
    decreases |ps|
  {
    var k := |ps| - 1;
    SplitWithin(Taken(ps[..k], f), TakenBy(ps[k].spans, f), n);
    hide Within, TakenBy;
    if i < k { PartWithin(ps[..k], f, n, i); }
  }

  lemma PartIsMaterialisable(t: Turn, p: Part, i: nat, n: nat)
    requires i < n && WellFormed(p, i, n)
    requires Within(TakenBy(p.spans, UserText), 0, |t.user|) && Within(TakenBy(p.spans, FinalText), 0, |t.final|)
    ensures Materialisable(t, p)
  {
    forall k | 0 <= k < |p.spans| ensures SpanFits(t, p.spans[k]) {
      var taken := TakenBy(p.spans, p.spans[k].field);
      assert taken == [Span(p.spans[k].start, p.spans[k].end)];
      assert taken[0].end <= |TextOf(t, p.spans[k].field)|;
    }
  }

  /** No part of an exact plan is rejected and, repeated headers removed, the parts spell both fields. */
  lemma PlanRestoresFields(t: Turn, ps: seq<Part>, limit: nat)
    requires ValidTurn(t) && ExactPlan(t, ps, limit)
    ensures forall i | 0 <= i < |ps| :: Materialisable(t, ps[i])
    ensures JoinUser(t, ps) == t.user && JoinFinal(t, ps) == t.final
  {
    TilingIsLossless(t.user, Taken(ps, UserText), 0, limit);
    TilingIsLossless(t.final, Taken(ps, FinalText), 0, limit);
    hide Tiles, Within, Materialisable, WellFormed;
    forall i | 0 <= i < |ps| ensures Materialisable(t, ps[i]) {
      PartWithin(ps, UserText, |t.user|, i);
      PartWithin(ps, FinalText, |t.final|, i);
      PartIsMaterialisable(t, ps[i], i, |ps|);
    }
    JoinIsPieces(t, ps, |ps|);
  }
}
