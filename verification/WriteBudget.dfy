/**
  Physical-write accounting through the send ladders: the client's split send and
  format variants, the rich send with its fallback, and the multi-part loop.  The
  provider is any function from the call number to an answer.
 */
module WriteBudget {
  import opened Options
  import opened TextSpans

  datatype ErrorKind = Capability | BadRequest | BotAccess | Transient | OtherError

  /** `kept` is what the error's text still reads as once it is sanitized and shortened for the result. */
  datatype Answer = Accepted(id: string) | Refused(kind: ErrorKind, kept: ErrorKind, cannotParse: bool) | TooManyRequests

  datatype Format = Html | HtmlNoExpandable | PlainText

  /** One API call. */
  datatype Call = RichCall | ChunkCall(index: nat, total: nat) | VariantCall(format: Format)

  datatype Sent = Sent(call: Call, answer: Answer)

  /** What the send code looks at in a rendered message. */
  datatype Message = Message(source: string, plain: string, expandable: bool, plainDiffers: bool, singlePlain: nat)

  datatype Part = Part(fallback: Message, readable: bool, richFits: bool)

  datatype Kind =
    | NoKind | BudgetExhausted | DeliveryUnknown | EmptyPlainText | TransportChanged | RichRefused(kind: ErrorKind)

  /**
    `writes` is absent where the source reports none; a reader then counts one.
    `error` is the class of the error text, if it is a provider's.
   */
  datatype Result = Result(ok: bool, kind: Kind, error: ErrorKind, writes: Option<nat>, ids: seq<string>, failedPart: Option<nat>)

  /** A rate limit escapes as an exception and carries no result. */
  datatype Reply = Returned(result: Result) | RateLimited

  const TEXT_LIMIT: nat := 3900
  const SPLIT_LIMIT: nat := 3400

  function Writes(r: Result): nat { if r.writes.Some? then r.writes.value else 1 }

  predicate Covers(writes: nat, allowance: Option<nat>) { allowance.Some? ==> writes <= allowance.value }

  /** The failed part may have been delivered all the same. */
  predicate Ambiguous(r: Result) {
    match r.kind
    case DeliveryUnknown => true
    case RichRefused(Transient) => true
    case RichRefused(Capability) => false
    case RichRefused(BadRequest) => false
    case BudgetExhausted => false
    case EmptyPlainText => false
    case TransportChanged => false
    case _ => r.error == Transient
  }

  /** A failure without a reason of its own shows the provider's last refusal. */
  predicate ShowsError(r: Result, sent: seq<Sent>) {
    !r.ok && (r.kind == NoKind || r.kind.RichRefused?) ==>
      && sent != [] && sent[|sent| - 1].answer.Refused? && r.error == sent[|sent| - 1].answer.kept
      && (r.kind.RichRefused? ==> r.kind.kind == sent[|sent| - 1].answer.kind)
  }

  function Allowance(max: Option<int>): Option<nat> {
    if max.None? then None else Some(if max.value > 0 then max.value else 0)
  }

  function Variants(m: Message): (v: seq<Format>)
    ensures 1 <= |v| <= 3
  {
    [Html] + (if m.expandable then [HtmlNoExpandable] else []) + (if m.plainDiffers then [PlainText] else [])
  }

  function Chunks(m: Message): nat { |TextSpansFrom(m.plain, 0, SPLIT_LIMIT)| }

  predicate IsSplit(m: Message) { |m.source| > TEXT_LIMIT && m.plain != "" }

  // ----- what a ladder does -------------------------------------------------------------

  function IdOf(a: Answer): string
    requires a.Accepted?
  { if a.id == "" then "0" else a.id }

  /** Nothing is sent, and the reply says why. */
  predicate NotSent(sent: seq<Sent>, reply: Reply, kind: Kind, writes: Option<nat>) {
    sent == [] && reply == Returned(Result(false, kind, OtherError, writes, [], None))
  }

  /** Chunks 1, 2, .. of `total` in order, each but the last accepted; the reply is complete or shows the refusal. */
  predicate ChunkTrace(sent: seq<Sent>, total: nat, reply: Reply) {
    && 0 < |sent| <= total
    && (forall i | 0 <= i < |sent| :: sent[i].call == ChunkCall(i + 1, total))
    && (forall i | 0 <= i < |sent| - 1 :: sent[i].answer.Accepted?)
    && var last := sent[|sent| - 1].answer;
       match reply
       case RateLimited => last.TooManyRequests?
       case Returned(r) =>
         && r.writes == Some(|sent|) && r.failedPart.None? && r.kind == NoKind
         && if r.ok then
              && |sent| == total && last.Accepted? && |r.ids| == total
              && forall i | 0 <= i < total :: r.ids[i] == IdOf(sent[i].answer)
            else last.Refused? && r.error == last.kept && r.ids == []
  }

  /** A refusal after which no further format is tried, if ambiguous errors count as unknown. */
  predicate GivesUp(ambiguousIsUnknown: bool, a: Answer) {
    ambiguousIsUnknown && a.Refused? && a.kind == Transient && !a.cannotParse
  }

  /** How many formats the budget allows. */
  function Tries(variants: seq<Format>, limit: Option<nat>): nat {
    if limit.Some? && limit.value < |variants| then limit.value else |variants|
  }

  /** Formats in order until one is accepted, or ambiguously refused, or none is left to try. */
  predicate VariantTrace(sent: seq<Sent>, variants: seq<Format>, limit: Option<nat>, ambiguousIsUnknown: bool, reply: Reply) {
    && 0 < |sent| <= Tries(variants, limit)
    && (forall i | 0 <= i < |sent| :: sent[i].call == VariantCall(variants[i]))
    && (forall i | 0 <= i < |sent| - 1 :: sent[i].answer.Refused? && !GivesUp(ambiguousIsUnknown, sent[i].answer))
    && var last := sent[|sent| - 1].answer;
       match reply
       case RateLimited => last.TooManyRequests?
       case Returned(r) =>
         && r.writes == Some(|sent|) && r.failedPart.None?
         && if r.ok then last.Accepted? && r.ids == [IdOf(last)] && r.kind == NoKind
            else
              && last.Refused? && r.error == last.kept && r.ids == []
              && if GivesUp(ambiguousIsUnknown, last) then r.kind == DeliveryUnknown
                 else
                   && |sent| == Tries(variants, limit)
                   && r.kind == if Tries(variants, limit) < |variants| && !ambiguousIsUnknown then BudgetExhausted else NoKind
  }

  /** A message goes out in chunks or in one of its formats, or not at all when the budget cannot hold it. */
  predicate MessageTrace(sent: seq<Sent>, m: Message, limit: Option<nat>, ambiguousIsUnknown: bool, reply: Reply) {
    if limit == Some(0) || (IsSplit(m) && limit.Some? && Chunks(m) > limit.value) then NotSent(sent, reply, BudgetExhausted, Some(0))
    else if IsSplit(m) then ChunkTrace(sent, Chunks(m), reply)
    else VariantTrace(sent, Variants(m), limit, ambiguousIsUnknown, reply)
  }

  predicate FallbackTrace(sent: seq<Sent>, m: Message, single: bool, limit: Option<nat>, reply: Reply) {
    if single && m.singlePlain > TEXT_LIMIT then NotSent(sent, reply, TransportChanged, None)
    else MessageTrace(sent, m, limit, false, reply)
  }

  /** A refused rich message that may have arrived, or that another bot's missing access explains. */
  predicate StopsLadder(token: bool, kind: ErrorKind) { kind == Transient || (token && kind == BotAccess) }

  function Less(limit: Option<nat>): Option<nat> {
    if limit.None? then None else Some(if limit.value > 1 then limit.value - 1 else 0)
  }

  function PlusOne(reply: Reply): Reply {
    if reply.RateLimited? then reply else Returned(reply.result.(writes := Some(1 + Writes(reply.result))))
  }

  /** The rich attempt settles the matter, unless it is skipped or definitely refused with budget left: then the fallback goes out. */
  ghost predicate RichTrace(sent: seq<Sent>, p: Part, rich: bool, token: bool, single: bool, limit: Option<nat>, reply: Reply) {
    if limit == Some(0) then NotSent(sent, reply, BudgetExhausted, Some(0))
    else if !p.readable then NotSent(sent, reply, EmptyPlainText, None)
    else if !rich || !p.richFits then FallbackTrace(sent, p.fallback, single, limit, reply)
    else
      && sent != [] && sent[0].call == RichCall
      && match sent[0].answer
         case TooManyRequests => |sent| == 1 && reply.RateLimited?
         case Accepted(id) =>
           && |sent| == 1
           && reply == Returned(if id == "" || id == "0" then Result(false, DeliveryUnknown, OtherError, Some(1), [], None)
                                else Result(true, NoKind, OtherError, Some(1), [id], None))
         case Refused(kind, kept, _) =>
           if StopsLadder(token, kind) then |sent| == 1 && reply == Returned(Result(false, RichRefused(kind), kept, Some(1), [], None))
           else if limit == Some(1) then |sent| == 1 && reply == Returned(Result(false, BudgetExhausted, OtherError, Some(1), [], None))
           else exists r: Reply :: reply == PlusOne(r) && FallbackTrace(sent[1..], p.fallback, single, Less(limit), r)
  }

  /** The report is exact, except that two refusals decided without a call count one too many. */
  predicate Accounted(r: Result, calls: nat) {
    if r.kind == EmptyPlainText || r.kind == TransportChanged then Writes(r) == calls + 1 && !r.ok
    else r.writes == Some(calls)
  }

  class TelegramClient {
    const answers: nat -> Answer
    var log: seq<Sent>

    constructor (answers: nat -> Answer)
      ensures this.answers == answers && log == []
    {
      this.answers := answers;
      log := [];
    }

    method Api(call: Call) returns (a: Answer)
      modifies this`log
      ensures log == old(log) + [Sent(call, a)] && a == answers(|old(log)|)
    {
      a := answers(|log|);
      log := log + [Sent(call, a)];
    }

    method SendChunks(total: nat) returns (r: Reply)
      requires total > 0
      modifies this`log
      ensures old(log) <= log && ChunkTrace(log[|old(log)|..], total, r)
    {
      hide ChunkTrace, AllAccepted;
      var ids: seq<string> := [];
      ghost var sent: seq<Sent> := [];
      NoChunkSent(total);
      for i := 0 to total
        invariant log == old(log) + sent && log[|old(log)|..] == sent && |sent| == i
        invariant AllAccepted(sent, total, ids)
      {
        var a := Api(ChunkCall(i + 1, total));
        ghost var next := Sent(ChunkCall(i + 1, total), a);
        ChunkSent(sent, next, total, ids);
        LogGrows(old(log), sent, next);
        sent := sent + [next];
        if a.TooManyRequests? { return RateLimited; }
        if a.Refused? { return Returned(Result(false, NoKind, a.kept, Some(|ids| + 1), [], None)); }
        ids := ids + [if a.id == "" then "0" else a.id];
      }
      EveryChunkSent(sent, total, ids);
      return Returned(Result(true, NoKind, OtherError, Some(|ids|), ids, None));
    }

    method SendVariants(m: Message, limit: Option<nat>, ambiguousIsUnknown: bool) returns (r: Reply)
      requires limit != Some(0)
      modifies this`log
      ensures old(log) <= log && VariantTrace(log[|old(log)|..], Variants(m), limit, ambiguousIsUnknown, r)
    {
      hide VariantTrace, AllRefused, Variants, GivesUp, Tries;
      var variants := Variants(m);
      SomeTries(variants, limit);
      var attempted := if limit.Some? && limit.value < |variants| then limit.value else |variants|;
      var rejected := 0;
      var last := OtherError;
      ghost var sent: seq<Sent> := [];
      NoVariantTried(variants, ambiguousIsUnknown);
      for i := 0 to attempted
        invariant log == old(log) + sent && log[|old(log)|..] == sent && rejected == |sent| == i
        invariant AllRefused(sent, variants, ambiguousIsUnknown, last)
      {
        var a := Api(VariantCall(variants[i]));
        ghost var next := Sent(VariantCall(variants[i]), a);
        VariantTried(sent, next, variants, limit, ambiguousIsUnknown, last);
        LogGrows(old(log), sent, next);
        sent := sent + [next];
        if a.TooManyRequests? { return RateLimited; }
        if a.Accepted? {
          return Returned(Result(true, NoKind, OtherError, Some(rejected + 1), [if a.id == "" then "0" else a.id], None));
        }
        rejected := rejected + 1;
        last := a.kept;
        if ambiguousIsUnknown && a.kind == Transient && !a.cannotParse {
          return Returned(Result(false, DeliveryUnknown, last, Some(rejected), [], None));
        }
      }
      var exhausted := limit.Some? && attempted < |variants| && !ambiguousIsUnknown;
      NothingAccepted(sent, variants, limit, ambiguousIsUnknown, last);
      return Returned(Result(false, if exhausted then BudgetExhausted else NoKind, last, Some(rejected), [], None));
    }

    method SendMessage(m: Message, max: Option<int>, ambiguousIsUnknown: bool) returns (r: Reply)
      modifies this`log
      ensures old(log) <= log && MessageTrace(log[|old(log)|..], m, Allowance(max), ambiguousIsUnknown, r)
    {
      hide ChunkTrace, VariantTrace, TextSpansFrom, Tiles;
      var limit := Allowance(max);
      if limit == Some(0) {
        assert log[|old(log)|..] == [];
        return Returned(Result(false, BudgetExhausted, OtherError, Some(0), [], None));
      }
      if |m.source| > TEXT_LIMIT && m.plain != "" {
        SplitHasChunks(m);
        var chunks := SplitTextSpans(m.plain, SPLIT_LIMIT);
        if limit.Some? && |chunks.value| > limit.value {
          assert log[|old(log)|..] == [];
          return Returned(Result(false, BudgetExhausted, OtherError, Some(0), [], None));
        }
        r := SendChunks(|chunks.value|);
      } else {
        r := SendVariants(m, limit, ambiguousIsUnknown);
      }
    }

    method FallbackSend(p: Part, requireSingle: bool, max: Option<nat>) returns (r: Reply)
      requires max != Some(0)
      modifies this`log
      ensures old(log) <= log && FallbackTrace(log[|old(log)|..], p.fallback, requireSingle, max, r)
    {
      hide MessageTrace;
      if requireSingle && p.fallback.singlePlain > TEXT_LIMIT {
        assert log[|old(log)|..] == [];
        return Returned(Result(false, TransportChanged, OtherError, None, [], None));
      }
      r := SendMessage(p.fallback, if max.Some? then Some(max.value) else None, false);
    }

    /** `rich` says that rich messages are enabled, `token` that another bot's token is used. */
    method SendRichMessage(p: Part, rich: bool, token: bool, requireSingle: bool, max: Option<int>) returns (r: Reply)
      modifies this`log
      ensures old(log) <= log && RichTrace(log[|old(log)|..], p, rich, token, requireSingle, Allowance(max), r)
    {
      hide FallbackTrace;
      var allowance := Allowance(max);
      if allowance == Some(0) {
        assert log[|old(log)|..] == [];
        return Returned(Result(false, BudgetExhausted, OtherError, Some(0), [], None));
      }
      if !p.readable {
        assert log[|old(log)|..] == [];
        return Returned(Result(false, EmptyPlainText, OtherError, None, [], None));
      }
      if !rich || !p.richFits {
        r := FallbackSend(p, requireSingle, allowance);
        return;
      }
      var a := Api(RichCall);
      assert log[|old(log)|..] == [Sent(RichCall, a)];
      if a.TooManyRequests? { return RateLimited; }
      if a.Refused? {
        if a.kind == Transient || (token && a.kind == BotAccess) {
          return Returned(Result(false, RichRefused(a.kind), a.kept, Some(1), [], None));
        }
        var remaining: Option<nat> := if allowance.None? then None else Some(if allowance.value > 1 then allowance.value - 1 else 0);
        if remaining == Some(0) { return Returned(Result(false, BudgetExhausted, OtherError, Some(1), [], None)); }
        ghost var sent := log;
        r := FallbackSend(p, requireSingle, remaining);
        assert log[|old(log)|..][1..] == log[|sent|..];
        ghost var fallback := r;
        if r.Returned? { r := Returned(r.result.(writes := Some(1 + Writes(r.result)))); }
        assert r == PlusOne(fallback);
        return;
      }
      var id := if a.id == "0" then "" else a.id;
      if id == "" { return Returned(Result(false, DeliveryUnknown, OtherError, Some(1), [], None)); }
      return Returned(Result(true, NoKind, OtherError, Some(1), [id], None));
    }
  }

  // ----- the loops ------------------------------------------------------------------------

  /** These chunks were sent in order and accepted, with these ids. */
  predicate AllAccepted(sent: seq<Sent>, total: nat, ids: seq<string>) {
    && |sent| <= total && |ids| == |sent|
    && forall i | 0 <= i < |sent| :: sent[i].call == ChunkCall(i + 1, total) && sent[i].answer.Accepted? && ids[i] == IdOf(sent[i].answer)
  }

  lemma NoChunkSent(total: nat)
    ensures AllAccepted([], total, [])
  {
  }

  lemma ChunkSent(sent: seq<Sent>, next: Sent, total: nat, ids: seq<string>)
    requires AllAccepted(sent, total, ids) && |sent| < total && next.call == ChunkCall(|sent| + 1, total)
    ensures |ids| == |sent|
    ensures match next.answer
            case TooManyRequests => ChunkTrace(sent + [next], total, RateLimited)
            case Refused(_, kept, _) => ChunkTrace(sent + [next], total, Returned(Result(false, NoKind, kept, Some(|sent| + 1), [], None)))
            case Accepted(_) => AllAccepted(sent + [next], total, ids + [IdOf(next.answer)])
  {
  }

  lemma EveryChunkSent(sent: seq<Sent>, total: nat, ids: seq<string>)
    requires AllAccepted(sent, total, ids) && |sent| == total > 0
    ensures ChunkTrace(sent, total, Returned(Result(true, NoKind, OtherError, Some(|ids|), ids, None)))
  {
  }

  lemma SomeTries(variants: seq<Format>, limit: Option<nat>)
    ensures Tries(variants, limit) == (if limit.Some? && limit.value < |variants| then limit.value else |variants|)
  {
  }

  /** These formats were tried in order and refused, the last one with this error, and none ambiguously. */
  predicate AllRefused(sent: seq<Sent>, variants: seq<Format>, ambiguousIsUnknown: bool, last: ErrorKind) {
    && |sent| <= |variants|
    && (forall i | 0 <= i < |sent| ::
          sent[i].call == VariantCall(variants[i]) && sent[i].answer.Refused? && !GivesUp(ambiguousIsUnknown, sent[i].answer))
    && (sent != [] ==> sent[|sent| - 1].answer.kept == last)
  }

  lemma NoVariantTried(variants: seq<Format>, ambiguousIsUnknown: bool)
    ensures forall last: ErrorKind :: AllRefused([], variants, ambiguousIsUnknown, last)
  {
  }

  lemma VariantTried(sent: seq<Sent>, next: Sent, variants: seq<Format>, limit: Option<nat>, ambiguousIsUnknown: bool, last: ErrorKind)
    requires AllRefused(sent, variants, ambiguousIsUnknown, last) && |sent| < Tries(variants, limit)
    requires next.call == VariantCall(variants[|sent|])
    ensures var all, n := sent + [next], |sent| + 1;
      match next.answer
      case TooManyRequests => VariantTrace(all, variants, limit, ambiguousIsUnknown, RateLimited)
      case Accepted(_) =>
        VariantTrace(all, variants, limit, ambiguousIsUnknown, Returned(Result(true, NoKind, OtherError, Some(n), [IdOf(next.answer)], None)))
      case Refused(kind, kept, cannotParse) =>
        if ambiguousIsUnknown && kind == Transient && !cannotParse then
          VariantTrace(all, variants, limit, ambiguousIsUnknown, Returned(Result(false, DeliveryUnknown, kept, Some(n), [], None)))
        else AllRefused(all, variants, ambiguousIsUnknown, kept)
  {
  }

  lemma NothingAccepted(sent: seq<Sent>, variants: seq<Format>, limit: Option<nat>, ambiguousIsUnknown: bool, last: ErrorKind)
    requires AllRefused(sent, variants, ambiguousIsUnknown, last) && |sent| == Tries(variants, limit) > 0
    ensures var kind := if |sent| < |variants| && !ambiguousIsUnknown then BudgetExhausted else NoKind;
      VariantTrace(sent, variants, limit, ambiguousIsUnknown, Returned(Result(false, kind, last, Some(|sent|), [], None)))
  {
  }

  lemma LogGrows(before: seq<Sent>, sent: seq<Sent>, next: Sent)
    ensures before + sent + [next] == before + (sent + [next]) && (before + (sent + [next]))[|before|..] == sent + [next]
  {
  }

  lemma SplitHasChunks(m: Message)
    ensures IsSplit(m) ==> Chunks(m) > 0
  {
  }

  // ----- what a reply can be relied on for ------------------------------------------------------

  /** The report counts the calls, stays within the allowance, and is accepted exactly if it has ids. */
  predicate Reliable(r: Result, sent: seq<Sent>, limit: Option<nat>) {
    && Accounted(r, |sent|) && ShowsError(r, sent) && Covers(Writes(r), limit) && r.failedPart.None?
    && (r.ok <==> r.ids != []) && (r.ok ==> sent != [])
  }

  lemma MessageIsReliable(sent: seq<Sent>, m: Message, limit: Option<nat>, ambiguousIsUnknown: bool, reply: Reply)
    requires MessageTrace(sent, m, limit, ambiguousIsUnknown, reply)
    ensures reply.Returned? ==> Reliable(reply.result, sent, limit)
  {
    hide TextSpansFrom, Variants;
  }

  lemma FallbackIsReliable(sent: seq<Sent>, m: Message, single: bool, limit: Option<nat>, reply: Reply)
    requires FallbackTrace(sent, m, single, limit, reply) && limit != Some(0)
    ensures reply.Returned? ==> Reliable(reply.result, sent, limit)
  {
    if !(single && m.singlePlain > TEXT_LIMIT) { MessageIsReliable(sent, m, limit, false, reply); }
    hide MessageTrace;
  }

  /** Through the whole ladder the report is exact but for two refusals made without a call, and never above the allowance. */
  lemma RichIsReliable(sent: seq<Sent>, p: Part, rich: bool, token: bool, single: bool, limit: Option<nat>, reply: Reply)
    requires RichTrace(sent, p, rich, token, single, limit, reply)
    ensures reply.Returned? ==> Reliable(reply.result, sent, limit)
  {
    hide FallbackTrace;
    if limit != Some(0) && p.readable {
      if !rich || !p.richFits {
        FallbackIsReliable(sent, p.fallback, single, limit, reply);
      } else if sent[0].answer.Refused? && !StopsLadder(token, sent[0].answer.kind) && limit != Some(1) {
        var r: Reply :| reply == PlusOne(r) && FallbackTrace(sent[1..], p.fallback, single, Less(limit), r);
        FallbackIsReliable(sent[1..], p.fallback, single, Less(limit), r);
      }
    }
  }

  /** Nothing is sent after a rich message that may have arrived: its refusal is the whole reply. */
  lemma AmbiguousRichEndsSend(sent: seq<Sent>, p: Part, rich: bool, token: bool, single: bool, limit: Option<nat>, reply: Reply)
    requires RichTrace(sent, p, rich, token, single, limit, reply)
    requires sent != [] && sent[0].call == RichCall && sent[0].answer.Refused?
    requires sent[0].answer.kind == Transient || (token && sent[0].answer.kind == BotAccess)
    ensures |sent| == 1 && reply.Returned? && !reply.result.ok && reply.result.kind == RichRefused(sent[0].answer.kind)
  {
    hide TextSpansFrom, Variants;
  }

  /** Any other refusal of a rich message is followed by the fallback, if the budget holds it. */
  lemma RefusedRichFallsBack(sent: seq<Sent>, p: Part, rich: bool, token: bool, single: bool, limit: Option<nat>, reply: Reply)
    requires RichTrace(sent, p, rich, token, single, limit, reply)
    requires sent != [] && sent[0].call == RichCall && sent[0].answer.Refused?
    requires sent[0].answer.kind != Transient && !(token && sent[0].answer.kind == BotAccess)
    requires !(single && p.fallback.singlePlain > TEXT_LIMIT)
    requires limit.Some? ==> limit.value >= 2 && (IsSplit(p.fallback) ==> limit.value > Chunks(p.fallback))
    ensures |sent| >= 2
  {
    hide TextSpansFrom, Variants;
  }

  /** Outside a split message, nothing is sent after an accepted call; and nothing ever after a rate limit. */
  lemma AcceptedEndsSend(sent: seq<Sent>, p: Part, rich: bool, token: bool, single: bool, limit: Option<nat>, reply: Reply, i: nat)
    requires RichTrace(sent, p, rich, token, single, limit, reply) && i + 1 < |sent|
    ensures sent[i].answer.Refused? || (sent[i].answer.Accepted? && sent[i].call.ChunkCall?)
  {
    hide TextSpansFrom, Variants;
    if rich && p.richFits && i > 0 {
      var r: Reply :| reply == PlusOne(r) && FallbackTrace(sent[1..], p.fallback, single, Less(limit), r);
      assert sent[1..][i - 1] == sent[i];
    }
  }

  /** The plain text comes last, and only if it differs; a blockquote is flattened before it. */
  lemma FormatsInOrder(m: Message)
    ensures var v := Variants(m);
      && v[0] == Html && (forall i, j | 0 <= i < j < |v| :: v[i] != v[j])
      && (m.plainDiffers <==> PlainText in v) && (m.expandable <==> HtmlNoExpandable in v)
      && (m.plainDiffers ==> v[|v| - 1] == PlainText)
  {
  }
}
