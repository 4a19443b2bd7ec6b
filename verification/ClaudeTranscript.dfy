/**
  The Claude transcript parser: which turn a reply belongs to, and why, unlike its
  siblings, it cannot be restarted at every line its tail reader may start from.
 */
module ClaudeTranscript {
  import opened Options
  import opened Chars
  import TailWindow

  /** A line that is valid JSON; texts are extracted and stripped. */
  datatype Event =
    | User(uuid: string, text: string, interrupt: bool, pendingDecision: bool, isInternal: bool, compact: bool, at: string)
    | Assistant(model: string, apiError: bool, text: string, endTurn: bool, steps: seq<string>, at: string)
    | Other

  datatype Config = Config(
    clean: string -> string, decisions: bool, worklog: bool, maxLines: nat, render: seq<string> -> string, shown: nat)

  datatype Turn = Turn(promptId: string, user: string, final: string, done: bool, completedAt: string, worklog: string)

  datatype State = State(
    user: string, uuid: string, omitted: bool, consumed: string, incomplete: bool, apiError: Option<Event>,
    stream: string, streamAt: string, model: string, parts: seq<string>)

  datatype Outcome = Outcome(state: State, turns: seq<Turn>)

  const INIT: State := State("", "", false, "", false, None, "", "", "", [])

  const INTERRUPTED := "(interrupted)"

  // ----- one event ---------------------------------------------------------------------

  predicate Real(e: Event) { e.User? && !e.interrupt && e.text != "" && !e.isInternal && !e.compact }

  /** Everything but identity of the last answered prompt and the model is dropped. */
  function Opened(s: State, user: string, uuid: string, omitted: bool, incomplete: bool, apiError: Option<Event>): State {
    State(user, uuid, omitted, s.consumed, incomplete, apiError, "", "", s.model, [])
  }

  predicate Armed(s: State) { s.user != "" && s.uuid != s.consumed }

  function Log(c: Config, s: State): string { if c.worklog && s.parts != [] then c.render(s.parts) else "" }

  function OnInterrupt(c: Config, o: Outcome, e: Event): Outcome
    requires e.User?
  {
    var s := o.state;
    if c.decisions && e.pendingDecision then o
    else
      var text := c.clean(s.stream);
      var turn := Turn(s.uuid, s.user, if text != "" then text else INTERRUPTED, false, e.at, Log(c, s));
      var open := s.uuid != "" && s.uuid != s.consumed;
      Outcome(Opened(if open then s.(consumed := s.uuid) else s, "", "", false, false, None),
              if open then o.turns + [turn] else o.turns)
  }

  function OnUser(c: Config, o: Outcome, e: Event): Outcome
    requires e.User?
  {
    var s := o.state;
    if e.interrupt then OnInterrupt(c, o, e)
    else if Real(e) then o.(state := Opened(s, c.clean(e.text), e.uuid, false, true, None))
    else if Armed(s) then o
    else o.(state := Opened(s, "", e.uuid, e.compact, true, s.apiError))
  }

  function Trim(parts: seq<string>, n: nat): seq<string> { if |parts| > n then parts[|parts| - n..] else parts }

  /** Consecutive completions of one prompt replace each other. */
  function Coalesce(turns: seq<Turn>, t: Turn): seq<Turn> {
    if turns != [] && turns[|turns| - 1].promptId == t.promptId then turns[..|turns| - 1] + [t] else turns + [t]
  }

  /** The turn an end-turn makes of the pending prompt. */
  function Reply(c: Config, s: State, e: Event): Turn
    requires e.Assistant?
  { Turn(s.uuid, s.user, c.clean(e.text), true, e.at, Log(c, s)) }

  /** An end-turn answers the pending prompt; a record without public prompt completes nothing. */
  function OnEndTurn(c: Config, o: Outcome, e: Event): Outcome
    requires e.Assistant?
  {
    var s := o.state;
    Outcome(s.(consumed := s.uuid, incomplete := false, omitted := false, apiError := None, stream := "", streamAt := ""),
            if s.user != "" || s.omitted then Coalesce(o.turns, Reply(c, s, e)) else o.turns)
  }

  function OnProgress(c: Config, s: State, e: Event): State
    requires e.Assistant?
  {
    var parts := if c.worklog then Trim(s.parts + e.steps, c.maxLines) else s.parts;
    var streamed := e.text != "" && s.incomplete;
    s.(parts := parts, stream := if streamed then c.clean(e.text) else s.stream,
       streamAt := if streamed then e.at else s.streamAt)
  }

  function Modelled(s: State, e: Event): State
    requires e.Assistant?
  { if e.model != "" && !SameNoCase(e.model, "<synthetic>") then s.(model := e.model) else s }

  function OnAssistant(c: Config, o: Outcome, e: Event): Outcome
    requires e.Assistant?
  {
    var s := Modelled(o.state, e);
    if e.apiError then Outcome(s.(apiError := Some(e)), o.turns)
    else if e.text != "" && e.endTurn && s.uuid != "" then OnEndTurn(c, Outcome(s, o.turns), e)
    else if s.user != "" then Outcome(OnProgress(c, s, e), o.turns)
    else Outcome(s, o.turns)
  }

  function Step(c: Config, o: Outcome, e: Event): Outcome {
    match e
    case User(_, _, _, _, _, _, _) => OnUser(c, o, e)
    case Assistant(_, _, _, _, _, _) => OnAssistant(c, o, e)
    case Other => o
  }

  function Run(c: Config, o: Outcome, events: seq<Event>): Outcome {
    if events == [] then o else Step(c, Run(c, o, events[..|events| - 1]), events[|events| - 1])
  }

  /** The parser's working state, updated event by event. */
  class ClaudeParser {
    const c: Config
    var s: State
    var completed: seq<Turn>

    function View(): Outcome
      reads this
    { Outcome(s, completed) }

    constructor (c: Config)
      ensures this.c == c && View() == Outcome(INIT, [])
    {
      this.c := c;
      s, completed := INIT, [];
    }

    method DropOpenTurn()
      modifies this`s
      ensures s == Opened(old(s), "", "", false, false, None)
    {
      s := s.(user := "", uuid := "", omitted := false, incomplete := false, apiError := None);
      s := s.(stream := "", streamAt := "", parts := []);
    }

    method Interrupt(e: Event)
      requires e.User?
      modifies this
      ensures View() == OnInterrupt(c, old(View()), e)
    {
      if c.decisions && e.pendingDecision { return; }
      if s.uuid != "" && s.uuid != s.consumed {
        var final := c.clean(s.stream);
        if final == "" { final := INTERRUPTED; }
        completed := completed + [Turn(s.uuid, s.user, final, false, e.at, Log(c, s))];
        s := s.(consumed := s.uuid);
      }
      DropOpenTurn();
    }

    method UserEvent(e: Event)
      requires e.User?
      modifies this
      ensures View() == OnUser(c, old(View()), e)
    {
      if e.interrupt {
        Interrupt(e);
      } else if e.text != "" && !e.isInternal && !e.compact {
        DropOpenTurn();
        s := s.(user := c.clean(e.text), uuid := e.uuid, incomplete := true);
      } else {
        var armed := s.user != "" && s.uuid != s.consumed;
        if !armed {
          s := s.(user := "", uuid := e.uuid, omitted := e.compact, incomplete := true);
          s := s.(stream := "", streamAt := "", parts := []);
        }
      }
    }

    method Complete(turn: Turn)
      modifies this`completed
      ensures completed == Coalesce(old(completed), turn)
    {
      if completed != [] && completed[|completed| - 1].promptId == turn.promptId {
        completed := completed[|completed| - 1 := turn];
      } else {
        completed := completed + [turn];
      }
    }

    method EndTurnEvent(e: Event)
      requires e.Assistant?
      modifies this
      ensures View() == OnEndTurn(c, old(View()), e)
    {
      if s.user != "" || s.omitted { Complete(Reply(c, s, e)); }
      s := s.(consumed := s.uuid, incomplete := false, omitted := false, apiError := None);
      s := s.(stream := "", streamAt := "");
    }

    method ProgressEvent(e: Event)
      requires e.Assistant?
      modifies this`s
      ensures s == OnProgress(c, old(s), e)
    {
      if c.worklog {
        s := s.(parts := s.parts + e.steps);
        if |s.parts| > c.maxLines { s := s.(parts := s.parts[|s.parts| - c.maxLines..]); }
      }
      if e.text != "" && s.incomplete { s := s.(stream := c.clean(e.text), streamAt := e.at); }
    }

    method AssistantEvent(e: Event)
      requires e.Assistant?
      modifies this
      ensures View() == OnAssistant(c, old(View()), e)
    {
      hide OnEndTurn, OnProgress;
      if e.model != "" && !SameNoCase(e.model, "<synthetic>") { s := s.(model := e.model); }
      if e.apiError {
        s := s.(apiError := Some(e));
        return;
      }
      if e.text != "" && e.endTurn && s.uuid != "" {
        EndTurnEvent(e);
      } else if s.user != "" {
        ProgressEvent(e);
      }
    }

    /** The loop over the parsed lines. */
    method Extract(events: seq<Event>)
      modifies this
      ensures View() == Run(c, old(View()), events)
    {
      hide OnUser, OnAssistant;
      assert events[..0] == [];
      for i := 0 to |events|
        invariant View() == Run(c, old(View()), events[..i])
      {
        assert events[..i + 1][..i] == events[..i];
        if events[i].User? { UserEvent(events[i]); }
        if events[i].Assistant? { AssistantEvent(events[i]); }
      }
      assert events[..|events|] == events;
    }
  }

  // ----- identity ---------------------------------------------------------------------------

  /** Every user event has its own nonempty uuid. */
  ghost predicate DistinctUuids(events: seq<Event>) {
    && (forall i | 0 <= i < |events| && events[i].User? :: events[i].uuid != "")
    && (forall i, j | 0 <= i < j < |events| && events[i].User? && events[j].User? :: events[i].uuid != events[j].uuid)
  }

  /** `at` is the user event with this uuid. */
  predicate Names(events: seq<Event>, at: nat, uuid: string) { at < |events| && events[at].User? && events[at].uuid == uuid }

  /** The completed turns belong to the user events at `owners`, in strictly increasing order. */
  ghost predicate Owned(events: seq<Event>, turns: seq<Turn>, owners: seq<nat>) {
    && |owners| == |turns|
    && (forall k | 0 <= k < |turns| :: Names(events, owners[k], turns[k].promptId))
    && (forall k, l | 0 <= k < l < |owners| :: owners[k] < owners[l])
  }

  /** A completion as `done` has a prompt, or belongs to a compaction summary. */
  ghost predicate Prompted(events: seq<Event>, turns: seq<Turn>, owners: seq<nat>) {
    |owners| == |turns| && forall k | 0 <= k < |turns| && turns[k].done ::
      turns[k].user != "" || (owners[k] < |events| && events[owners[k]].User? && events[owners[k]].compact)
  }

  /**
    The pending prompt, if any, is the user event at `p`, no completed turn belongs
    to a later one, and a turn that belongs to it has consumed it.
   */
  ghost predicate PendingAt(events: seq<Event>, o: Outcome, owners: seq<nat>, p: nat) {
    && (o.state.uuid != "" ==> Names(events, p, o.state.uuid))
    && (o.state.omitted ==> o.state.uuid != "" && p < |events| && events[p].User? && events[p].compact)
    && (o.state.uuid != "" && owners != [] ==>
          owners[|owners| - 1] <= p && (owners[|owners| - 1] == p ==> o.state.consumed == o.state.uuid))
  }

  ghost predicate Invariant(events: seq<Event>, o: Outcome, owners: seq<nat>, p: nat) {
    Owned(events, o.turns, owners) && Prompted(events, o.turns, owners) && PendingAt(events, o, owners, p)
  }

  lemma Grows(events: seq<Event>, e: Event, o: Outcome, owners: seq<nat>, p: nat)
    requires Invariant(events, o, owners, p)
    ensures Invariant(events + [e], o, owners, p)
  {
  }

  lemma OwnersBelow(events: seq<Event>, turns: seq<Turn>, owners: seq<nat>)
    requires Owned(events, turns, owners)
    ensures forall k | 0 <= k < |owners| :: owners[k] < |events|
  {
    forall k | 0 <= k < |owners| ensures owners[k] < |events| { assert Names(events, owners[k], turns[k].promptId); }
  }

  /** A completion of the pending prompt extends the owners, or replaces the last turn. */
  lemma CompletionStep(events: seq<Event>, o: Outcome, owners: seq<nat>, p: nat, t: Turn) returns (owners': seq<nat>)
    requires DistinctUuids(events) && Invariant(events, o, owners, p)
    requires o.state.uuid != "" && t.promptId == o.state.uuid && (t.done ==> t.user != "" || o.state.omitted)
    ensures Owned(events, Coalesce(o.turns, t), owners') && Prompted(events, Coalesce(o.turns, t), owners')
    ensures owners' != [] && owners'[|owners'| - 1] == p
    ensures o.state.uuid != o.state.consumed ==> Coalesce(o.turns, t) == o.turns + [t]
  {
    var n := |owners|;
    if n > 0 && owners[n - 1] == p {
      assert Names(events, p, o.turns[n - 1].promptId);
      owners' := owners;
    } else {
      if n > 0 { assert Names(events, owners[n - 1], o.turns[n - 1].promptId); }
      owners' := owners + [p];
    }
  }

  lemma UserStep(c: Config, events: seq<Event>, e: Event, o: Outcome, owners: seq<nat>, p: nat) returns (owners': seq<nat>, p': nat)
    requires DistinctUuids(events + [e]) && Invariant(events, o, owners, p) && e.User?
    ensures Invariant(events + [e], OnUser(c, o, e), owners', p')
  {
    Grows(events, e, o, owners, p);
    OwnersBelow(events, o.turns, owners);
    owners', p' := owners, p;
    var o' := OnUser(c, o, e);
    if e.interrupt {
      if o'.turns != o.turns {
        var t := o'.turns[|o.turns|];
        owners' := CompletionStep(events + [e], o, owners, p, t);
      }
    } else if o'.state.uuid == e.uuid {
      p' := |events|;
    }
  }

  lemma EndTurnStep(c: Config, events: seq<Event>, e: Event, o: Outcome, owners: seq<nat>, p: nat) returns (owners': seq<nat>)
    requires DistinctUuids(events) && Invariant(events, o, owners, p) && e.Assistant? && o.state.uuid != ""
    ensures Invariant(events, OnEndTurn(c, o, e), owners', p)
  {
    var s := o.state;
    owners' := owners;
    if s.user != "" || s.omitted {
      var t := Reply(c, s, e);
      owners' := CompletionStep(events, o, owners, p, t);
      assert OnEndTurn(c, o, e).turns == Coalesce(o.turns, t);
      hide Coalesce, Owned, Prompted;
      assert PendingAt(events, OnEndTurn(c, o, e), owners', p);
    }
  }

  /** Identity does not depend on the model, the stream or the worklog. */
  lemma SameIdentity(events: seq<Event>, o: Outcome, o': Outcome, owners: seq<nat>, p: nat)
    requires Invariant(events, o, owners, p) && o'.turns == o.turns
    requires o'.state.uuid == o.state.uuid && o'.state.omitted == o.state.omitted && o'.state.consumed == o.state.consumed
    ensures Invariant(events, o', owners, p)
  {
  }

  lemma AssistantStep(c: Config, events: seq<Event>, e: Event, o: Outcome, owners: seq<nat>, p: nat) returns (owners': seq<nat>)
    requires DistinctUuids(events + [e]) && Invariant(events, o, owners, p) && e.Assistant?
    ensures Invariant(events + [e], OnAssistant(c, o, e), owners', p)
  {
    hide Invariant, DistinctUuids, OnEndTurn;
    Grows(events, e, o, owners, p);
    owners' := owners;
    var x := o.(state := Modelled(o.state, e));
    SameIdentity(events + [e], o, x, owners, p);
    if !e.apiError && e.text != "" && e.endTurn && x.state.uuid != "" {
      owners' := EndTurnStep(c, events + [e], e, x, owners, p);
    } else {
      SameIdentity(events + [e], x, OnAssistant(c, o, e), owners, p);
    }
  }

  lemma DistinctPrefix(events: seq<Event>, n: nat)
    requires DistinctUuids(events) && n <= |events|
    ensures DistinctUuids(events[..n])
  {
  }

  lemma {:induction false} RunKeepsIdentity(c: Config, events: seq<Event>) returns (owners: seq<nat>, p: nat)
    requires DistinctUuids(events)
    ensures Invariant(events, Run(c, Outcome(INIT, []), events), owners, p)
  {
    if events == [] {
      owners, p := [], 0;
    } else {
      var n := |events| - 1;
      var e := events[n];
      DistinctPrefix(events, n);
      owners, p := RunKeepsIdentity(c, events[..n]);
      var o := Run(c, Outcome(INIT, []), events[..n]);
      assert events[..n] + [e] == events;
      hide Invariant, OnUser, OnAssistant, DistinctUuids;
      if e.User? { owners, p := UserStep(c, events[..n], e, o, owners, p); }
      else if e.Assistant? { owners := AssistantStep(c, events[..n], e, o, owners, p); }
      else { Grows(events[..n], e, o, owners, p); }
    }
  }

  /**
    Turn identity: with distinct user uuids the completed turns belong to distinct
    user events, in the order of the log, and a turn completed as done has a
    nonempty prompt unless a compaction summary opened it.
   */
  lemma CompletedTurnsAreDistinctPrompts(c: Config, events: seq<Event>) returns (owners: seq<nat>)
    requires DistinctUuids(events)
    ensures var turns := Run(c, Outcome(INIT, []), events).turns;
      && Owned(events, turns, owners) && Prompted(events, turns, owners)
      && forall k, l | 0 <= k < l < |turns| :: turns[k].promptId != turns[l].promptId
  {
    var p;
    owners, p := RunKeepsIdentity(c, events);
    var turns := Run(c, Outcome(INIT, []), events).turns;
    hide Run;
    forall k, l | 0 <= k < l < |turns| ensures turns[k].promptId != turns[l].promptId {
      assert Names(events, owners[k], turns[k].promptId) && Names(events, owners[l], turns[l].promptId);
    }
  }

  // ----- completions of one prompt ---------------------------------------------------------------

  predicate EndTurn(e: Event) { e.Assistant? && !e.apiError && e.text != "" && e.endTurn }

  predicate Answered(c: Config, o: Outcome, e: Event, turns: seq<Turn>)
    requires EndTurn(e)
  {
    && turns != [] && turns == Coalesce(o.turns, turns[|turns| - 1])
    && turns[|turns| - 1].promptId == o.state.uuid && turns[|turns| - 1].final == c.clean(e.text)
  }

  lemma EndTurnEffect(c: Config, o: Outcome, e: Event)
    requires EndTurn(e) && o.state.uuid != ""
    ensures var o' := Step(c, o, e);
      && o'.state.uuid == o.state.uuid && o'.state.user == o.state.user && !o'.state.omitted
      && (if o.state.user == "" && !o.state.omitted then o'.turns == o.turns else Answered(c, o, e, o'.turns))
  {
  }

  /** Two end-turns in a row under a prompt are one turn, with the later reply. */
  lemma EndTurnsCoalesce(c: Config, o: Outcome, a: Event, b: Event)
    requires EndTurn(a) && EndTurn(b) && o.state.uuid != "" && o.state.user != ""
    ensures var once, twice := Step(c, o, a).turns, Step(c, Step(c, o, a), b).turns;
      && once != [] && |twice| == |once| && twice[..|once| - 1] == once[..|once| - 1]
      && twice[|once| - 1].promptId == o.state.uuid && twice[|once| - 1].final == c.clean(b.text)
  {
    hide Step;
    EndTurnEffect(c, o, a);
    EndTurnEffect(c, Step(c, o, a), b);
  }

  /** Under a compaction summary a second end-turn is dropped instead: its text is lost. */
  lemma CompactionDropsSecondReply(c: Config, o: Outcome, a: Event, b: Event)
    requires EndTurn(a) && EndTurn(b) && o.state.uuid != "" && o.state.user == "" && o.state.omitted
    ensures var once, twice := Step(c, o, a).turns, Step(c, Step(c, o, a), b).turns;
      twice == once && once != [] && once[|once| - 1].final == c.clean(a.text)
  {
    hide Step;
    EndTurnEffect(c, o, a);
    EndTurnEffect(c, Step(c, o, a), b);
  }

  // ----- synchronisation -------------------------------------------------------------------------------

  function Ids(events: seq<Event>): set<string> { set e | e in events && e.User? :: e.uuid }

  /** Every uuid the parser remembers comes from a user event. */
  ghost predicate Known(o: Outcome, ids: set<string>) {
    && (o.state.uuid == "" || o.state.uuid in ids) && (o.state.consumed == "" || o.state.consumed in ids)
    && forall t | t in o.turns :: t.promptId in ids
  }

  lemma KnownUser(c: Config, o: Outcome, e: Event, ids: set<string>)
    requires Known(o, ids) && e.User?
    ensures Known(OnUser(c, o, e), ids + {e.uuid})
  {
  }

  lemma KnownAssistant(c: Config, o: Outcome, e: Event, ids: set<string>)
    requires Known(o, ids) && e.Assistant?
    ensures Known(OnAssistant(c, o, e), ids)
  {
  }

  lemma KnownStep(c: Config, o: Outcome, e: Event, ids: set<string>)
    requires Known(o, ids)
    ensures Known(Step(c, o, e), ids + if e.User? then {e.uuid} else {})
  {
    hide OnUser, OnAssistant;
    if e.User? { KnownUser(c, o, e, ids); }
    if e.Assistant? { KnownAssistant(c, o, e, ids); }
  }

  lemma {:induction false} RunIsKnown(c: Config, events: seq<Event>)
    ensures Known(Run(c, Outcome(INIT, []), events), Ids(events))
  {
    if events != [] {
      var n := |events| - 1;
      RunIsKnown(c, events[..n]);
      KnownStep(c, Run(c, Outcome(INIT, []), events[..n]), events[n], Ids(events[..n]));
      assert events == events[..n] + [events[n]];
      assert Ids(events) == Ids(events[..n]) + if events[n].User? then {events[n].uuid} else {};
    }
  }

  predicate Fresh(events: seq<Event>, past: set<string>) {
    forall i | 0 <= i < |events| && events[i].User? :: events[i].uuid != "" && events[i].uuid !in past
  }

  /**
    Two parsers, one with a past whose uuids are `past`: the same pending prompt,
    none of it from the past, and the same turns since.
   */
  ghost predicate Agree(a: Outcome, b: Outcome, na: nat, past: set<string>) {
    && a.state == b.state.(consumed := a.state.consumed, model := a.state.model, apiError := a.state.apiError)
    && (a.state.uuid == "" ==> a.state.user == "") && a.state.uuid !in past
    && (a.state.consumed == b.state.consumed || (a.state.consumed in past && b.state.consumed == ""))
    && na <= |a.turns| && a.turns[na..] == b.turns && forall k | 0 <= k < na :: a.turns[k].promptId in past
  }

  lemma SameCompletion(a: Outcome, b: Outcome, na: nat, past: set<string>, t: Turn)
    requires Agree(a, b, na, past) && t.promptId !in past
    ensures na <= |Coalesce(a.turns, t)| && Coalesce(a.turns, t)[na..] == Coalesce(b.turns, t)
    ensures forall k | 0 <= k < na :: Coalesce(a.turns, t)[k].promptId in past
  {
    var n, m := |a.turns|, |b.turns|;
    if m > 0 {
      assert b.turns[m - 1] == a.turns[n - 1];
      assert b.turns[..m - 1] == a.turns[na..n - 1];
      assert (a.turns[..n - 1] + [t])[na..] == a.turns[na..n - 1] + [t];
    } else {
      assert n == na && (n > 0 ==> a.turns[n - 1].promptId in past);
    }
    assert (a.turns + [t])[na..] == a.turns[na..] + [t];
  }

  lemma AgreeOnInterrupt(c: Config, a: Outcome, b: Outcome, na: nat, past: set<string>, e: Event)
    requires Agree(a, b, na, past) && e.User? && "" !in past
    ensures Agree(OnInterrupt(c, a, e), OnInterrupt(c, b, e), na, past)
  {
    var x, y := OnInterrupt(c, a, e), OnInterrupt(c, b, e);
    if x.turns != a.turns {
      var t := x.turns[|a.turns|];
      assert x.turns == a.turns + [t] && y.turns == b.turns + [t];
      assert (a.turns + [t])[na..] == a.turns[na..] + [t];
    }
  }

  lemma AgreeOpened(a: Outcome, b: Outcome, na: nat, past: set<string>, user: string, uuid: string, omitted: bool)
    requires Agree(a, b, na, past) && uuid != "" && uuid !in past
    ensures Agree(a.(state := Opened(a.state, user, uuid, omitted, true, None)),
                  b.(state := Opened(b.state, user, uuid, omitted, true, None)), na, past)
    ensures Agree(a.(state := Opened(a.state, user, uuid, omitted, true, a.state.apiError)),
                  b.(state := Opened(b.state, user, uuid, omitted, true, b.state.apiError)), na, past)
  {
  }

  lemma AgreeArmed(a: Outcome, b: Outcome, na: nat, past: set<string>)
    requires Agree(a, b, na, past) && "" !in past
    ensures Armed(a.state) <==> Armed(b.state)
  {
  }

  lemma AgreeOnUser(c: Config, a: Outcome, b: Outcome, na: nat, past: set<string>, e: Event)
    requires Agree(a, b, na, past) && e.User? && e.uuid != "" && e.uuid !in past && "" !in past
    ensures Agree(OnUser(c, a, e), OnUser(c, b, e), na, past)
  {
    AgreeOnInterrupt(c, a, b, na, past, e);
    AgreeArmed(a, b, na, past);
    AgreeOpened(a, b, na, past, c.clean(e.text), e.uuid, false);
    AgreeOpened(a, b, na, past, "", e.uuid, e.compact);
    hide OnInterrupt, Agree, Opened, Armed;
  }

  lemma AgreeOnEndTurn(c: Config, a: Outcome, b: Outcome, na: nat, past: set<string>, e: Event)
    requires Agree(a, b, na, past) && e.Assistant? && a.state.uuid != ""
    ensures Agree(OnEndTurn(c, a, e), OnEndTurn(c, b, e), na, past)
  {
    SameCompletion(a, b, na, past, Reply(c, a.state, e));
    hide Coalesce;
  }

  lemma AgreeOnProgress(c: Config, a: Outcome, b: Outcome, na: nat, past: set<string>, e: Event)
    requires Agree(a, b, na, past) && e.Assistant?
    ensures Agree(a.(state := OnProgress(c, a.state, e)), b.(state := OnProgress(c, b.state, e)), na, past)
  {
  }

  lemma AgreeOnAssistant(c: Config, a: Outcome, b: Outcome, na: nat, past: set<string>, e: Event)
    requires Agree(a, b, na, past) && e.Assistant?
    ensures Agree(OnAssistant(c, a, e), OnAssistant(c, b, e), na, past)
  {
    var x, y := a.(state := Modelled(a.state, e)), b.(state := Modelled(b.state, e));
    assert Agree(x, y, na, past);
    if x.state.uuid != "" { AgreeOnEndTurn(c, x, y, na, past, e); }
    AgreeOnProgress(c, x, y, na, past, e);
    hide OnEndTurn, OnProgress;
  }

  lemma {:induction false} RunConcat(c: Config, o: Outcome, a: seq<Event>, b: seq<Event>)
    ensures Run(c, o, a + b) == Run(c, Run(c, o, a), b)
  {
    if b == [] {
      assert a + b == a;
    } else {
      var n := |b| - 1;
      assert (a + b)[..|a + b| - 1] == a + b[..n];
      RunConcat(c, o, a, b[..n]);
    }
  }

  lemma PastStep(c: Config, o: Outcome, e: Event, past: seq<Turn>)
    requires past <= o.turns && (|o.turns| > |past| || past == [] || past[|past| - 1].promptId != o.state.uuid)
    ensures past <= Step(c, o, e).turns
  {
  }

  lemma {:induction false} AgreeOnRun(c: Config, a: Outcome, b: Outcome, na: nat, past: set<string>, rest: seq<Event>)
    requires Agree(a, b, na, past) && "" !in past && Fresh(rest, past)
    ensures Agree(Run(c, a, rest), Run(c, b, rest), na, past) && a.turns[..na] <= Run(c, a, rest).turns
  {
    if rest != [] {
      var n := |rest| - 1;
      AgreeOnRun(c, a, b, na, past, rest[..n]);
      var x, y := Run(c, a, rest[..n]), Run(c, b, rest[..n]);
      if na > 0 { assert x.turns[na - 1] == a.turns[na - 1] && x.turns[na - 1].promptId in past; }
      PastStep(c, x, rest[n], a.turns[..na]);
      hide Agree, OnUser, OnAssistant;
      if rest[n].User? { AgreeOnUser(c, x, y, na, past, rest[n]); }
      else if rest[n].Assistant? { AgreeOnAssistant(c, x, y, na, past, rest[n]); }
    }
  }

  /** Once two parsers agree, the one with a past completes it and then what the other completes. */
  lemma AgreedTurns(c: Config, a: Outcome, b: Outcome, past: set<string>, rest: seq<Event>)
    requires Agree(a, b, |a.turns|, past) && "" !in past && Fresh(rest, past)
    ensures Run(c, a, rest).turns == a.turns + Run(c, b, rest).turns
  {
    AgreeOnRun(c, a, b, |a.turns|, past, rest);
    hide Run;
    var full := Run(c, a, rest).turns;
    assert a.turns[..|a.turns|] == a.turns;
    assert full == full[..|a.turns|] + full[|a.turns|..];
  }

  lemma PastIsDisjoint(before: seq<Event>, tail: seq<Event>)
    requires DistinctUuids(before + tail)
    ensures "" !in Ids(before) && Fresh(tail, Ids(before)) && DistinctUuids(before)
  {
    var all := before + tail;
    assert forall i | 0 <= i < |before| :: all[i] == before[i];
    forall i | 0 <= i < |tail| && tail[i].User? ensures tail[i].uuid != "" && tail[i].uuid !in Ids(before) {
      assert all[|before| + i] == tail[i];
    }
  }

  // ----- what the pending record means for a later turn ---------------------------------------------

  /** The state fields of a parser that holds no record. */
  predicate Blank(s: State) { s == INIT.(consumed := s.consumed, model := s.model, apiError := s.apiError) }

  /** An answered prompt is the last turn, an unanswered record owns no turn yet. */
  ghost predicate Shaped(o: Outcome) {
    && (o.state.uuid == "" ==> Blank(o.state))
    && (o.state.omitted ==> o.state.uuid != o.state.consumed && o.state.user == "")
    && (o.state.uuid != "" && o.state.uuid == o.state.consumed && o.state.user != "" ==>
          o.turns != [] && o.turns[|o.turns| - 1].promptId == o.state.uuid)
    && (o.state.uuid != "" && o.state.uuid != o.state.consumed ==> forall t | t in o.turns :: t.promptId != o.state.uuid)
  }

  lemma ShapedUser(c: Config, o: Outcome, e: Event, ids: set<string>)
    requires Shaped(o) && Known(o, ids) && e.User? && e.uuid != "" && e.uuid !in ids
    ensures Shaped(OnUser(c, o, e))
  {
  }

  lemma ShapedAssistant(c: Config, o: Outcome, e: Event)
    requires Shaped(o) && e.Assistant?
    ensures Shaped(OnAssistant(c, o, e))
  {
  }

  lemma {:induction false} RunIsShaped(c: Config, events: seq<Event>)
    requires DistinctUuids(events)
    ensures Shaped(Run(c, Outcome(INIT, []), events))
  {
    if events != [] {
      var n := |events| - 1;
      DistinctPrefix(events, n);
      RunIsShaped(c, events[..n]);
      RunIsKnown(c, events[..n]);
      var o := Run(c, Outcome(INIT, []), events[..n]);
      assert events[..n] + [events[n]] == events;
      PastIsDisjoint(events[..n], [events[n]]);
      assert [events[n]][0] == events[n];
      hide Shaped, Known, OnUser, OnAssistant, DistinctUuids;
      if events[n].User? { ShapedUser(c, o, events[n], Ids(events[..n])); }
      if events[n].Assistant? { ShapedAssistant(c, o, events[n]); }
    }
  }

  // ----- the gap before a tail takes over ---------------------------------------------------------------

  /** An interrupt marker that is not left to a pending decision. */
  predicate Counted(c: Config, e: Event) { e.User? && e.interrupt && !(c.decisions && e.pendingDecision) }

  /** A user record that replaces the pending one: a real prompt, an interrupt, or any other while none is armed. */
  predicate Takes(c: Config, armed: bool, e: Event) {
    Real(e) || Counted(c, e) || (e.User? && !e.interrupt && !armed)
  }

  /** The first record that replaces the pending one, or the end. */
  function GapEnd(c: Config, armed: bool, tail: seq<Event>): (k: nat)
    ensures k <= |tail| && (k < |tail| ==> Takes(c, armed, tail[k]))
    ensures forall i | 0 <= i < k :: !Takes(c, armed, tail[i])
  {
    if tail == [] || Takes(c, armed, tail[0]) then 0 else 1 + GapEnd(c, armed, tail[1..])
  }

  function LastReply(gap: seq<Event>): (k: Option<nat>)
    ensures k.Some? ==> k.value < |gap| && EndTurn(gap[k.value])
    ensures forall i | (if k.Some? then k.value + 1 else 0) <= i < |gap| :: !EndTurn(gap[i])
  {
    if gap == [] then None
    else if EndTurn(gap[|gap| - 1]) then Some(|gap| - 1) else LastReply(gap[..|gap| - 1])
  }

  /** The turn the last reply in a gap makes of the record pending before it. */
  function GapReply(c: Config, o: Outcome, gap: seq<Event>): Option<Turn> {
    var k := LastReply(gap);
    if k.None? then None else Some(Reply(c, Run(c, o, gap[..k.value]).state, gap[k.value]))
  }

  /**
    Whether a tail completes what the full read completes after `o`.  No record is
    pending; or it is answered, and the tail starts with no other reply to it; or it
    is open, and what comes first in the tail neither answers nor interrupts it.
   */
  predicate CutIsClean(c: Config, o: Outcome, tail: seq<Event>) {
    var s := o.state;
    var k := GapEnd(c, Armed(s), tail);
    var reply := GapReply(c, o, tail[..k]);
    || s.uuid == ""
    || if s.uuid == s.consumed then
         s.user == "" || reply.None?
         || (o.turns != [] && o.turns[|o.turns| - 1] == reply.value)
       else if reply.Some? then s.user == "" && !s.omitted
       else k < |tail| ==> !tail[k].interrupt
  }

  /** Before any reply both parsers stay as they are; without an armed prompt the fresh one stays blank. */
  ghost predicate Waiting(o: Outcome, a: Outcome, b: Outcome) {
    && a.turns == o.turns && a.state.uuid == o.state.uuid && a.state.user == o.state.user
    && a.state.omitted == o.state.omitted && a.state.consumed == o.state.consumed
    && b.turns == [] && b.state.consumed == "" && b.state.user == "" && (!Armed(o.state) ==> Blank(b.state))
  }

  lemma WaitingUser(c: Config, o: Outcome, a: Outcome, b: Outcome, e: Event)
    requires Waiting(o, a, b) && !Takes(c, Armed(o.state), e) && e.User?
    ensures Waiting(o, OnUser(c, a, e), OnUser(c, b, e))
  {
  }

  lemma WaitingAssistant(c: Config, o: Outcome, a: Outcome, b: Outcome, e: Event)
    requires Waiting(o, a, b) && !EndTurn(e) && e.Assistant?
    ensures Waiting(o, OnAssistant(c, a, e), OnAssistant(c, b, e))
  {
  }

  lemma WaitingStep(c: Config, o: Outcome, a: Outcome, b: Outcome, e: Event)
    requires Waiting(o, a, b) && !Takes(c, Armed(o.state), e) && !EndTurn(e)
    ensures Waiting(o, Step(c, a, e), Step(c, b, e))
  {
    hide OnUser, OnAssistant, Waiting, Takes, EndTurn;
    if e.User? { WaitingUser(c, o, a, b, e); }
    if e.Assistant? { WaitingAssistant(c, o, a, b, e); }
  }

  lemma {:induction false} QuietGap(c: Config, o: Outcome, gap: seq<Event>)
    requires forall i | 0 <= i < |gap| :: !Takes(c, Armed(o.state), gap[i]) && !EndTurn(gap[i])
    ensures Waiting(o, Run(c, o, gap), Run(c, Outcome(INIT, []), gap))
  {
    if gap != [] {
      var n := |gap| - 1;
      QuietGap(c, o, gap[..n]);
      hide Step, Waiting;
      WaitingStep(c, o, Run(c, o, gap[..n]), Run(c, Outcome(INIT, []), gap[..n]), gap[n]);
    }
  }

  /** Replies to a record that is answered already, or has no public prompt. */
  ghost predicate Replied(o: Outcome, a: Outcome, b: Outcome, reply: Option<Turn>) {
    && a.state.uuid == o.state.uuid && a.state.user == o.state.user && !a.state.omitted
    && a.state.consumed == (if reply.Some? then o.state.uuid else o.state.consumed)
    && a.turns == (if reply.Some? && o.state.user != "" && o.turns != [] then o.turns[..|o.turns| - 1] + [reply.value] else o.turns)
    && b.turns == [] && b.state.consumed == "" && Blank(b.state)
  }

  lemma RepliedAgain(c: Config, o: Outcome, a: Outcome, b: Outcome, reply: Option<Turn>, e: Event)
    requires Shaped(o) && o.state.uuid != "" && !Armed(o.state) && Replied(o, a, b, reply) && EndTurn(e)
    requires reply.Some? ==> reply.value.promptId == o.state.uuid
    ensures Replied(o, Step(c, a, e), Step(c, b, e), Some(Reply(c, a.state, e)))
  {
  }

  lemma RepliedNothing(c: Config, o: Outcome, a: Outcome, b: Outcome, reply: Option<Turn>, e: Event)
    requires Replied(o, a, b, reply) && !EndTurn(e) && !Takes(c, false, e)
    ensures Replied(o, Step(c, a, e), Step(c, b, e), reply)
  {
  }

  lemma RepliedStep(c: Config, o: Outcome, a: Outcome, b: Outcome, reply: Option<Turn>, e: Event)
    requires Shaped(o) && o.state.uuid != "" && !Armed(o.state) && Replied(o, a, b, reply)
    requires reply.Some? ==> reply.value.promptId == o.state.uuid
    requires !Takes(c, false, e)
    ensures Replied(o, Step(c, a, e), Step(c, b, e), if EndTurn(e) then Some(Reply(c, a.state, e)) else reply)
  {
    hide Step, Replied, Shaped, Takes, EndTurn;
    if EndTurn(e) { RepliedAgain(c, o, a, b, reply, e); } else { RepliedNothing(c, o, a, b, reply, e); }
  }

  lemma {:induction false} RepliedGap(c: Config, o: Outcome, gap: seq<Event>)
    requires Shaped(o) && o.state.uuid != "" && !Armed(o.state) && !o.state.omitted
    requires forall i | 0 <= i < |gap| :: !Takes(c, false, gap[i])
    ensures Replied(o, Run(c, o, gap), Run(c, Outcome(INIT, []), gap), GapReply(c, o, gap))
    ensures GapReply(c, o, gap).Some? ==> GapReply(c, o, gap).value.promptId == o.state.uuid
  {
    if gap != [] {
      var n := |gap| - 1;
      RepliedGap(c, o, gap[..n]);
      var k := LastReply(gap[..n]);
      if k.Some? { assert gap[..n][..k.value] == gap[..k.value]; }
      hide Step, Shaped;
      RepliedStep(c, o, Run(c, o, gap[..n]), Run(c, Outcome(INIT, []), gap[..n]), GapReply(c, o, gap[..n]), gap[n]);
    }
  }

  /** A record that takes over with nothing to complete brings the two parsers together. */
  lemma TakeoverAgrees(c: Config, a: Outcome, b: Outcome, e: Event, past: set<string>)
    requires Takes(c, Armed(a.state), e) && Known(a, past) && "" !in past && e.uuid != "" && e.uuid !in past
    requires b.turns == [] && b.state.consumed == "" && (Real(e) || Blank(b.state))
    requires e.interrupt ==> a.state.uuid == a.state.consumed || a.state.uuid == ""
    ensures Step(c, a, e).turns == a.turns && Agree(Step(c, a, e), Step(c, b, e), |a.turns|, past)
  {
  }

  lemma TakeoverTurns(c: Config, o: Outcome, tail: seq<Event>, k: nat, past: set<string>)
    requires k <= |tail| && "" !in past && Fresh(tail, past)
    requires var a, b := Run(c, o, tail[..k]), Run(c, Outcome(INIT, []), tail[..k]);
      && b.turns == [] && b.state.consumed == ""
      && (k < |tail| ==>
            && Takes(c, Armed(a.state), tail[k]) && Known(a, past) && (Real(tail[k]) || Blank(b.state))
            && (tail[k].interrupt ==> a.state.uuid == a.state.consumed || a.state.uuid == ""))
    ensures Run(c, o, tail).turns == Run(c, o, tail[..k]).turns + Run(c, Outcome(INIT, []), tail).turns
  {
    var a, b := Run(c, o, tail[..k]), Run(c, Outcome(INIT, []), tail[..k]);
    if k == |tail| {
      assert tail[..k] == tail;
    } else {
      TakeoverAgrees(c, a, b, tail[k], past);
      hide Known, Agree, Takes, Step;
      assert tail[..k + 1][..k] == tail[..k] && tail[..k + 1] + tail[k + 1..] == tail;
      RunConcat(c, o, tail[..k + 1], tail[k + 1..]);
      RunConcat(c, Outcome(INIT, []), tail[..k + 1], tail[k + 1..]);
      AgreedTurns(c, Step(c, a, tail[k]), Step(c, b, tail[k]), past, tail[k + 1..]);
    }
  }

  predicate Completed(turns: seq<Turn>, uuid: string) { exists k :: 0 <= k < |turns| && turns[k].promptId == uuid }

  lemma CompletedStep(c: Config, o: Outcome, e: Event, uuid: string)
    requires Completed(o.turns, uuid)
    ensures Completed(Step(c, o, e).turns, uuid)
  {
    var turns := Step(c, o, e).turns;
    var k :| 0 <= k < |o.turns| && o.turns[k].promptId == uuid;
    assert k < |turns| && turns[k].promptId == uuid;
  }

  lemma {:induction false} CompletedStays(c: Config, o: Outcome, events: seq<Event>, uuid: string)
    requires Completed(o.turns, uuid)
    ensures Completed(Run(c, o, events).turns, uuid)
  {
    if events != [] {
      CompletedStays(c, o, events[..|events| - 1], uuid);
      CompletedStep(c, Run(c, o, events[..|events| - 1]), events[|events| - 1], uuid);
    }
  }

  /** The record pending at the cut is completed in the tail: only the full read can name it. */
  lemma LostForTail(c: Config, o: Outcome, tail: seq<Event>, k: nat, past: set<string>)
    requires k <= |tail| && Completed(Run(c, o, tail[..k]).turns, o.state.uuid)
    requires o.state.uuid in past && Fresh(tail, past) && !Completed(o.turns, o.state.uuid)
    ensures Run(c, o, tail).turns != o.turns + Run(c, Outcome(INIT, []), tail).turns
  {
    assert tail[..k] + tail[k..] == tail;
    RunConcat(c, o, tail[..k], tail[k..]);
    CompletedStays(c, Run(c, o, tail[..k]), tail[k..], o.state.uuid);
    RunIsKnown(c, tail);
    var full, second := Run(c, o, tail).turns, Run(c, Outcome(INIT, []), tail).turns;
    hide Run;
    forall i | 0 <= i < |o.turns + second| ensures (o.turns + second)[i].promptId != o.state.uuid {
      if i < |o.turns| {
        assert (o.turns + second)[i] == o.turns[i];
      } else {
        assert (o.turns + second)[i] in second;
      }
    }
    assert !Completed(o.turns + second, o.state.uuid);
  }

  lemma {:induction false} FirstReply(gap: seq<Event>) returns (j: nat)
    requires LastReply(gap).Some?
    ensures j < |gap| && EndTurn(gap[j]) && forall i | 0 <= i < j :: !EndTurn(gap[i])
  {
    j := LastReply(gap).value;
    var k := LastReply(gap[..j]);
    if k.Some? { j := FirstReply(gap[..j]); }
  }

  lemma CutWithoutRecord(c: Config, o: Outcome, tail: seq<Event>, past: set<string>)
    requires Shaped(o) && Known(o, past) && "" !in past && Fresh(tail, past) && o.state.uuid == ""
    ensures Run(c, o, tail).turns == o.turns + Run(c, Outcome(INIT, []), tail).turns
  {
    forall k | 0 <= k < |o.turns| ensures o.turns[k].promptId in past { assert o.turns[k] in o.turns; }
    assert Agree(o, Outcome(INIT, []), |o.turns|, past);
    AgreedTurns(c, o, Outcome(INIT, []), past, tail);
  }

  lemma RepliedIsKnown(o: Outcome, a: Outcome, b: Outcome, reply: Option<Turn>, past: set<string>)
    requires Known(o, past) && Replied(o, a, b, reply) && o.state.uuid != ""
    requires reply.Some? ==> reply.value.promptId == o.state.uuid
    ensures Known(a, past)
  {
  }

  lemma TurnsAfterReply(c: Config, o: Outcome, tail: seq<Event>, past: set<string>)
    requires Shaped(o) && Known(o, past) && "" !in past && Fresh(tail, past) && o.state.uuid != ""
    requires !Armed(o.state) && !o.state.omitted
    requires var k := GapEnd(c, false, tail);
      o.state.uuid == o.state.consumed || LastReply(tail[..k]).Some? || (k < |tail| ==> !tail[k].interrupt)
    ensures var a := Run(c, o, tail[..GapEnd(c, false, tail)]);
      && Run(c, o, tail).turns == a.turns + Run(c, Outcome(INIT, []), tail).turns
      && var reply := GapReply(c, o, tail[..GapEnd(c, false, tail)]);
         a.turns == if reply.Some? && o.state.user != "" && o.turns != [] then o.turns[..|o.turns| - 1] + [reply.value] else o.turns
  {
    var k := GapEnd(c, false, tail);
    var gap := tail[..k];
    RepliedGap(c, o, gap);
    var a, b, reply := Run(c, o, gap), Run(c, Outcome(INIT, []), gap), GapReply(c, o, gap);
    RepliedIsKnown(o, a, b, reply, past);
    assert !Armed(a.state);
    hide Known, Takes, Run, Step;
    TakeoverTurns(c, o, tail, k, past);
  }

  /** The pending record is answered already, or was internal and gets an answer nobody sees. */
  lemma CutAfterReply(c: Config, o: Outcome, tail: seq<Event>, past: set<string>)
    requires Shaped(o) && Known(o, past) && "" !in past && Fresh(tail, past) && o.state.uuid != ""
    requires !Armed(o.state) && !o.state.omitted
    requires var k := GapEnd(c, false, tail);
      o.state.uuid == o.state.consumed || LastReply(tail[..k]).Some? || (k < |tail| ==> !tail[k].interrupt)
    ensures Run(c, o, tail).turns == o.turns + Run(c, Outcome(INIT, []), tail).turns <==> CutIsClean(c, o, tail)
  {
    hide Known, Takes, Run, Step;
    TurnsAfterReply(c, o, tail, past);
    var reply := GapReply(c, o, tail[..GapEnd(c, false, tail)]);
    if reply.Some? && o.state.user != "" {
      ReplacedLast(o.turns, reply.value, Run(c, Outcome(INIT, []), tail).turns);
    }
  }

  lemma ReplacedLast(turns: seq<Turn>, t: Turn, second: seq<Turn>)
    requires turns != []
    ensures turns[..|turns| - 1] + [t] + second == turns + second <==> turns[|turns| - 1] == t
  {
    var n := |turns| - 1;
    assert (turns[..n] + [t] + second)[n] == t && (turns + second)[n] == turns[n];
    assert turns == turns[..n] + [turns[n]];
  }

  lemma CutBeforeReply(c: Config, o: Outcome, tail: seq<Event>, past: set<string>)
    requires Shaped(o) && Known(o, past) && "" !in past && Fresh(tail, past) && o.state.uuid != ""
    requires o.state.uuid != o.state.consumed
    requires var k := GapEnd(c, Armed(o.state), tail); LastReply(tail[..k]).None? && (k < |tail| ==> !tail[k].interrupt)
    ensures Run(c, o, tail).turns == o.turns + Run(c, Outcome(INIT, []), tail).turns
  {
    var k := GapEnd(c, Armed(o.state), tail);
    QuietGap(c, o, tail[..k]);
    var a := Run(c, o, tail[..k]);
    assert Known(a, past);
    assert Armed(a.state) == Armed(o.state);
    TakeoverTurns(c, o, tail, k, past);
  }

  lemma ReplyIsLost(c: Config, o: Outcome, tail: seq<Event>, past: set<string>)
    requires Shaped(o) && Known(o, past) && "" !in past && Fresh(tail, past) && o.state.uuid != ""
    requires o.state.uuid != o.state.consumed && (o.state.user != "" || o.state.omitted)
    requires LastReply(tail[..GapEnd(c, Armed(o.state), tail)]).Some?
    ensures Run(c, o, tail).turns != o.turns + Run(c, Outcome(INIT, []), tail).turns
  {
    var k := GapEnd(c, Armed(o.state), tail);
    var j := FirstReply(tail[..k]);
    assert tail[..k][..j] == tail[..j] && tail[..j + 1][..j] == tail[..j];
    forall i | 0 <= i < j ensures !EndTurn(tail[..j][i]) { assert !EndTurn(tail[..k][i]); }
    QuietGap(c, o, tail[..j]);
    ReplyCompletes(c, Run(c, o, tail[..j]), tail[j]);
    hide Step, Takes, EndTurn;
    LostForTail(c, o, tail, j + 1, past);
  }

  lemma ReplyCompletes(c: Config, o: Outcome, e: Event)
    requires EndTurn(e) && o.state.uuid != "" && (o.state.user != "" || o.state.omitted)
    ensures Completed(Step(c, o, e).turns, o.state.uuid)
  {
    EndTurnEffect(c, o, e);
    var turns := Step(c, o, e).turns;
    assert turns[|turns| - 1].promptId == o.state.uuid;
  }

  lemma InterruptIsLost(c: Config, o: Outcome, tail: seq<Event>, past: set<string>)
    requires Shaped(o) && Known(o, past) && "" !in past && Fresh(tail, past) && o.state.uuid != ""
    requires o.state.uuid != o.state.consumed
    requires var k := GapEnd(c, Armed(o.state), tail); LastReply(tail[..k]).None? && k < |tail| && tail[k].interrupt
    ensures Run(c, o, tail).turns != o.turns + Run(c, Outcome(INIT, []), tail).turns
  {
    var k := GapEnd(c, Armed(o.state), tail);
    QuietGap(c, o, tail[..k]);
    assert tail[..k + 1][..k] == tail[..k];
    InterruptCompletes(c, Run(c, o, tail[..k]), tail[k]);
    hide Step, Takes;
    LostForTail(c, o, tail, k + 1, past);
  }

  lemma InterruptCompletes(c: Config, o: Outcome, e: Event)
    requires Counted(c, e) && o.state.uuid != "" && o.state.uuid != o.state.consumed
    ensures Completed(Step(c, o, e).turns, o.state.uuid)
  {
    var turns := Step(c, o, e).turns;
    assert turns[|turns| - 1].promptId == o.state.uuid;
  }

  /**
    Where a log may be cut.  With distinct uuids the full read completes what it
    had before the cut and then what the tail completes alone, if and only if the
    cut is clean.  Any tail is covered, whatever it starts with.
   */
  lemma TailExactlyIfClean(c: Config, before: seq<Event>, tail: seq<Event>)
    requires DistinctUuids(before + tail)
    ensures var o := Run(c, Outcome(INIT, []), before);
      Run(c, Outcome(INIT, []), before + tail).turns == o.turns + Run(c, Outcome(INIT, []), tail).turns <==> CutIsClean(c, o, tail)
  {
    var o, past := Run(c, Outcome(INIT, []), before), Ids(before);
    RunConcat(c, Outcome(INIT, []), before, tail);
    PastIsDisjoint(before, tail);
    RunIsKnown(c, before);
    RunIsShaped(c, before);
    var s := o.state;
    var k := GapEnd(c, Armed(s), tail);
    hide Run, Takes;
    if s.uuid == "" {
      CutWithoutRecord(c, o, tail, past);
    } else if s.uuid == s.consumed {
      CutAfterReply(c, o, tail, past);
    } else if LastReply(tail[..k]).None? {
      if k < |tail| && tail[k].interrupt { InterruptIsLost(c, o, tail, past); } else { CutBeforeReply(c, o, tail, past); }
    } else if s.user != "" || s.omitted {
      ReplyIsLost(c, o, tail, past);
    } else {
      CutAfterReply(c, o, tail, past);
    }
  }

  function FirstReal(tail: seq<Event>): (k: nat)
    ensures k <= |tail| && (k < |tail| ==> Real(tail[k]))
    ensures forall i | 0 <= i < k :: !Real(tail[i])
  {
    if tail == [] || Real(tail[0]) then 0 else 1 + FirstReal(tail[1..])
  }

  /** No end-turn and no counted interrupt before the first real prompt. */
  predicate Quiet(c: Config, tail: seq<Event>) {
    forall i | 0 <= i < FirstReal(tail) :: !EndTurn(tail[i]) && !Counted(c, tail[i])
  }

  lemma QuietIsClean(c: Config, o: Outcome, tail: seq<Event>)
    requires Quiet(c, tail)
    ensures CutIsClean(c, o, tail)
  {
    hide Run;
    var k := GapEnd(c, Armed(o.state), tail);
    assert k <= FirstReal(tail) by { if FirstReal(tail) < |tail| { assert Takes(c, Armed(o.state), tail[FirstReal(tail)]); } }
    assert LastReply(tail[..k]).None?;
  }

  /** A quiet tail is exact after any log; starting at a real prompt is the simplest case. */
  lemma PromptSynchronises(c: Config, before: seq<Event>, tail: seq<Event>)
    requires Quiet(c, tail) && DistinctUuids(before + tail)
    ensures var first := Run(c, Outcome(INIT, []), before).turns;
      var second := Run(c, Outcome(INIT, []), tail).turns;
      && Run(c, Outcome(INIT, []), before + tail).turns == first + second
      && (TailWindow.Recent(first + second, c.shown) == TailWindow.Recent(second, c.shown) <==>
            0 < c.shown <= |second| || first == [])
  {
    hide Run, Quiet, CutIsClean, DistinctUuids;
    TailExactlyIfClean(c, before, tail);
    var o := Run(c, Outcome(INIT, []), before);
    QuietIsClean(c, o, tail);
    TailWindow.RecentExact(o.turns, Run(c, Outcome(INIT, []), tail).turns, c.shown);
  }

  /** The prompt `u` alone before a tail. */
  function Prompt(u: string, text: string): Event { User(u, text, false, false, false, false, "") }

  /** And only a quiet tail is: before any other a prompt can be missing whose turn the tail then loses. */
  lemma OnlyQuietTailsAreExact(c: Config, tail: seq<Event>, u: string, text: string)
    requires text != "" && c.clean(text) != "" && DistinctUuids([Prompt(u, text)] + tail)
    ensures Run(c, Outcome(INIT, []), [Prompt(u, text)] + tail).turns ==
              Run(c, Outcome(INIT, []), [Prompt(u, text)]).turns + Run(c, Outcome(INIT, []), tail).turns
      <==> Quiet(c, tail)
  {
    var before := [Prompt(u, text)];
    TailExactlyIfClean(c, before, tail);
    RunOne(c, Outcome(INIT, []), before[0]);
    var o := Run(c, Outcome(INIT, []), before);
    assert (before + tail)[0] == before[0];
    assert o.state.user == c.clean(text) && o.state.uuid == u != "" && o.state.consumed == "";
    var k := GapEnd(c, true, tail);
    hide Run;
    if Quiet(c, tail) {
      PromptSynchronises(c, before, tail);
    } else {
      var i :| 0 <= i < FirstReal(tail) && (EndTurn(tail[i]) || Counted(c, tail[i]));
      if k <= i {
        assert !Real(tail[k]);
      } else {
        assert tail[..k][i] == tail[i];
      }
    }
  }

  lemma DistinctSuffix(before: seq<Event>, tail: seq<Event>)
    requires DistinctUuids(before + tail)
    ensures DistinctUuids(tail)
  {
    var all := before + tail;
    forall i | 0 <= i < |tail| ensures all[|before| + i] == tail[i] { }
    assert forall i | 0 <= i < |tail| && tail[i].User? :: all[|before| + i].uuid != "";
    assert forall i, j | 0 <= i < j < |tail| && tail[i].User? && tail[j].User? :: all[|before| + i].uuid != all[|before| + j].uuid;
  }

  lemma QuietFromReal(c: Config, tail: seq<Event>)
    ensures Quiet(c, tail[FirstReal(tail)..])
  {
    var k := FirstReal(tail);
    assert k < |tail| ==> Real(tail[k..][0]);
  }

  /** Whatever precedes its first real prompt, a tail that completes enough turns from there on shows what the full read shows. */
  lemma EnoughTurnsHideTheCut(c: Config, before: seq<Event>, tail: seq<Event>)
    requires DistinctUuids(before + tail)
    requires 0 < c.shown <= |Run(c, Outcome(INIT, []), tail[FirstReal(tail)..]).turns|
    ensures TailWindow.Recent(Run(c, Outcome(INIT, []), before + tail).turns, c.shown)
         == TailWindow.Recent(Run(c, Outcome(INIT, []), tail).turns, c.shown)
  {
    hide Run, Quiet, DistinctUuids, FirstReal;
    var k := FirstReal(tail);
    assert before + tail == (before + tail[..k]) + tail[k..] && tail == tail[..k] + tail[k..];
    DistinctSuffix(before, tail);
    QuietFromReal(c, tail);
    PromptSynchronises(c, before + tail[..k], tail[k..]);
    PromptSynchronises(c, tail[..k], tail[k..]);
  }

  // ----- what is shown after an unclean cut ------------------------------------------------------------

  /** The pending record is answered by the last turn: further replies replace it and nothing else adds to it. */
  predicate Settled(o: Outcome, uuid: string) {
    && o.state.uuid == uuid && o.state.consumed == uuid && !o.state.omitted
    && o.turns != [] && o.turns[|o.turns| - 1].promptId == uuid
  }

  /** Nothing is open, and no reply can complete anything. */
  predicate Idle(o: Outcome) {
    o.state.user == "" && !o.state.omitted && (o.state.uuid == "" || o.state.uuid == o.state.consumed)
  }

  lemma SettledStep(c: Config, o: Outcome, e: Event, uuid: string)
    requires uuid != "" && !Takes(c, false, e)
    ensures Settled(o, uuid) ==> Settled(Step(c, o, e), uuid)
    ensures Idle(o) ==> Idle(Step(c, o, e))
  {
  }

  lemma {:induction false} SettledRun(c: Config, a: Outcome, b: Outcome, events: seq<Event>, uuid: string)
    requires uuid != "" && Settled(a, uuid) && Idle(b) && forall i | 0 <= i < |events| :: !Takes(c, false, events[i])
    ensures Settled(Run(c, a, events), uuid) && Idle(Run(c, b, events))
  {
    hide Step, Settled, Idle, Takes;
    if events != [] {
      var n := |events| - 1;
      SettledRun(c, a, b, events[..n], uuid);
      SettledStep(c, Run(c, a, events[..n]), events[n], uuid);
      SettledStep(c, Run(c, b, events[..n]), events[n], uuid);
    }
  }

  /** The first reply of a gap, or its length. */
  function ReplyAt(gap: seq<Event>): (j: nat)
    ensures j <= |gap| && (j < |gap| ==> EndTurn(gap[j]))
    ensures forall i | 0 <= i < j :: !EndTurn(gap[i])
  {
    if gap == [] || EndTurn(gap[0]) then 0 else 1 + ReplyAt(gap[1..])
  }

  /** From here on what was pending at the cut is settled: answered and replaced, interrupted, or the tail is over. */
  function SettledAt(c: Config, s: State, tail: seq<Event>): (w: nat)
    ensures w <= |tail|
  {
    var k := GapEnd(c, Armed(s), tail);
    var j := ReplyAt(tail[..k]);
    if s.uuid == s.consumed then k
    else if j < k then j + 1 + GapEnd(c, false, tail[j + 1..])
    else if k < |tail| then k + 1 else k
  }

  /** Both parsers at the point where what was pending is settled; only the full one knows its turn. */
  ghost predicate Parted(c: Config, o: Outcome, a: Outcome, b: Outcome, next: seq<Event>) {
    && a.turns != [] && a.turns[|a.turns| - 1].promptId == o.state.uuid
    && (a.state.uuid == "" || a.state.uuid == a.state.consumed) && (b.state.uuid == "" || b.state.uuid == b.state.consumed)
    && (next != [] ==> (a.state.uuid == "" || Takes(c, false, next[0])) && (b.state.uuid == "" || Takes(c, false, next[0])))
  }

  lemma FirstReplySettles(c: Config, o: Outcome, a: Outcome, b: Outcome, e: Event)
    requires Waiting(o, a, b) && EndTurn(e) && o.state.uuid != "" && (o.state.user != "" || o.state.omitted)
    requires Shaped(b)
    ensures Settled(Step(c, a, e), o.state.uuid) && Idle(Step(c, b, e))
  {
  }

  /** A first reply at `j` settles the pending record. */
  lemma SettledByReply(c: Config, o: Outcome, tail: seq<Event>, j: nat)
    requires DistinctUuids(tail) && o.state.uuid != "" && (o.state.user != "" || o.state.omitted)
    requires j < |tail| && EndTurn(tail[j])
    requires forall i | 0 <= i < j :: !Takes(c, Armed(o.state), tail[i]) && !EndTurn(tail[i])
    ensures Settled(Run(c, o, tail[..j + 1]), o.state.uuid) && Idle(Run(c, Outcome(INIT, []), tail[..j + 1]))
  {
    assert tail[..j + 1][..j] == tail[..j];
    DistinctPrefix(tail, j);
    QuietGap(c, o, tail[..j]);
    RunIsShaped(c, tail[..j]);
    hide Step, Takes, Waiting, Shaped, Settled, Idle, EndTurn, DistinctUuids;
    FirstReplySettles(c, o, Run(c, o, tail[..j]), Run(c, Outcome(INIT, []), tail[..j]), tail[j]);
  }

  lemma PartedWhenSettled(c: Config, o: Outcome, a: Outcome, b: Outcome, next: seq<Event>)
    requires Settled(a, o.state.uuid) && Idle(b) && (next != [] ==> Takes(c, false, next[0]))
    ensures Parted(c, o, a, b, next)
  {
  }

  lemma PartedByReply(c: Config, o: Outcome, tail: seq<Event>)
    requires DistinctUuids(tail) && o.state.uuid != "" && o.state.uuid != o.state.consumed
    requires o.state.user != "" || o.state.omitted
    requires LastReply(tail[..GapEnd(c, Armed(o.state), tail)]).Some?
    ensures var w := SettledAt(c, o.state, tail);
      Parted(c, o, Run(c, o, tail[..w]), Run(c, Outcome(INIT, []), tail[..w]), tail[w..])
  {
    hide Run, Step, Takes, Settled, SettledAt, Idle, Parted, EndTurn, DistinctUuids;
    var j := ReplyInGap(c, o.state, tail);
    SettledByReply(c, o, tail, j);
    ThenSettled(c, o, tail, j + 1, SettledAt(c, o.state, tail));
  }

  lemma ReplyInGap(c: Config, s: State, tail: seq<Event>) returns (j: nat)
    requires s.uuid != s.consumed && LastReply(tail[..GapEnd(c, Armed(s), tail)]).Some?
    ensures j < |tail| && EndTurn(tail[j]) && SettledAt(c, s, tail) == j + 1 + GapEnd(c, false, tail[j + 1..])
    ensures forall i | 0 <= i < j :: !Takes(c, Armed(s), tail[i]) && !EndTurn(tail[i])
  {
    hide Takes, EndTurn;
    var gap := tail[..GapEnd(c, Armed(s), tail)];
    j := ReplyAt(gap);
    assert j < |gap| by { assert EndTurn(gap[LastReply(gap).value]); }
    assert gap[j] == tail[j];
    forall i | 0 <= i < j ensures !Takes(c, Armed(s), tail[i]) && !EndTurn(tail[i]) { assert gap[i] == tail[i]; }
  }

  lemma ThenSettled(c: Config, o: Outcome, tail: seq<Event>, m: nat, w: nat)
    requires m <= |tail| && w == m + GapEnd(c, false, tail[m..]) && o.state.uuid != ""
    requires Settled(Run(c, o, tail[..m]), o.state.uuid) && Idle(Run(c, Outcome(INIT, []), tail[..m]))
    ensures Parted(c, o, Run(c, o, tail[..w]), Run(c, Outcome(INIT, []), tail[..w]), tail[w..])
  {
    hide Run, Step, Takes, Settled, Idle, Parted;
    var rest := tail[m..w];
    assert tail[..m] + rest == tail[..w];
    forall i | 0 <= i < |rest| ensures !Takes(c, false, rest[i]) { assert rest[i] == tail[m..][i]; }
    SettledRun(c, Run(c, o, tail[..m]), Run(c, Outcome(INIT, []), tail[..m]), rest, o.state.uuid);
    RunConcat(c, o, tail[..m], rest);
    RunConcat(c, Outcome(INIT, []), tail[..m], rest);
    if w < |tail| { assert tail[m..][w - m] == tail[w..][0]; }
    PartedWhenSettled(c, o, Run(c, o, tail[..w]), Run(c, Outcome(INIT, []), tail[..w]), tail[w..]);
  }

  lemma PartedByInterrupt(c: Config, o: Outcome, tail: seq<Event>)
    requires o.state.uuid != "" && o.state.uuid != o.state.consumed
    requires var k := GapEnd(c, Armed(o.state), tail); LastReply(tail[..k]).None? && k < |tail| && tail[k].interrupt
    ensures var w := SettledAt(c, o.state, tail);
      Parted(c, o, Run(c, o, tail[..w]), Run(c, Outcome(INIT, []), tail[..w]), tail[w..])
  {
    var k := GapEnd(c, Armed(o.state), tail);
    assert SettledAt(c, o.state, tail) == k + 1 by { assert ReplyAt(tail[..k]) == k; }
    QuietGap(c, o, tail[..k]);
    assert Counted(c, tail[k]);
    hide Run, SettledAt, Step, Takes, Waiting, Parted, Counted;
    RunNext(c, o, tail, k);
    RunNext(c, Outcome(INIT, []), tail, k);
    InterruptParts(c, o, Run(c, o, tail[..k]), Run(c, Outcome(INIT, []), tail[..k]), tail[k], tail[k + 1..]);
  }

  lemma RunNext(c: Config, o: Outcome, events: seq<Event>, k: nat)
    requires k < |events|
    ensures Run(c, o, events[..k + 1]) == Step(c, Run(c, o, events[..k]), events[k])
  {
    hide Step;
    assert events[..k + 1][..k] == events[..k];
  }

  lemma InterruptParts(c: Config, o: Outcome, a: Outcome, b: Outcome, e: Event, next: seq<Event>)
    requires Waiting(o, a, b) && Counted(c, e) && o.state.uuid != "" && o.state.uuid != o.state.consumed
    ensures Parted(c, o, Step(c, a, e), Step(c, b, e), next)
  {
  }

  lemma PartedByOtherReply(c: Config, o: Outcome, tail: seq<Event>)
    requires Shaped(o) && o.state.uuid != "" && o.state.uuid == o.state.consumed && o.state.user != ""
    requires GapReply(c, o, tail[..GapEnd(c, false, tail)]).Some?
    ensures var w := SettledAt(c, o.state, tail);
      Parted(c, o, Run(c, o, tail[..w]), Run(c, Outcome(INIT, []), tail[..w]), tail[w..])
  {
    RepliedGap(c, o, tail[..GapEnd(c, false, tail)]);
  }

  lemma UncleanIsParted(c: Config, o: Outcome, tail: seq<Event>)
    requires Shaped(o) && DistinctUuids(tail) && !CutIsClean(c, o, tail)
    ensures var w := SettledAt(c, o.state, tail);
      Parted(c, o, Run(c, o, tail[..w]), Run(c, Outcome(INIT, []), tail[..w]), tail[w..])
  {
    var s := o.state;
    var k := GapEnd(c, Armed(s), tail);
    hide Run, Takes, SettledAt, Parted, Shaped;
    if s.uuid == s.consumed {
      PartedByOtherReply(c, o, tail);
    } else if LastReply(tail[..k]).None? {
      PartedByInterrupt(c, o, tail);
    } else {
      PartedByReply(c, o, tail);
    }
  }

  /** A cut before a record that takes over, with nothing left to complete, is clean. */
  lemma SettledCutIsClean(c: Config, o: Outcome, next: seq<Event>)
    requires o.state.uuid == "" || (o.state.uuid == o.state.consumed && (next != [] ==> Takes(c, false, next[0])))
    ensures CutIsClean(c, o, next)
  {
    hide Run;
    if next != [] && o.state.uuid != "" { assert GapEnd(c, false, next) == 0; }
  }

  lemma IdsPrefix(tail: seq<Event>, w: nat)
    requires w <= |tail|
    ensures forall id | id in Ids(tail[..w]) :: id in Ids(tail)
  {
  }

  /**
    What is shown after an unclean cut.  With distinct uuids the tail shows what the
    full read shows if and only if it completes as many turns as are shown after what
    was pending at the cut is settled.
   */
  lemma UncleanViewExactly(c: Config, before: seq<Event>, tail: seq<Event>)
    requires DistinctUuids(before + tail)
    requires !CutIsClean(c, Run(c, Outcome(INIT, []), before), tail)
    ensures var w := SettledAt(c, Run(c, Outcome(INIT, []), before).state, tail);
      TailWindow.Recent(Run(c, Outcome(INIT, []), before + tail).turns, c.shown)
        == TailWindow.Recent(Run(c, Outcome(INIT, []), tail).turns, c.shown)
      <==> 0 < c.shown <= |Run(c, Outcome(INIT, []), tail[w..]).turns|
  {
    hide CutIsClean, SettledAt, Run, DistinctUuids;
    var o := Run(c, Outcome(INIT, []), before);
    var w := SettledAt(c, o.state, tail);
    var a, b := Run(c, o, tail[..w]), Run(c, Outcome(INIT, []), tail[..w]);
    DistinctSuffix(before, tail);
    PastIsDisjoint(before, tail);
    RunIsShaped(c, before);
    UncleanIsParted(c, o, tail);
    UncleanHasRecord(c, o, tail);
    BothFrom(c, before, tail, w);
    RunIsKnown(c, before);
    RunIsKnown(c, tail[..w]);
    PendingIsPast(o, before, tail, b, w);
    TailWindow.RecentOfCommonEnd(a.turns, b.turns, Run(c, Outcome(INIT, []), tail[w..]).turns, c.shown);
  }

  lemma UncleanHasRecord(c: Config, o: Outcome, tail: seq<Event>)
    requires !CutIsClean(c, o, tail)
    ensures o.state.uuid != ""
  {
  }

  /** From a point where both parsers are settled on, both complete the same turns. */
  lemma BothFrom(c: Config, before: seq<Event>, tail: seq<Event>, w: nat)
    requires DistinctUuids(before + tail) && w <= |tail|
    requires var o := Run(c, Outcome(INIT, []), before);
      Parted(c, o, Run(c, o, tail[..w]), Run(c, Outcome(INIT, []), tail[..w]), tail[w..])
    ensures var o := Run(c, Outcome(INIT, []), before);
      var rest := Run(c, Outcome(INIT, []), tail[w..]).turns;
      && Run(c, Outcome(INIT, []), before + tail).turns == Run(c, o, tail[..w]).turns + rest
      && Run(c, Outcome(INIT, []), tail).turns == Run(c, Outcome(INIT, []), tail[..w]).turns + rest
  {
    hide CutIsClean, Run, Takes, DistinctUuids;
    var o := Run(c, Outcome(INIT, []), before);
    RunConcat(c, Outcome(INIT, []), before, tail[..w]);
    SettledCutIsClean(c, Run(c, o, tail[..w]), tail[w..]);
    SettledCutIsClean(c, Run(c, Outcome(INIT, []), tail[..w]), tail[w..]);
    assert before + tail == (before + tail[..w]) + tail[w..] && tail == tail[..w] + tail[w..];
    DistinctSuffix(before, tail);
    TailExactlyIfClean(c, before + tail[..w], tail[w..]);
    TailExactlyIfClean(c, tail[..w], tail[w..]);
  }

  lemma PendingIsPast(o: Outcome, before: seq<Event>, tail: seq<Event>, b: Outcome, w: nat)
    requires Known(o, Ids(before)) && Fresh(tail, Ids(before)) && w <= |tail| && Known(b, Ids(tail[..w])) && o.state.uuid != ""
    ensures b.turns != [] ==> b.turns[|b.turns| - 1].promptId != o.state.uuid
  {
    IdsPrefix(tail, w);
    if b.turns != [] { assert b.turns[|b.turns| - 1] in b.turns; }
  }

  /**
    Starting at any user record is not: an internal one does not disarm the prompt
    before it, so the reply that completes that prompt is lost to the tail.
   */
  lemma InternalStartLosesTurn(c: Config)
    requires c.clean("q") != ""
    ensures var prompt := User("p", "q", false, false, false, false, "");
      var note := User("n", "note", false, false, true, false, "");
      var reply := Assistant("", false, "a", true, [], "");
      && Run(c, Outcome(INIT, []), [prompt, note, reply]).turns != []
      && Run(c, Outcome(INIT, []), [note, reply]).turns == []
  {
    var prompt := User("p", "q", false, false, false, false, "");
    var note := User("n", "note", false, false, true, false, "");
    var reply := Assistant("", false, "a", true, [], "");
    Three(c, prompt, note, reply);
    var start := Outcome(INIT, []);
    assert Step(c, Step(c, start, prompt), note) == Step(c, start, prompt);
  }

  /** A log that starts with a compaction summary and has two replies shows the first only. */
  lemma CompactionLogDropsReply(c: Config)
    ensures var summary := User("s", "", false, false, false, true, "");
      var a, b := Assistant("", false, "a", true, [], ""), Assistant("", false, "b", true, [], "");
      && Run(c, Outcome(INIT, []), [summary, a, b]).turns == [Turn("s", "", c.clean("a"), true, "", "")]
  {
    var summary := User("s", "", false, false, false, true, "");
    var a, b := Assistant("", false, "a", true, [], ""), Assistant("", false, "b", true, [], "");
    Three(c, summary, a, b);
    var o := Step(c, Outcome(INIT, []), summary);
    assert o.state.uuid == "s" && o.state.user == "" && o.state.omitted && o.turns == [];
    CompactionDropsSecondReply(c, o, a, b);
    assert Step(c, o, a).turns == [Turn("s", "", c.clean("a"), true, "", "")];
  }

  lemma RunOne(c: Config, o: Outcome, e: Event)
    ensures Run(c, o, [e]) == Step(c, o, e)
  {
    hide Step;
    var none := [e][..0];
    assert none == [] && Run(c, o, none) == o;
    assert Run(c, o, [e]) == Step(c, Run(c, o, none), e);
  }

  lemma Three(c: Config, x: Event, y: Event, z: Event)
    ensures var start := Outcome(INIT, []);
      && Run(c, start, [x, y, z]) == Step(c, Step(c, Step(c, start, x), y), z)
      && Run(c, start, [y, z]) == Step(c, Step(c, start, y), z)
  {
    hide Step;
    var start := Outcome(INIT, []);
    assert [x, y, z][..2] == [x, y] && [x, y][..1] == [x] && [x][..0] == [];
    assert [y, z][..1] == [y] && [y][..0] == [];
    RunOne(c, start, x);
    RunOne(c, start, y);
    assert Run(c, start, [x, y]) == Step(c, Step(c, start, x), y);
  }
}
