/**
  What the turns of a Claude transcript say, read off the log alone: which prompt
  a turn quotes, which event ended it, and what its final text is.
 */
module ClaudeContents {
  import opened Options
  import opened ClaudeTranscript

  // ----- the record in force -----------------------------------------------------------

  /** An assistant event that is part of the work: no error, no reply. */
  predicate Works(e: Event) { e.Assistant? && !e.apiError && !(e.text != "" && e.endTurn) }

  /** The user record in force before event `n`. */
  function Owner(c: Config, events: seq<Event>, n: nat): (r: Option<nat>)
    requires n <= |events|
    ensures r.Some? ==> r.value < n && events[r.value].User? && !events[r.value].interrupt
    decreases n, 0
  {
    if n == 0 then None
    else
      var e := events[n - 1];
      if Counted(c, e) then None
      else if Real(e) || (e.User? && !e.interrupt && !ArmedBefore(c, events, n - 1)) then Some(n - 1)
      else Owner(c, events, n - 1)
  }

  /** A reply between the record and event `n`. */
  predicate Answered(events: seq<Event>, from: nat, n: nat)
    requires n <= |events|
  { exists i :: from < i < n && EndTurn(events[i]) }

  /** What a record asks in public: only a real prompt is quoted. */
  function Quoted(c: Config, e: Event): string
    requires e.User?
  { if Real(e) then c.clean(e.text) else "" }

  /** A quoted prompt waits for its reply. */
  predicate ArmedBefore(c: Config, events: seq<Event>, n: nat)
    requires n <= |events|
    decreases n, 1
  {
    var owner := Owner(c, events, n);
    owner.Some? && Quoted(c, events[owner.value]) != "" && !Answered(events, owner.value, n)
  }

  // ----- the work since then --------------------------------------------------------------

  /** The last interim text. */
  function Interim(c: Config, events: seq<Event>, from: nat, n: nat): string
    requires n <= |events|
  {
    if n <= from + 1 then ""
    else if Works(events[n - 1]) && events[n - 1].text != "" then c.clean(events[n - 1].text)
    else Interim(c, events, from, n - 1)
  }

  function Steps(c: Config, events: seq<Event>, from: nat, n: nat): seq<string>
    requires n <= |events|
  {
    if n <= from + 1 then []
    else if Works(events[n - 1]) then Trim(Steps(c, events, from, n - 1) + events[n - 1].steps, c.maxLines)
    else Steps(c, events, from, n - 1)
  }

  function WorkLog(c: Config, events: seq<Event>, from: nat, n: nat): string
    requires from < n <= |events| && events[from].User?
  {
    if c.worklog && Quoted(c, events[from]) != "" && Steps(c, events, from, n) != [] then c.render(Steps(c, events, from, n)) else ""
  }

  // ----- the turns ---------------------------------------------------------------------------

  /** The turn an end-turn makes of the record in force. */
  function ReplyTurn(c: Config, events: seq<Event>, from: nat, n: nat): Turn
    requires from < n < |events| && events[from].User? && events[n].Assistant?
  {
    Turn(promptId := events[from].uuid, user := Quoted(c, events[from]), final := c.clean(events[n].text),
         done := true, completedAt := events[n].at, worklog := WorkLog(c, events, from, n))
  }

  /** The turn an interrupt makes of it. */
  function InterruptedTurn(c: Config, events: seq<Event>, from: nat, n: nat): Turn
    requires from < n < |events| && events[from].User? && events[n].User?
  {
    var text := if Quoted(c, events[from]) == "" then c.clean("") else c.clean(Interim(c, events, from, n));
    Turn(promptId := events[from].uuid, user := Quoted(c, events[from]), final := if text == "" then INTERRUPTED else text,
         done := false, completedAt := events[n].at, worklog := WorkLog(c, events, from, n))
  }

  /** A reply to a record that has something to show for it: a quoted prompt, or an unanswered summary. */
  predicate Shown(c: Config, events: seq<Event>, from: nat, n: nat)
    requires from < n <= |events| && events[from].User?
  { Quoted(c, events[from]) != "" || (events[from].compact && !Answered(events, from, n)) }

  /** A second reply to one prompt takes the place of the first. */
  function TurnsBefore(c: Config, events: seq<Event>, n: nat): seq<Turn>
    requires n <= |events|
  {
    if n == 0 then []
    else
      var turns, owner, e := TurnsBefore(c, events, n - 1), Owner(c, events, n - 1), events[n - 1];
      if owner.None? then turns
      else if EndTurn(e) && Shown(c, events, owner.value, n - 1) then
        var t := ReplyTurn(c, events, owner.value, n - 1);
        if Answered(events, owner.value, n - 1) && turns != [] then turns[..|turns| - 1] + [t] else turns + [t]
      else if Counted(c, e) && !Answered(events, owner.value, n - 1) then turns + [InterruptedTurn(c, events, owner.value, n - 1)]
      else turns
  }

  // ----- the parser reads just that --------------------------------------------------------------

  /** What a parser with a record in force remembers of it. */
  predicate Remembers(c: Config, events: seq<Event>, from: nat, n: nat, s: State)
    requires from < n <= |events| && events[from].User?
  {
    && s.uuid == events[from].uuid && s.user == Quoted(c, events[from])
    && (s.omitted <==> events[from].compact && !Answered(events, from, n))
    && (s.uuid == s.consumed <==> Answered(events, from, n)) && (s.incomplete <==> !Answered(events, from, n))
    && s.stream == (if s.user == "" || Answered(events, from, n) then "" else Interim(c, events, from, n))
    && (c.worklog ==> s.parts == if s.user == "" then [] else Steps(c, events, from, n))
  }

  predicate Says(c: Config, events: seq<Event>, n: nat, o: Outcome)
    requires n <= |events|
  {
    && o.turns == TurnsBefore(c, events, n)
    && var owner := Owner(c, events, n);
       if owner.None? then Blank(o.state) else Remembers(c, events, owner.value, n, o.state)
  }

  lemma AnsweredNext(events: seq<Event>, from: nat, n: nat)
    requires from < n < |events|
    ensures Answered(events, from, n + 1) <==> Answered(events, from, n) || EndTurn(events[n])
  {
  }

  lemma ArmedMeans(c: Config, events: seq<Event>, n: nat, o: Outcome)
    requires n <= |events| && Says(c, events, n, o)
    ensures ArmedBefore(c, events, n) <==> Armed(o.state)
  {
    hide TurnsBefore, Interim, Steps, Answered;
  }

  /** A record that takes over starts with nothing. */
  lemma TakeoverSays(c: Config, events: seq<Event>, n: nat, o: Outcome)
    requires n < |events| && Says(c, events, n, o) && events[n].User? && !events[n].interrupt && Owner(c, events, n + 1) == Some(n)
    requires events[n].uuid != "" && events[n].uuid != o.state.consumed && (Real(events[n]) ==> !events[n].compact)
    ensures Says(c, events, n + 1, Step(c, o, events[n]))
  {
    ArmedMeans(c, events, n, o);
    hide Owner, ArmedBefore;
    assert !EndTurn(events[n]) && !Counted(c, events[n]);
  }

  lemma InterruptSays(c: Config, events: seq<Event>, n: nat, o: Outcome)
    requires n < |events| && Says(c, events, n, o) && Counted(c, events[n]) && Known(o, Ids(events[..n])) && "" !in Ids(events[..n])
    requires Owner(c, events, n).Some? ==> events[Owner(c, events, n).value].uuid != ""
    ensures Says(c, events, n + 1, Step(c, o, events[n]))
  {
    assert Owner(c, events, n + 1) == None;
    hide Owner, Interim, Steps, Answered, ArmedBefore;
  }

  /** Any other user record changes nothing. */
  lemma IgnoredSays(c: Config, events: seq<Event>, n: nat, o: Outcome)
    requires n < |events| && Says(c, events, n, o) && events[n].User? && !Counted(c, events[n]) && Owner(c, events, n + 1) != Some(n)
    ensures Says(c, events, n + 1, Step(c, o, events[n]))
  {
    ArmedMeans(c, events, n, o);
    var owner := Owner(c, events, n);
    assert Owner(c, events, n + 1) == owner && Step(c, o, events[n]) == o;
    if owner.Some? { AnsweredNext(events, owner.value, n); }
    hide Owner, Answered, ArmedBefore;
  }

  /** What is no work leaves the work as it was. */
  lemma WorkNext(c: Config, events: seq<Event>, from: nat, n: nat)
    requires from < n < |events|
    ensures !Works(events[n]) ==> Steps(c, events, from, n + 1) == Steps(c, events, from, n)
    ensures !Works(events[n]) || events[n].text == "" ==> Interim(c, events, from, n + 1) == Interim(c, events, from, n)
    ensures Works(events[n]) && events[n].text != "" ==> Interim(c, events, from, n + 1) == c.clean(events[n].text)
    ensures Works(events[n]) ==> Steps(c, events, from, n + 1) == Trim(Steps(c, events, from, n) + events[n].steps, c.maxLines)
  {
    hide Trim;
  }

  lemma ReplySays(c: Config, events: seq<Event>, n: nat, o: Outcome)
    requires n < |events| && Says(c, events, n, o) && EndTurn(events[n]) && Shaped(o)
    requires Owner(c, events, n).Some? ==> events[Owner(c, events, n).value].uuid != ""
    ensures Says(c, events, n + 1, Step(c, o, events[n]))
  {
    var owner := Owner(c, events, n);
    assert Owner(c, events, n + 1) == owner;
    hide Owner, ArmedBefore;
    if owner.Some? {
      AnsweredNext(events, owner.value, n);
      WorkNext(c, events, owner.value, n);
      hide Answered, Interim, Steps, Quoted;
      if o.turns != [] { assert o.turns[|o.turns| - 1] in o.turns; }
    }
  }

  /** An API error, or an event that is no message, leaves turns and work alone. */
  lemma IdleSays(c: Config, events: seq<Event>, n: nat, o: Outcome)
    requires n < |events| && Says(c, events, n, o) && !EndTurn(events[n]) && !events[n].User? && !Works(events[n])
    ensures Says(c, events, n + 1, Step(c, o, events[n]))
  {
    var owner := Owner(c, events, n);
    assert Owner(c, events, n + 1) == owner;
    assert TurnsBefore(c, events, n + 1) == TurnsBefore(c, events, n);
    hide Owner, ArmedBefore, TurnsBefore;
    if owner.Some? {
      AnsweredNext(events, owner.value, n);
      WorkNext(c, events, owner.value, n);
    }
    hide Answered, Interim, Steps, Quoted;
  }

  lemma WorkSays(c: Config, events: seq<Event>, n: nat, o: Outcome)
    requires n < |events| && Says(c, events, n, o) && Works(events[n])
    ensures Says(c, events, n + 1, Step(c, o, events[n]))
  {
    var owner := Owner(c, events, n);
    assert Owner(c, events, n + 1) == owner;
    assert TurnsBefore(c, events, n + 1) == TurnsBefore(c, events, n);
    hide Owner, ArmedBefore, TurnsBefore;
    if owner.Some? {
      AnsweredNext(events, owner.value, n);
      WorkNext(c, events, owner.value, n);
    }
    hide Answered, Interim, Steps, Quoted, Trim;
  }

  lemma OwnersHaveIds(c: Config, events: seq<Event>, n: nat)
    requires n <= |events| && DistinctUuids(events)
    ensures Owner(c, events, n).Some? ==> events[Owner(c, events, n).value].uuid != ""
  {
    hide Owner;
  }

  /** A summary is never a real prompt; the parser's test for one excludes it. */
  lemma EventSays(c: Config, events: seq<Event>, n: nat, o: Outcome)
    requires n < |events| && Says(c, events, n, o) && DistinctUuids(events)
    requires Known(o, Ids(events[..n])) && Shaped(o)
    ensures Says(c, events, n + 1, Step(c, o, events[n]))
  {
    hide Says, Step, Shaped, Counted, EndTurn;
    OwnersHaveIds(c, events, n);
    FreshRecord(events, n);
    if EndTurn(events[n]) { ReplySays(c, events, n, o); }
    else if Works(events[n]) { WorkSays(c, events, n, o); }
    else if !events[n].User? { IdleSays(c, events, n, o); }
    else if Counted(c, events[n]) { InterruptSays(c, events, n, o); }
    else if Owner(c, events, n + 1) == Some(n) { TakeoverSays(c, events, n, o); }
    else { IgnoredSays(c, events, n, o); }
  }

  lemma FreshRecord(events: seq<Event>, n: nat)
    requires n < |events| && DistinctUuids(events)
    ensures "" !in Ids(events[..n])
    ensures events[n].User? ==> events[n].uuid != "" && events[n].uuid !in Ids(events[..n])
    ensures EndTurn(events[n]) ==> !events[n].User?
  {
  }

  lemma {:induction false} RunSays(c: Config, events: seq<Event>, n: nat)
    requires n <= |events| && DistinctUuids(events)
    ensures Says(c, events, n, Run(c, Outcome(INIT, []), events[..n]))
  {
    if n > 0 {
      RunSays(c, events, n - 1);
      DistinctPrefix(events, n - 1);
      RunIsKnown(c, events[..n - 1]);
      RunIsShaped(c, events[..n - 1]);
      hide Says, Step, Shaped, Known, DistinctUuids;
      RunNext(c, Outcome(INIT, []), events, n - 1);
      EventSays(c, events, n - 1, Run(c, Outcome(INIT, []), events[..n - 1]));
    }
  }

  /** The completed turns, from the log alone. */
  lemma TurnsFromLog(c: Config, events: seq<Event>)
    requires DistinctUuids(events)
    ensures Run(c, Outcome(INIT, []), events).turns == TurnsBefore(c, events, |events|)
  {
    RunSays(c, events, |events|);
    assert events[..|events|] == events;
    hide Run, TurnsBefore, Owner;
  }

  /** The turn belongs to the record `from` and was made by event `at`. */
  predicate MadeBy(c: Config, events: seq<Event>, from: nat, at: nat, t: Turn) {
    && from < at < |events| && events[from].User? && t.promptId == events[from].uuid && t.user == Quoted(c, events[from])
    && (t.done ==> EndTurn(events[at]) && t.final == c.clean(events[at].text) && t.completedAt == events[at].at)
    && (!t.done ==> Counted(c, events[at]) && t.completedAt == events[at].at && !Answered(events, from, at)
                    && (t.final == INTERRUPTED || t.final == c.clean(Interim(c, events, from, at)) || t.final == c.clean("")))
  }

  /**
    Every completed turn quotes the prompt of its own record and nothing else, and
    its text is the cleaned reply that ended it or, if it was interrupted, the last
    interim text before the interrupt.
   */
  lemma {:induction false} CompletedTurnSays(c: Config, events: seq<Event>, n: nat, k: nat) returns (from: nat, at: nat)
    requires n <= |events| && k < |TurnsBefore(c, events, n)|
    ensures at < n && MadeBy(c, events, from, at, TurnsBefore(c, events, n)[k])
  {
    hide Owner, Interim, Steps, ArmedBefore, Answered;
    var before := TurnsBefore(c, events, n - 1);
    if k < |before| && TurnsBefore(c, events, n)[k] == before[k] {
      from, at := CompletedTurnSays(c, events, n - 1, k);
    } else {
      from, at := Owner(c, events, n - 1).value, n - 1;
    }
  }
}
