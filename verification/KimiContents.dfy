/**
  What the turns of a Kimi transcript say, read off the log alone: the prompt with
  its steers, the final text of the step that ended it, and its last progress.
 */
module KimiContents {
  import opened Options
  import opened TailParser
  import opened TailWindow
  import opened KimiTranscript

  // ----- lines that matter ---------------------------------------------------------------

  function EventAt(c: Config, lines: seq<string>, i: nat): Event
    requires i < |lines|
  { if c.parse(lines[i]).Some? then c.parse(lines[i]).value else Other }

  /** A prompt that opens a turn; any other prompt only closes what is open. */
  predicate Usable(c: Config, e: Event) { e.Prompt? && !c.blank(e.text) && e.startedAt.Some? }

  // ----- the log since a prompt ---------------------------------------------------------------

  /** The text of one step so far, its parts joined. */
  function StepText(c: Config, lines: seq<string>, from: nat, n: nat, step: string): string
    requires n <= |lines|
  {
    if n <= from + 1 then ""
    else
      var e := EventAt(c, lines, n - 1);
      StepText(c, lines, from, n - 1, step) + if e.TextPart? && e.step == step then e.text else ""
  }

  /** The prompt, and every steer that followed it. */
  function Asked(c: Config, lines: seq<string>, from: nat, n: nat): string
    requires from < n <= |lines| && EventAt(c, lines, from).Prompt?
  {
    if n == from + 1 then EventAt(c, lines, from).text
    else
      var e := EventAt(c, lines, n - 1);
      Asked(c, lines, from, n - 1) + if e.Steer? && !c.blank(e.text) then "\n\n" + e.text else ""
  }

  /** What was last seen of the work: a step's text as far as it got, or a progress note. */
  function LastSeen(c: Config, lines: seq<string>, from: nat, n: nat): string
    requires n <= |lines|
  {
    if n <= from + 1 then ""
    else
      var e := EventAt(c, lines, n - 1);
      if e.TextPart? && e.text != "" then StepText(c, lines, from, n, e.step)
      else if e.Progress? && e.text != "" then e.text
      else LastSeen(c, lines, from, n - 1)
  }

  /** The prompt that is open before line `n`. */
  function OpenBefore(c: Config, lines: seq<string>, n: nat): (r: Option<nat>)
    requires n <= |lines|
    ensures r.Some? ==> r.value < n && Usable(c, EventAt(c, lines, r.value))
    decreases n, 0
  {
    if n == 0 then None
    else
      var e := EventAt(c, lines, n - 1);
      if e.Prompt? then if Usable(c, e) then Some(n - 1) else None
      else if Completes(c, lines, n - 1) then None
      else OpenBefore(c, lines, n - 1)
  }

  /** The line ends the open turn: its step is the last one and has said something. */
  predicate Completes(c: Config, lines: seq<string>, n: nat)
    requires n < |lines|
    decreases n, 1
  {
    var e := EventAt(c, lines, n);
    e.StepEnd? && e.endTurn && OpenBefore(c, lines, n).Some?
    && !c.blank(c.clean(StepText(c, lines, OpenBefore(c, lines, n).value, n, e.step)))
  }

  /** Who asked what, from the prompt in force. */
  function PromptOf(c: Config, lines: seq<string>, from: nat, n: nat): Current
    requires from < n <= |lines| && Usable(c, EventAt(c, lines, from))
  {
    Current(time := EventAt(c, lines, from).time, startedAt := EventAt(c, lines, from).startedAt.value,
            user := Asked(c, lines, from, n))
  }

  function TurnAt(c: Config, lines: seq<string>, n: nat): Option<Turn>
    requires n < |lines|
  {
    if !Completes(c, lines, n) then None
    else
      var from, e := OpenBefore(c, lines, n).value, EventAt(c, lines, n);
      Some(Turn(prompt := PromptOf(c, lines, from, n), completedAt := e.completedAt,
                final := c.clean(StepText(c, lines, from, n, e.step)), worklog := LastSeen(c, lines, from, n)))
  }

  function TurnsBefore(c: Config, lines: seq<string>, n: nat): seq<Turn>
    requires n <= |lines|
  {
    if n == 0 then []
    else TurnsBefore(c, lines, n - 1) + if TurnAt(c, lines, n - 1).Some? then [TurnAt(c, lines, n - 1).value] else []
  }

  // ----- the parser reads just that -----------------------------------------------------------------

  /** The parser's state before line `n` is what the log says. */
  ghost predicate Says(c: Config, lines: seq<string>, n: nat, s: State)
    requires n <= |lines|
  {
    var open := OpenBefore(c, lines, n);
    if open.None? then s == INIT
    else
      && s.current == Some(PromptOf(c, lines, open.value, n))
      && (forall step :: TextOf(s.steps, step) == StepText(c, lines, open.value, n, step))
      && s.progress == LastSeen(c, lines, open.value, n)
  }

  lemma OpensSays(c: Config, lines: seq<string>, n: nat, s: State)
    requires n < |lines| && Says(c, lines, n, s) && EventAt(c, lines, n).Prompt?
    ensures Says(c, lines, n + 1, StepLine(c, s, lines[n]).0) && StepLine(c, s, lines[n]).1 == None == TurnAt(c, lines, n)
  {
  }

  lemma IdleSays(c: Config, lines: seq<string>, n: nat, s: State)
    requires n < |lines| && Says(c, lines, n, s) && !EventAt(c, lines, n).Prompt? && OpenBefore(c, lines, n).None?
    ensures Says(c, lines, n + 1, StepLine(c, s, lines[n]).0) && StepLine(c, s, lines[n]).1 == None == TurnAt(c, lines, n)
  {
  }

  /** What one more line adds to the facts since the open prompt. */
  lemma LogGrows(c: Config, lines: seq<string>, from: nat, n: nat)
    requires from < n < |lines| && EventAt(c, lines, from).Prompt?
    ensures var e := EventAt(c, lines, n);
      && (forall step :: StepText(c, lines, from, n + 1, step) ==
            if e.TextPart? && e.step == step then StepText(c, lines, from, n, step) + e.text else StepText(c, lines, from, n, step))
      && Asked(c, lines, from, n + 1) ==
           (if e.Steer? && !c.blank(e.text) then Asked(c, lines, from, n) + "\n\n" + e.text else Asked(c, lines, from, n))
      && LastSeen(c, lines, from, n + 1) ==
           (if e.TextPart? && e.text != "" then StepText(c, lines, from, n, e.step) + e.text
            else if e.Progress? && e.text != "" then e.text else LastSeen(c, lines, from, n))
  {
    var e := EventAt(c, lines, n);
    forall step
      ensures StepText(c, lines, from, n + 1, step) ==
        if e.TextPart? && e.step == step then StepText(c, lines, from, n, step) + e.text else StepText(c, lines, from, n, step)
    {
      assert StepText(c, lines, from, n, step) + "" == StepText(c, lines, from, n, step);
    }
    assert Asked(c, lines, from, n) + "" == Asked(c, lines, from, n);
    if e.Steer? { assert Asked(c, lines, from, n) + ("\n\n" + e.text) == Asked(c, lines, from, n) + "\n\n" + e.text; }
  }

  lemma StaysOpen(c: Config, lines: seq<string>, n: nat)
    requires n < |lines| && !EventAt(c, lines, n).Prompt?
    ensures OpenBefore(c, lines, n + 1) == if Completes(c, lines, n) then None else OpenBefore(c, lines, n)
  {
    hide Completes;
  }

  lemma EndSays(c: Config, lines: seq<string>, n: nat, s: State)
    requires n < |lines| && Says(c, lines, n, s) && OpenBefore(c, lines, n).Some? && EventAt(c, lines, n).StepEnd?
    ensures Says(c, lines, n + 1, StepLine(c, s, lines[n]).0) && StepLine(c, s, lines[n]).1 == TurnAt(c, lines, n)
  {
    StaysOpen(c, lines, n);
    LogGrows(c, lines, OpenBefore(c, lines, n).value, n);
    var e := EventAt(c, lines, n);
    assert TextOf(s.steps, e.step) == StepText(c, lines, OpenBefore(c, lines, n).value, n, e.step);
    hide OpenBefore, StepText, Asked, LastSeen, TextOf;
  }

  lemma TextSays(c: Config, lines: seq<string>, n: nat, s: State)
    requires n < |lines| && Says(c, lines, n, s) && OpenBefore(c, lines, n).Some? && EventAt(c, lines, n).TextPart?
    ensures Says(c, lines, n + 1, StepLine(c, s, lines[n]).0) && StepLine(c, s, lines[n]).1 == None == TurnAt(c, lines, n)
  {
    StaysOpen(c, lines, n);
    var from, e := OpenBefore(c, lines, n).value, EventAt(c, lines, n);
    LogGrows(c, lines, from, n);
    hide OpenBefore, StepText, Asked, LastSeen;
    var s' := StepLine(c, s, lines[n]).0;
    assert TextOf(s.steps, e.step) == StepText(c, lines, from, n, e.step);
    forall step ensures TextOf(s'.steps, step) == StepText(c, lines, from, n + 1, step) {
      assert TextOf(s.steps, step) == StepText(c, lines, from, n, step);
    }
  }

  lemma WorkSays(c: Config, lines: seq<string>, n: nat, s: State)
    requires n < |lines| && Says(c, lines, n, s) && OpenBefore(c, lines, n).Some?
    requires !EventAt(c, lines, n).StepEnd? && !EventAt(c, lines, n).Prompt? && !EventAt(c, lines, n).TextPart?
    ensures Says(c, lines, n + 1, StepLine(c, s, lines[n]).0) && StepLine(c, s, lines[n]).1 == None == TurnAt(c, lines, n)
  {
    StaysOpen(c, lines, n);
    LogGrows(c, lines, OpenBefore(c, lines, n).value, n);
    hide OpenBefore, StepText, Asked, LastSeen, TextOf;
    var s' := StepLine(c, s, lines[n]).0;
    assert s'.steps == s.steps;
  }

  lemma LineSays(c: Config, lines: seq<string>, n: nat, s: State)
    requires n < |lines| && Says(c, lines, n, s)
    ensures Says(c, lines, n + 1, StepLine(c, s, lines[n]).0) && StepLine(c, s, lines[n]).1 == TurnAt(c, lines, n)
  {
    hide Says, StepLine, TurnAt, OpenBefore;
    if EventAt(c, lines, n).Prompt? { OpensSays(c, lines, n, s); }
    else if OpenBefore(c, lines, n).None? { IdleSays(c, lines, n, s); }
    else if EventAt(c, lines, n).StepEnd? { EndSays(c, lines, n, s); }
    else if EventAt(c, lines, n).TextPart? { TextSays(c, lines, n, s); }
    else { WorkSays(c, lines, n, s); }
  }

  lemma {:induction false} RunSays(c: Config, lines: seq<string>, n: nat)
    requires n <= |lines|
    ensures Says(c, lines, n, Run(Kimi(c), INIT, lines[..n]).state)
    ensures Run(Kimi(c), INIT, lines[..n]).turns == TurnsBefore(c, lines, n)
  {
    if n > 0 {
      RunSays(c, lines, n - 1);
      LineSays(c, lines, n - 1, Run(Kimi(c), INIT, lines[..n - 1]).state);
      assert lines[..n][..n - 1] == lines[..n - 1];
      hide StepLine, Says, TurnAt;
      assert Run(Kimi(c), INIT, lines[..n]) == Advance(Kimi(c), Run(Kimi(c), INIT, lines[..n - 1]), lines[n - 1]);
    }
  }

  /**
    What the parser reports, from the log alone: the recent turns its completions
    make, and the prompt that is still open with what was last seen of it.
   */
  lemma ViewFromLog(c: Config, lines: seq<string>)
    ensures var view, open := ViewOf(c, Run(Kimi(c), INIT, lines)), OpenBefore(c, lines, |lines|);
      && view.recent == Recent(TurnsBefore(c, lines, |lines|), c.shown)
      && view.open == if open.None? then None
                      else Some(OpenTurn(prompt := PromptOf(c, lines, open.value, |lines|), stream := LastSeen(c, lines, open.value, |lines|)))
  {
    RunSays(c, lines, |lines|);
    assert lines[..|lines|] == lines;
    hide TurnsBefore, PromptOf, LastSeen, StepText, Recent, OpenBefore;
  }

  /**
    Every completed turn has the prompt of a usable prompt line, with its steers, and
    the joined text of the step whose end completed it, nothing blank.
   */
  lemma {:induction false} CompletedTurnSays(c: Config, lines: seq<string>, n: nat, k: nat) returns (from: nat, at: nat)
    requires n <= |lines| && k < |Run(Kimi(c), INIT, lines[..n]).turns|
    ensures from < at < n && Usable(c, EventAt(c, lines, from)) && EventAt(c, lines, at).StepEnd? && EventAt(c, lines, at).endTurn
    ensures var t, e := Run(Kimi(c), INIT, lines[..n]).turns[k], EventAt(c, lines, at);
      && t.prompt == PromptOf(c, lines, from, at) && t.completedAt == e.completedAt
      && t.final == c.clean(StepText(c, lines, from, at, e.step)) && !c.blank(t.final)
    decreases n
  {
    hide StepLine;
    RunSays(c, lines, n);
    RunSays(c, lines, n - 1);
    if k < |TurnsBefore(c, lines, n - 1)| {
      from, at := CompletedTurnSays(c, lines, n - 1, k);
    } else {
      from, at := OpenBefore(c, lines, n - 1).value, n - 1;
    }
  }
}
