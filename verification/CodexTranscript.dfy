/**
  The Codex transcript parser: one state per line, all of it but the model reset
  by a turn start, and what that makes of reading only a tail.
 */
module CodexTranscript {
  import opened Options
  import opened TailParser
  import opened TailWindow

  /** A line that is valid JSON; texts are extracted and stripped. */
  datatype Event =
    | Context(model: string)
    | TaskStarted(turnId: string, startedAt: Option<string>)
    | UserMessage(text: string, isInternal: bool)
    | AssistantMessage(text: string)
    | OtherMessage
    | ToolCall(line: string)
    | TaskComplete(turnId: string, completedAt: Option<string>, lastMessage: string)
    | TurnAborted
    | Other

  /** Sanitizer, worklog switch, worklog accumulation and rendering, and how many turns are shown. */
  datatype Config = Config(
    parse: string -> Option<Event>, clean: string -> string,
    worklog: bool, accumulate: (seq<string>, string) -> seq<string>, render: seq<string> -> string, shown: nat)

  datatype Turn = Turn(turnId: string, startedAt: Option<string>, completedAt: Option<string>,
                       user: string, final: string, worklog: string)

  datatype State = State(turnId: string, startedAt: Option<string>, user: string, assistant: string,
                         open: bool, parts: seq<string>, model: string)

  const INIT: State := State("", None, "", "", false, [], "")

  predicate IsStart(c: Config, line: string) { c.parse(line).Some? && c.parse(line).value.TaskStarted? }

  predicate IsEnd(c: Config, line: string) { c.parse(line).Some? && c.parse(line).value.TaskComplete? }

  /** A completion emits a turn if there is a reply and a prompt to pair. */
  function Completion(c: Config, s: State, e: Event): Option<Turn>
    requires e.TaskComplete?
  {
    var message := c.clean(e.lastMessage);
    var final := if message != "" then message else s.assistant;
    if final == "" || s.user == "" then None
    else Some(Turn(if e.turnId != "" then e.turnId else s.turnId, s.startedAt, e.completedAt, s.user, final,
                   if c.worklog && s.parts != [] then c.render(s.parts) else ""))
  }

  function StepState(c: Config, s: State, e: Event): State {
    match e
    case Context(model) => if model != "" then s.(model := model) else s
    case TaskStarted(id, at) => State(id, at, "", "", true, [], s.model)
    case UserMessage(text, isInternal) => if text != "" && !isInternal then s.(user := c.clean(text)) else s
    case AssistantMessage(text) => if text != "" then s.(assistant := c.clean(text)) else s
    case ToolCall(line) => if c.worklog && s.open && line != "" then s.(parts := c.accumulate(s.parts, line)) else s
    case TaskComplete(_, _, _) => s.(open := false)
    case TurnAborted => s.(open := false)
    case _ => s
  }

  function StepLine(c: Config, s: State, line: string): (State, Option<Turn>) {
    var e := c.parse(line);
    if e.None? then (s, None)
    else (StepState(c, s, e.value), if e.value.TaskComplete? then Completion(c, s, e.value) else None)
  }

  function Codex(c: Config): Parser<State, Turn> { Parser(INIT, (s, line) => StepLine(c, s, line)) }

  // ----- the result ---------------------------------------------------------------------

  datatype OpenTurn = OpenTurn(turnId: string, user: string, stream: string)

  /** The recent turns with the open one beside them, an open turn alone, or nothing yet. */
  datatype View = Completed(recent: seq<Turn>, open: Option<OpenTurn>) | OpenOnly(turn: OpenTurn) | NothingYet

  function ViewOf(c: Config, o: Outcome<State, Turn>): View {
    var open := if o.state.open then Some(OpenTurn(o.state.turnId, o.state.user, o.state.assistant)) else None;
    if o.turns != [] then Completed(Recent(o.turns, c.shown), open)
    else if open.Some? then OpenOnly(open.value)
    else NothingYet
  }

  /** The parsing loop over the lines it was given. */
  method ExtractCodexTurn(c: Config, lines: seq<string>) returns (view: View, model: string)
    ensures view == ViewOf(c, Run(Codex(c), INIT, lines)) && model == Run(Codex(c), INIT, lines).state.model
  {
    var turnId, startedAt, user, assistant, open := "", None, "", "", false;
    var parts: seq<string> := [];
    model := "";
    var completed: seq<Turn> := [];
    for i := 0 to |lines|
      invariant Outcome(State(turnId, startedAt, user, assistant, open, parts, model), completed) == Run(Codex(c), INIT, lines[..i])
    {
      assert lines[..i + 1][..i] == lines[..i];
      var parsed := c.parse(lines[i]);
      if parsed.None? { continue; }
      match parsed.value {
        case Context(m) => if m != "" { model := m; }
        case TaskStarted(id, at) =>
          turnId, startedAt := id, at;
          user, assistant, open, parts := "", "", true, [];
        case UserMessage(text, isInternal) => if text != "" && !isInternal { user := c.clean(text); }
        case AssistantMessage(text) => if text != "" { assistant := c.clean(text); }
        case ToolCall(line) => if c.worklog && open && line != "" { parts := c.accumulate(parts, line); }
        case TaskComplete(id, at, message) =>
          var final := c.clean(message);
          if final == "" { final := assistant; }
          if final != "" && user != "" {
            var log := if c.worklog && parts != [] then c.render(parts) else "";
            completed := completed + [Turn(if id != "" then id else turnId, startedAt, at, user, final, log)];
          }
          open := false;
        case TurnAborted => open := false;
        case _ =>
      }
    }
    assert lines[..|lines|] == lines;
    view := ViewOf(c, Outcome(State(turnId, startedAt, user, assistant, open, parts, model), completed));
  }

  // ----- synchronisation ---------------------------------------------------------------------

  predicate SameButModel(a: State, b: State) { a == b.(model := a.model) }

  /** A turn start resets everything the parser remembers but the model, which nothing else looks at. */
  lemma TaskStartResets(c: Config)
    ensures Resets(Codex(c), SameButModel, line => IsStart(c, line))
  {
    forall s, t, line | IsStart(c, line) || SameButModel(s, t)
      ensures SameButModel(StepLine(c, s, line).0, StepLine(c, t, line).0) && StepLine(c, s, line).1 == StepLine(c, t, line).1
    {
    }
  }

  /** The model is the one thing a tail can miss, and only if no line of it names one. */
  lemma {:induction false} ModelFromTail(c: Config, s: State, lines: seq<string>)
    ensures Run(Codex(c), s, lines).state.model == if Run(Codex(c), INIT, lines).state.model != "" then Run(Codex(c), INIT, lines).state.model else s.model
  {
    if lines != [] { ModelFromTail(c, s, lines[..|lines| - 1]); }
  }

  /**
    Reading from a turn start on shows what a full read shows if and only if the
    part left out completed no turn or the tail completed as many as are exposed.
   */
  lemma TailViewExact(c: Config, before: seq<string>, tail: seq<string>)
    requires tail != [] && IsStart(c, tail[0])
    ensures ViewOf(c, Run(Codex(c), INIT, before + tail)) == ViewOf(c, Run(Codex(c), INIT, tail)) <==>
      Run(Codex(c), INIT, before).turns == [] || 0 < c.shown <= |Run(Codex(c), INIT, tail).turns|
  {
    TaskStartResets(c);
    TailExact(Codex(c), SameButModel, line => IsStart(c, line), before, tail, c.shown);
  }

  /** A tail accepted for its ends shows what the whole file shows, if markers alternate and every end completes a turn. */
  lemma AcceptedViewIsExact(c: Config, file: string, m: nat, n: nat)
    requires var isStart, isEnd := line => IsStart(c, line), line => IsEnd(c, line);
      && c.shown > 0 && AcceptedForEnds(file, m, n, isStart, isEnd, c.shown) && Alternate(Lines(file)[m..], isStart, isEnd)
      && EndsEmit(Codex(c), isEnd, Lines(file)[n..])
    ensures ViewOf(c, Run(Codex(c), INIT, Lines(file)[n..])) == ViewOf(c, Run(Codex(c), INIT, Lines(file)))
  {
    TaskStartResets(c);
    AcceptedTailIsExact(Codex(c), SameButModel, line => IsStart(c, line), line => IsEnd(c, line), file, m, n, c.shown);
  }

  // ----- when ends emit nothing ---------------------------------------------------------------------

  function Letters(line: string): Option<Event> {
    if line == "s" then Some(TaskStarted("", None))
    else if line == "u" then Some(UserMessage("q", false))
    else if line == "e" then Some(TaskComplete("", None, "a"))
    else None
  }

  /** Turns without a prompt: a start and an end each, and nothing emitted. */
  function Silent(n: nat): seq<string> { if n == 0 then [] else Silent(n - 1) + ["s", "e"] }

  lemma {:induction false} SilentShape(n: nat)
    ensures |Silent(n)| == 2 * n && forall i | 0 <= i < 2 * n :: Silent(n)[i] == if i % 2 == 0 then "s" else "e"
  {
    if n > 0 { SilentShape(n - 1); }
  }

  lemma SilentUnfold(n: nat)
    requires n > 0
    ensures var lines, mid := Silent(n), Silent(n - 1) + ["s"];
      |lines| >= 2 && lines[..|lines| - 1] == mid && mid[..|mid| - 1] == Silent(n - 1)
      && lines[|lines| - 1] == "e" && mid[|mid| - 1] == "s"
  {
  }

  lemma {:induction false} SilentTurns(c: Config, n: nat)
    requires c.parse == Letters
    ensures Run(Codex(c), INIT, Silent(n)).turns == [] && Run(Codex(c), INIT, Silent(n)).state.user == ""
  {
    if n > 0 {
      SilentTurns(c, n - 1);
      SilentUnfold(n);
      hide Silent;
      assert Run(Codex(c), INIT, Silent(n - 1) + ["s"]) == Advance(Codex(c), Run(Codex(c), INIT, Silent(n - 1)), "s");
    }
  }

  lemma {:induction false} SilentEnds(isEnd: Test, n: nat)
    requires isEnd("e") && !isEnd("s")
    ensures CountEnds(Silent(n), isEnd) == n
  {
    if n > 0 {
      SilentEnds(isEnd, n - 1);
      SilentUnfold(n);
      hide Silent;
      assert CountEnds(Silent(n - 1) + ["s"], isEnd) == CountEnds(Silent(n - 1), isEnd);
    }
  }

  lemma SilentAlternate(isStart: Test, isEnd: Test, n: nat)
    requires isStart("s") && !isEnd("s")
    ensures Alternate(Silent(n), isStart, isEnd)
  {
    var tail := Silent(n);
    SilentShape(n);
    hide Silent;
    forall i, j | 0 <= i < j < |tail| && Ends(tail[i], isEnd) && Ends(tail[j], isEnd)
      ensures exists k :: i < k < j && Starts(tail[k], isStart)
    {
      assert tail[i] == "e" && tail[j] == "e";
      assert Starts(tail[i + 1], isStart);
    }
  }

  /**
    The premise matters: completions without a prompt, one more than is shown, satisfy the
    window and alternate with starts, yet hide the only completed turn of the file.
   */
  lemma SilentEndsHideTurns(c: Config)
    requires c.parse == Letters && c.clean("q") == "q" && c.clean("a") == "a"
    ensures var tail, isStart, isEnd := Silent(c.shown + 1), line => IsStart(c, line), line => IsEnd(c, line);
      && tail != [] && Starts(tail[0], isStart) && Alternate(tail, isStart, isEnd) && CountEnds(tail, isEnd) == c.shown + 1
      && ViewOf(c, Run(Codex(c), INIT, tail)) != ViewOf(c, Run(Codex(c), INIT, ["s", "u", "e"] + tail))
  {
    var n := c.shown + 1;
    SilentShape(n);
    SilentTurns(c, n);
    SilentEnds(line => IsEnd(c, line), n);
    SilentAlternate(line => IsStart(c, line), line => IsEnd(c, line), n);
    OneTurn(c);
    hide Silent, Run, ViewOf, Alternate;
    TailViewExact(c, ["s", "u", "e"], Silent(n));
  }

  lemma OneTurn(c: Config)
    requires c.parse == Letters && c.clean("q") == "q" && c.clean("a") == "a"
    ensures Run(Codex(c), INIT, ["s", "u", "e"]).turns != []
  {
    var l3 := ["s", "u", "e"];
    assert l3[..2] == ["s", "u"] && ["s", "u"][..1] == ["s"] && ["s"][..0] == [];
    assert Run(Codex(c), INIT, ["s"]).state.user == "";
    assert Run(Codex(c), INIT, ["s", "u"]).state.user == "q";
  }
}
