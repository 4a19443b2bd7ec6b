/**
  The Kimi transcript parser: a user prompt resets everything it remembers, so a
  tail that starts at one needs only enough completed turns of its own.
 */
module KimiTranscript {
  import opened Options
  import opened TailParser
  import opened TailWindow

  /** A line that is valid JSON; texts are extracted and sanitized, unusable progress is empty; a joined text is sanitized once more. */
  datatype Event =
    | Prompt(text: string, startedAt: Option<string>, time: string)
    | Steer(text: string)
    | TextPart(step: string, text: string)
    | Progress(text: string)
    | StepEnd(step: string, endTurn: bool, completedAt: Option<string>)
    | Other

  datatype Config = Config(parse: string -> Option<Event>, clean: string -> string, blank: string -> bool, shown: nat)

  datatype Current = Current(time: string, startedAt: string, user: string)

  datatype Turn = Turn(prompt: Current, completedAt: Option<string>, final: string, worklog: string)

  datatype State = State(current: Option<Current>, steps: map<string, string>, progress: string)

  const INIT: State := State(None, map[], "")

  predicate IsStart(c: Config, line: string) { c.parse(line).Some? && c.parse(line).value.Prompt? }

  predicate IsEnd(c: Config, line: string) {
    c.parse(line).Some? && c.parse(line).value.StepEnd? && c.parse(line).value.endTurn
  }

  function TextOf(steps: map<string, string>, step: string): string { if step in steps then steps[step] else "" }

  function StepEvent(c: Config, s: State, e: Event): (State, Option<Turn>) {
    if e.Prompt? then
      if c.blank(e.text) || e.startedAt.None? then (INIT, None)
      else (State(Some(Current(e.time, e.startedAt.value, e.text)), map[], ""), None)
    else if s.current.None? then (s, None)
    else
      match e
      case Steer(text) =>
        if c.blank(text) then (s, None)
        else (s.(current := Some(s.current.value.(user := s.current.value.user + "\n\n" + text))), None)
      case TextPart(step, text) =>
        var joined := TextOf(s.steps, step) + text;
        (s.(steps := s.steps[step := joined], progress := if text != "" then joined else s.progress), None)
      case Progress(text) => (if text != "" then s.(progress := text) else s, None)
      case StepEnd(step, endTurn, at) =>
        var final := c.clean(TextOf(s.steps, step));
        if !endTurn || c.blank(final) then (s, None) else (INIT, Some(Turn(s.current.value, at, final, s.progress)))
      case _ => (s, None)
  }

  function StepLine(c: Config, s: State, line: string): (State, Option<Turn>) {
    var e := c.parse(line);
    if e.None? then (s, None) else StepEvent(c, s, e.value)
  }

  function Kimi(c: Config): Parser<State, Turn> { Parser(INIT, (s, line) => StepLine(c, s, line)) }

  datatype OpenTurn = OpenTurn(prompt: Current, stream: string)

  datatype View = View(recent: seq<Turn>, open: Option<OpenTurn>)

  function ViewOf(c: Config, o: Outcome<State, Turn>): View {
    View(Recent(o.turns, c.shown), if o.state.current.Some? then Some(OpenTurn(o.state.current.value, o.state.progress)) else None)
  }

  /** The parsing loop over the lines it was given. */
  method ExtractKimiTurn(c: Config, lines: seq<string>) returns (view: View)
    ensures view == ViewOf(c, Run(Kimi(c), INIT, lines))
  {
    var completed: seq<Turn> := [];
    var current: Option<Current> := None;
    var steps: map<string, string> := map[];
    var progress := "";
    for i := 0 to |lines|
      invariant Outcome(State(current, steps, progress), completed) == Run(Kimi(c), INIT, lines[..i])
    {
      assert lines[..i + 1][..i] == lines[..i];
      var parsed := c.parse(lines[i]);
      if parsed.None? { continue; }
      var e := parsed.value;
      if e.Prompt? {
        steps, progress := map[], "";
        if c.blank(e.text) || e.startedAt.None? {
          current := None;
        } else {
          current := Some(Current(e.time, e.startedAt.value, e.text));
        }
        continue;
      }
      if current.None? { continue; }
      match e {
        case Steer(text) =>
          if !c.blank(text) { current := Some(current.value.(user := current.value.user + "\n\n" + text)); }
        case TextPart(step, text) =>
          steps := steps[step := TextOf(steps, step) + text];
          if text != "" { progress := steps[step]; }
        case Progress(text) => if text != "" { progress := text; }
        case StepEnd(step, endTurn, at) =>
          var final := c.clean(TextOf(steps, step));
          if endTurn && !c.blank(final) {
            completed := completed + [Turn(current.value, at, final, progress)];
            current, steps, progress := None, map[], "";
          }
        case _ =>
      }
    }
    assert lines[..|lines|] == lines;
    view := ViewOf(c, Outcome(State(current, steps, progress), completed));
  }

  // ----- synchronisation ------------------------------------------------------------------

  /** A user prompt resets the parser completely. */
  lemma PromptResets(c: Config)
    ensures Resets(Kimi(c), (s, t) => s == t, line => IsStart(c, line))
  {
    forall s, t, line | IsStart(c, line) ensures StepLine(c, s, line) == StepLine(c, t, line) { }
  }

  /** Reading from a prompt on shows what a full read shows exactly under the counting condition. */
  lemma TailViewExact(c: Config, before: seq<string>, tail: seq<string>)
    requires tail != [] && IsStart(c, tail[0])
    ensures ViewOf(c, Run(Kimi(c), INIT, before + tail)) == ViewOf(c, Run(Kimi(c), INIT, tail)) <==>
      Run(Kimi(c), INIT, before).turns == [] || 0 < c.shown <= |Run(Kimi(c), INIT, tail).turns|
  {
    PromptResets(c);
    TailExact(Kimi(c), (s, t) => s == t, line => IsStart(c, line), before, tail, c.shown);
  }

  /** A tail accepted for its ends shows what the whole file shows, if markers alternate and every end completes a turn. */
  lemma AcceptedViewIsExact(c: Config, file: string, m: nat, n: nat)
    requires var isStart, isEnd := line => IsStart(c, line), line => IsEnd(c, line);
      && c.shown > 0 && AcceptedForEnds(file, m, n, isStart, isEnd, c.shown) && Alternate(Lines(file)[m..], isStart, isEnd)
      && EndsEmit(Kimi(c), isEnd, Lines(file)[n..])
    ensures ViewOf(c, Run(Kimi(c), INIT, Lines(file)[n..])) == ViewOf(c, Run(Kimi(c), INIT, Lines(file)))
  {
    PromptResets(c);
    AcceptedTailIsExact(Kimi(c), (s, t) => s == t, line => IsStart(c, line), line => IsEnd(c, line), file, m, n, c.shown);
  }
}
