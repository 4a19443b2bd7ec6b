/**
  What the turns of a Codex transcript say, read off the log alone: for every
  completion which prompt, which reply, which id and which times it pairs.
 */
module CodexContents {
  import opened Options
  import opened TailParser
  import opened TailWindow
  import opened CodexTranscript

  /** The last line before `to`, and not before `from`, that passes. */
  function LastAt(lines: seq<string>, passes: Test, from: nat, to: nat): (r: Option<nat>)
    requires to <= |lines|
    ensures r.Some? ==> from <= r.value < to && passes(lines[r.value])
    ensures forall i | (if r.Some? then r.value + 1 else from) <= i < to :: !passes(lines[i])
  {
    if to <= from then None
    else if passes(lines[to - 1]) then Some(to - 1) else LastAt(lines, passes, from, to - 1)
  }

  // ----- lines that matter --------------------------------------------------------------

  /** A user message that is not the program's own. */
  predicate IsPrompt(c: Config, line: string) {
    c.parse(line).Some? && c.parse(line).value.UserMessage? && c.parse(line).value.text != "" && !c.parse(line).value.isInternal
  }

  predicate IsReply(c: Config, line: string) {
    c.parse(line).Some? && c.parse(line).value.AssistantMessage? && c.parse(line).value.text != ""
  }

  predicate NamesModel(c: Config, line: string) {
    c.parse(line).Some? && c.parse(line).value.Context? && c.parse(line).value.model != ""
  }

  predicate Closes(c: Config, line: string) {
    c.parse(line).Some? && (c.parse(line).value.TaskComplete? || c.parse(line).value.TurnAborted?)
  }

  predicate IsTool(c: Config, line: string) {
    c.worklog && c.parse(line).Some? && c.parse(line).value.ToolCall? && c.parse(line).value.line != ""
  }

  // ----- the log before a line ------------------------------------------------------------

  /** The turn start in force before line `n`. */
  function StartBefore(c: Config, lines: seq<string>, n: nat): (r: Option<nat>)
    requires n <= |lines|
    ensures r.Some? ==> r.value < n && IsStart(c, lines[r.value])
  { LastAt(lines, line => IsStart(c, line), 0, n) }

  function Since(c: Config, lines: seq<string>, n: nat): (from: nat)
    requires n <= |lines|
    ensures from <= n
  { if StartBefore(c, lines, n).Some? then StartBefore(c, lines, n).value + 1 else 0 }

  /** The last prompt since that start. */
  function PromptBefore(c: Config, lines: seq<string>, n: nat): string
    requires n <= |lines|
  {
    var at := LastAt(lines, line => IsPrompt(c, line), Since(c, lines, n), n);
    if at.Some? then c.clean(c.parse(lines[at.value]).value.text) else ""
  }

  /** The last assistant message since that start. */
  function ReplyBefore(c: Config, lines: seq<string>, n: nat): string
    requires n <= |lines|
  {
    var at := LastAt(lines, line => IsReply(c, line), Since(c, lines, n), n);
    if at.Some? then c.clean(c.parse(lines[at.value]).value.text) else ""
  }

  function ModelBefore(c: Config, lines: seq<string>, n: nat): string
    requires n <= |lines|
  {
    var at := LastAt(lines, line => NamesModel(c, line), 0, n);
    if at.Some? then c.parse(lines[at.value]).value.model else ""
  }

  function IdBefore(c: Config, lines: seq<string>, n: nat): string
    requires n <= |lines|
  { var at := StartBefore(c, lines, n); if at.Some? then c.parse(lines[at.value]).value.turnId else "" }

  function StartedBefore(c: Config, lines: seq<string>, n: nat): Option<string>
    requires n <= |lines|
  { var at := StartBefore(c, lines, n); if at.Some? then c.parse(lines[at.value]).value.startedAt else None }

  /** A turn has started and neither completed nor aborted since. */
  predicate OpenBefore(c: Config, lines: seq<string>, n: nat)
    requires n <= |lines|
  {
    StartBefore(c, lines, n).Some? && LastAt(lines, line => Closes(c, line), Since(c, lines, n), n).None?
  }

  /** The tool calls of the turn in force, made while it was open. */
  function ToolsBefore(c: Config, lines: seq<string>, n: nat): seq<string>
    requires n <= |lines|
  {
    if n == 0 || IsStart(c, lines[n - 1]) then []
    else if IsTool(c, lines[n - 1]) && OpenBefore(c, lines, n - 1) then
      c.accumulate(ToolsBefore(c, lines, n - 1), c.parse(lines[n - 1]).value.line)
    else ToolsBefore(c, lines, n - 1)
  }

  // ----- the turns of the log -----------------------------------------------------------------

  /** The turn a line completes: there must be a prompt, and a reply of its own or before it. */
  function TurnAt(c: Config, lines: seq<string>, n: nat): Option<Turn>
    requires n < |lines|
  {
    if !IsEnd(c, lines[n]) then None
    else
      var e := c.parse(lines[n]).value;
      var own := c.clean(e.lastMessage);
      var final := if own == "" then ReplyBefore(c, lines, n) else own;
      var tools := ToolsBefore(c, lines, n);
      if PromptBefore(c, lines, n) == "" || final == "" then None
      else Some(Turn(turnId := if e.turnId == "" then IdBefore(c, lines, n) else e.turnId,
                     startedAt := StartedBefore(c, lines, n), completedAt := e.completedAt,
                     user := PromptBefore(c, lines, n), final := final,
                     worklog := if c.worklog && tools != [] then c.render(tools) else ""))
  }

  function TurnsBefore(c: Config, lines: seq<string>, n: nat): seq<Turn>
    requires n <= |lines|
  {
    if n == 0 then []
    else TurnsBefore(c, lines, n - 1) + if TurnAt(c, lines, n - 1).Some? then [TurnAt(c, lines, n - 1).value] else []
  }

  function StateBefore(c: Config, lines: seq<string>, n: nat): State
    requires n <= |lines|
  {
    State(turnId := IdBefore(c, lines, n), startedAt := StartedBefore(c, lines, n), user := PromptBefore(c, lines, n),
          assistant := ReplyBefore(c, lines, n), open := OpenBefore(c, lines, n), parts := ToolsBefore(c, lines, n),
          model := ModelBefore(c, lines, n))
  }

  lemma StartMeans(c: Config, lines: seq<string>, n: nat)
    requires n < |lines|
    ensures Since(c, lines, n + 1) == if IsStart(c, lines[n]) then n + 1 else Since(c, lines, n)
    ensures StartBefore(c, lines, n + 1) == if IsStart(c, lines[n]) then Some(n) else StartBefore(c, lines, n)
  {
  }

  lemma PromptMeans(c: Config, lines: seq<string>, n: nat)
    requires n < |lines|
    ensures PromptBefore(c, lines, n + 1) ==
      if IsStart(c, lines[n]) then "" else if IsPrompt(c, lines[n]) then c.clean(c.parse(lines[n]).value.text) else PromptBefore(c, lines, n)
  {
    StartMeans(c, lines, n);
    hide Since;
  }

  lemma ReplyMeans(c: Config, lines: seq<string>, n: nat)
    requires n < |lines|
    ensures ReplyBefore(c, lines, n + 1) ==
      if IsStart(c, lines[n]) then "" else if IsReply(c, lines[n]) then c.clean(c.parse(lines[n]).value.text) else ReplyBefore(c, lines, n)
  {
    StartMeans(c, lines, n);
    hide Since;
  }

  lemma OpenMeans(c: Config, lines: seq<string>, n: nat)
    requires n < |lines|
    ensures OpenBefore(c, lines, n + 1) <==> IsStart(c, lines[n]) || (OpenBefore(c, lines, n) && !Closes(c, lines[n]))
  {
    StartMeans(c, lines, n);
    hide Since;
  }

  lemma HeaderMeans(c: Config, lines: seq<string>, n: nat)
    requires n < |lines|
    ensures IdBefore(c, lines, n + 1) == if IsStart(c, lines[n]) then c.parse(lines[n]).value.turnId else IdBefore(c, lines, n)
    ensures StartedBefore(c, lines, n + 1) == if IsStart(c, lines[n]) then c.parse(lines[n]).value.startedAt else StartedBefore(c, lines, n)
    ensures ModelBefore(c, lines, n + 1) == if NamesModel(c, lines[n]) then c.parse(lines[n]).value.model else ModelBefore(c, lines, n)
  {
    StartMeans(c, lines, n);
  }

  lemma ToolsMeans(c: Config, lines: seq<string>, n: nat)
    requires n < |lines|
    ensures ToolsBefore(c, lines, n + 1) ==
      if IsStart(c, lines[n]) then []
      else if IsTool(c, lines[n]) && OpenBefore(c, lines, n) then c.accumulate(ToolsBefore(c, lines, n), c.parse(lines[n]).value.line)
      else ToolsBefore(c, lines, n)
  {
    hide OpenBefore;
  }

  /** What one line does to each field of the parser's state. */
  lemma StepFields(c: Config, s: State, line: string)
    ensures var s' := StepLine(c, s, line).0;
      && s'.user == (if IsStart(c, line) then "" else if IsPrompt(c, line) then c.clean(c.parse(line).value.text) else s.user)
      && s'.assistant == (if IsStart(c, line) then "" else if IsReply(c, line) then c.clean(c.parse(line).value.text) else s.assistant)
      && s'.turnId == (if IsStart(c, line) then c.parse(line).value.turnId else s.turnId)
      && s'.startedAt == (if IsStart(c, line) then c.parse(line).value.startedAt else s.startedAt)
      && s'.model == (if NamesModel(c, line) then c.parse(line).value.model else s.model)
      && (s'.open <==> IsStart(c, line) || (s.open && !Closes(c, line)))
      && s'.parts == (if IsStart(c, line) then [] else if IsTool(c, line) && s.open then c.accumulate(s.parts, c.parse(line).value.line) else s.parts)
  {
  }

  /** One more line moves what the log says as the parser's step moves its state. */
  lemma LineMeans(c: Config, lines: seq<string>, n: nat)
    requires n < |lines|
    ensures StateBefore(c, lines, n + 1) == StepLine(c, StateBefore(c, lines, n), lines[n]).0
  {
    hide PromptBefore, ReplyBefore, IdBefore, StartedBefore, OpenBefore, ModelBefore, ToolsBefore, StepLine, IsStart, IsPrompt, IsReply, NamesModel, Closes, IsTool;
    StepFields(c, StateBefore(c, lines, n), lines[n]);
    PromptMeans(c, lines, n);
    ReplyMeans(c, lines, n);
    OpenMeans(c, lines, n);
    HeaderMeans(c, lines, n);
    ToolsMeans(c, lines, n);
    var s, s' := StateBefore(c, lines, n + 1), StepLine(c, StateBefore(c, lines, n), lines[n]).0;
    assert s.user == s'.user && s.assistant == s'.assistant && s.parts == s'.parts;
  }

  lemma LineCompletes(c: Config, lines: seq<string>, n: nat)
    requires n < |lines|
    ensures TurnAt(c, lines, n) == StepLine(c, StateBefore(c, lines, n), lines[n]).1
  {
    hide PromptBefore, ReplyBefore, IdBefore, StartedBefore, OpenBefore, ToolsBefore, ModelBefore;
  }

  lemma NothingBefore(c: Config, lines: seq<string>)
    ensures StateBefore(c, lines, 0) == INIT
  {
  }

  lemma {:induction false} RunMeans(c: Config, lines: seq<string>, n: nat)
    requires n <= |lines|
    ensures Run(Codex(c), INIT, lines[..n]) == Outcome(StateBefore(c, lines, n), TurnsBefore(c, lines, n))
  {
    hide StateBefore, TurnAt;
    if n == 0 {
      NothingBefore(c, lines);
    } else {
      RunMeans(c, lines, n - 1);
      LineMeans(c, lines, n - 1);
      LineCompletes(c, lines, n - 1);
      assert lines[..n][..n - 1] == lines[..n - 1];
      hide StepLine;
      assert Run(Codex(c), INIT, lines[..n]) == Advance(Codex(c), Run(Codex(c), INIT, lines[..n - 1]), lines[n - 1]);
    }
  }

  /** The turn that is open at the end of the log. */
  function OpenAtEnd(c: Config, lines: seq<string>): Option<OpenTurn> {
    var n := |lines|;
    if OpenBefore(c, lines, n)
    then Some(OpenTurn(turnId := IdBefore(c, lines, n), user := PromptBefore(c, lines, n), stream := ReplyBefore(c, lines, n)))
    else None
  }

  /**
    What the parser reports, from the log alone: the recent turns among those its
    completions make, and the open turn beside or instead of them.
   */
  lemma ViewFromLog(c: Config, lines: seq<string>)
    ensures var view, turns, open := ViewOf(c, Run(Codex(c), INIT, lines)), TurnsBefore(c, lines, |lines|), OpenAtEnd(c, lines);
      && (view.NothingYet? <==> turns == [] && open.None?)
      && (view.OpenOnly? <==> turns == [] && open.Some?) && (view.OpenOnly? ==> open == Some(view.turn))
      && (view.Completed? ==> view.open == open && view.recent == Recent(turns, c.shown))
    ensures Run(Codex(c), INIT, lines).state.model == ModelBefore(c, lines, |lines|)
  {
    RunMeans(c, lines, |lines|);
    assert lines[..|lines|] == lines;
    hide TurnsBefore, IdBefore, PromptBefore, ReplyBefore, ToolsBefore, ModelBefore, StartedBefore, OpenBefore, Recent;
  }

  /**
    Every completed turn has its own prompt and reply: some completion
    line ends it, its prompt is the last one before that line since the turn start,
    and its final text is the completion's own, or the last assistant message since.
   */
  lemma CompletedTurnSays(c: Config, lines: seq<string>, k: nat) returns (at: nat, prompt: nat)
    requires k < |Run(Codex(c), INIT, lines).turns|
    ensures at < |lines| && IsEnd(c, lines[at]) && TurnAt(c, lines, at) == Some(Run(Codex(c), INIT, lines).turns[k])
    ensures prompt < at && IsPrompt(c, lines[prompt])
    ensures forall i | prompt < i < at :: !IsPrompt(c, lines[i]) && !IsStart(c, lines[i])
    ensures var t, e := Run(Codex(c), INIT, lines).turns[k], c.parse(lines[at]).value;
      && t.user == c.clean(c.parse(lines[prompt]).value.text) != "" && t.completedAt == e.completedAt
      && (c.clean(e.lastMessage) != "" ==> t.final == c.clean(e.lastMessage))
      && (c.clean(e.lastMessage) == "" ==>
            exists j: nat :: j < at && IsReply(c, lines[j]) && t.final == c.clean(c.parse(lines[j]).value.text)
                        && forall i | j < i < at :: !IsReply(c, lines[i]) && !IsStart(c, lines[i]))
  {
    hide ToolsBefore, OpenBefore, TurnsBefore, TurnAt, Run, PromptBefore, ReplyBefore;
    RunMeans(c, lines, |lines|);
    assert lines[..|lines|] == lines;
    at := TurnOrigin(c, lines, |lines|, k);
    prompt := TurnSays(c, lines, at, Run(Codex(c), INIT, lines).turns[k]);
  }

  lemma TurnSays(c: Config, lines: seq<string>, at: nat, t: Turn) returns (prompt: nat)
    requires at < |lines| && TurnAt(c, lines, at) == Some(t)
    ensures prompt < at && IsPrompt(c, lines[prompt])
    ensures forall i | prompt < i < at :: !IsPrompt(c, lines[i]) && !IsStart(c, lines[i])
    ensures var e := c.parse(lines[at]).value;
      && e.TaskComplete? && t.user == c.clean(c.parse(lines[prompt]).value.text) != "" && t.completedAt == e.completedAt
      && (c.clean(e.lastMessage) != "" ==> t.final == c.clean(e.lastMessage))
      && (c.clean(e.lastMessage) == "" ==>
            exists j: nat :: j < at && IsReply(c, lines[j]) && t.final == c.clean(c.parse(lines[j]).value.text)
                             && forall i | j < i < at :: !IsReply(c, lines[i]) && !IsStart(c, lines[i]))
  {
    hide ToolsBefore, IdBefore, StartedBefore;
    prompt := LastAt(lines, line => IsPrompt(c, line), Since(c, lines, at), at).value;
    if c.clean(c.parse(lines[at]).value.lastMessage) == "" {
      var j := LastAt(lines, line => IsReply(c, line), Since(c, lines, at), at).value;
      assert IsReply(c, lines[j]);
    }
  }

  lemma {:induction false} TurnOrigin(c: Config, lines: seq<string>, n: nat, k: nat) returns (at: nat)
    requires n <= |lines| && k < |TurnsBefore(c, lines, n)|
    ensures at < n && IsEnd(c, lines[at]) && TurnAt(c, lines, at) == Some(TurnsBefore(c, lines, n)[k])
  {
    if k < |TurnsBefore(c, lines, n - 1)| { at := TurnOrigin(c, lines, n - 1, k); } else { at := n - 1; }
  }
}
