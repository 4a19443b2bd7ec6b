/**
  Line parsers that a turn start resynchronises, and what that makes of parsing
  only a tail: exactly when the exposed turns are those of the whole file.
 */
module TailParser {
  import opened Options
  import opened TailWindow

  /** A parser reads one line at a time and completes at most one turn with it. */
  datatype Parser<!S, !T> = Parser(init: S, step: (S, string) -> (S, Option<T>))

  datatype Outcome<S, T> = Outcome(state: S, turns: seq<T>)

  function Advance<S, T>(p: Parser<S, T>, o: Outcome<S, T>, line: string): Outcome<S, T> {
    var (s, turn) := p.step(o.state, line);
    Outcome(s, if turn.Some? then o.turns + [turn.value] else o.turns)
  }

  /** The parser on `lines` from a state, with the turns it appends. */
  function Run<S, T>(p: Parser<S, T>, s: S, lines: seq<string>): Outcome<S, T> {
    if lines == [] then Outcome(s, []) else Advance(p, Run(p, s, lines[..|lines| - 1]), lines[|lines| - 1])
  }

  lemma {:induction false} RunConcat<S, T>(p: Parser<S, T>, s: S, a: seq<string>, b: seq<string>)
    ensures Run(p, s, a + b) ==
      Outcome(Run(p, Run(p, s, a).state, b).state, Run(p, s, a).turns + Run(p, Run(p, s, a).state, b).turns)
  {
    if b == [] {
      assert a + b == a;
    } else {
      var n := |b| - 1;
      assert (a + b)[..|a + b| - 1] == a + b[..n];
      RunConcat(p, s, a, b[..n]);
    }
  }

  /**
    A start line takes any two states to states that are the `same`, and from then
    on the parser treats them alike.
   */
  ghost predicate Resets<S(!new), T(!new)>(p: Parser<S, T>, same: (S, S) -> bool, isStart: Test) {
    && (forall s, t, line | isStart(line) ::
          same(p.step(s, line).0, p.step(t, line).0) && p.step(s, line).1 == p.step(t, line).1)
    && (forall s, t, line | same(s, t) ::
          same(p.step(s, line).0, p.step(t, line).0) && p.step(s, line).1 == p.step(t, line).1)
  }

  /** From any two states, lines that begin with a start complete the same turns and reach the same state. */
  lemma {:induction false} StartResynchronises<S(!new), T(!new)>(
      p: Parser<S, T>, same: (S, S) -> bool, isStart: Test, s: S, t: S, lines: seq<string>)
    requires Resets(p, same, isStart) && lines != [] && isStart(lines[0])
    ensures Run(p, s, lines).turns == Run(p, t, lines).turns
    ensures same(Run(p, s, lines).state, Run(p, t, lines).state)
  {
    var n := |lines| - 1;
    if n > 0 {
      StartResynchronises(p, same, isStart, s, t, lines[..n]);
    } else {
      assert lines[..0] == [];
    }
  }

  /**
    Parsing from a start line on exposes the turns of the whole file if and only if
    the part left out completed none or the tail completed as many as are exposed.
   */
  lemma TailExact<S(!new), T(!new)>(
      p: Parser<S, T>, same: (S, S) -> bool, isStart: Test, before: seq<string>, tail: seq<string>, shown: nat)
    requires Resets(p, same, isStart) && tail != [] && isStart(tail[0])
    ensures var full, short, first := Run(p, p.init, before + tail), Run(p, p.init, tail), Run(p, p.init, before).turns;
      && same(full.state, short.state) && full.turns == first + short.turns
      && (Recent(full.turns, shown) == Recent(short.turns, shown) <==> first == [] || 0 < shown <= |short.turns|)
  {
    RunConcat(p, p.init, before, tail);
    StartResynchronises(p, same, isStart, Run(p, p.init, before).state, p.init, tail);
    RecentExact(Run(p, p.init, before).turns, Run(p, p.init, tail).turns, shown);
  }

  /** Every end marker of these lines completes a turn. */
  ghost predicate EndsEmit<S, T>(p: Parser<S, T>, isEnd: Test, lines: seq<string>) {
    forall k | 0 <= k < |lines| && Ends(lines[k], isEnd) ::
      |Run(p, p.init, lines[..k + 1]).turns| == |Run(p, p.init, lines[..k]).turns| + 1
  }

  lemma {:induction false} EndsAreTurns<S, T>(p: Parser<S, T>, isEnd: Test, lines: seq<string>)
    requires EndsEmit(p, isEnd, lines)
    ensures |Run(p, p.init, lines).turns| >= CountEnds(lines, isEnd)
  {
    if lines != [] {
      var n := |lines| - 1;
      forall k | 0 <= k < n && Ends(lines[..n][k], isEnd)
        ensures |Run(p, p.init, lines[..n][..k + 1]).turns| == |Run(p, p.init, lines[..n][..k]).turns| + 1
      {
        assert lines[..n][..k + 1] == lines[..k + 1] && lines[..n][..k] == lines[..k];
      }
      EndsAreTurns(p, isEnd, lines[..n]);
      assert lines[..n + 1] == lines;
    }
  }

  /** The tail from line `n` was accepted because the window from line `m` on held one end more than is exposed. */
  ghost predicate AcceptedForEnds(file: string, m: nat, n: nat, isStart: Test, isEnd: Test, shown: nat) {
    && m <= n < |Lines(file)| && isStart(Lines(file)[n])
    && (forall i | m <= i < n :: !Starts(Lines(file)[i], isStart))
    && CountEnds(Lines(file)[m..], isEnd) >= shown + 1
  }

  /**
    When starts and ends alternate in the window and every end of the tail completes
    a turn, the tail so accepted exposes exactly what the whole file exposes.
   */
  lemma AcceptedTailIsExact<S(!new), T(!new)>(
      p: Parser<S, T>, same: (S, S) -> bool, isStart: Test, isEnd: Test, file: string, m: nat, n: nat, shown: nat)
    requires shown > 0 && Resets(p, same, isStart) && AcceptedForEnds(file, m, n, isStart, isEnd, shown)
    requires Alternate(Lines(file)[m..], isStart, isEnd) && EndsEmit(p, isEnd, Lines(file)[n..])
    ensures var full, short := Run(p, p.init, Lines(file)), Run(p, p.init, Lines(file)[n..]);
      same(full.state, short.state) && Recent(full.turns, shown) == Recent(short.turns, shown)
      && (full.turns == [] <==> short.turns == [])
  {
    var tail := Lines(file)[n..];
    EnoughEnds(file, m, n, isStart, isEnd, shown);
    EndsAreTurns(p, isEnd, tail);
    assert Lines(file) == Lines(file)[..n] + tail;
    TailExact(p, same, isStart, Lines(file)[..n], tail, shown);
  }
}
