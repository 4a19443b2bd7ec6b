/**
  Reading the recent tail of a large line file: the window that doubles until it
  holds enough completed turns, and why its lines are a suffix of the file's.
 */
module TailWindow {
  import opened Numbers
  import opened Options

  // ----- lines ----------------------------------------------------------------------

  /** `split("\n")`; a file's bytes are its characters here. */
  function Lines(s: string): (r: seq<string>)
    ensures |r| > 0
  {
    if s == "" then [""]
    else
      var rest := Lines(s[1..]);
      if s[0] == '\n' then [""] + rest else [[s[0]] + rest[0]] + rest[1..]
  }

  lemma LinesNext(s: string)
    requires s != ""
    ensures Lines(s)[1..] == if s[0] == '\n' then Lines(s[1..]) else Lines(s[1..])[1..]
    ensures |Lines(s)| == |Lines(s[1..])| + if s[0] == '\n' then 1 else 0
  {
  }

  /** Dropping bytes from the front changes at most the first remaining line. */
  lemma {:induction false} SuffixLines(s: string, k: nat)
    requires k <= |s|
    ensures |Lines(s[k..])| <= |Lines(s)|
    ensures Lines(s[k..])[1..] == Lines(s)[|Lines(s)| - |Lines(s[k..])| + 1..]
  {
    if k > 0 {
      SuffixLines(s[1..], k - 1);
      assert s[1..][k - 1..] == s[k..];
      LinesNext(s);
      hide Lines;
      var all, rest := Lines(s), Lines(s[1..]);
      var from := |all| - |Lines(s[k..])| + 1;
      assert all[from..] == all[1..][from - 1..];
    } else {
      assert s[0..] == s;
    }
  }

  // ----- the window ---------------------------------------------------------------------

  type Test = string -> bool

  function CountEnds(lines: seq<string>, isEnd: Test): nat {
    if lines == [] then 0
    else
      var last := lines[|lines| - 1];
      CountEnds(lines[..|lines| - 1], isEnd) + if Ends(last, isEnd) then 1 else 0
  }

  predicate Starts(line: string, isStart: Test) { line != "" && isStart(line) }

  predicate Ends(line: string, isEnd: Test) { line != "" && isEnd(line) }

  /** The lines a window of the last `window` bytes keeps: its partial first line is dropped. */
  function WindowLines(file: string, window: nat): seq<string> {
    if |file| > window then Lines(file[|file| - window..])[1..] else Lines(file)
  }

  lemma WindowIsSuffix(file: string, window: nat) returns (m: nat)
    ensures m <= |Lines(file)| && WindowLines(file, window) == Lines(file)[m..]
  {
    if |file| > window {
      SuffixLines(file, |file| - window);
      m := |Lines(file)| - |Lines(file[|file| - window..])| + 1;
    } else {
      m := 0;
    }
  }

  function Doubled(window: nat, size: nat, ceiling: nat): nat { Min(window * 2, Min(size, ceiling)) }

  predicate AtCeiling(window: nat, size: nat, ceiling: nat) { size <= window || window >= ceiling }

  /** A positive window that is not at its ceiling grows; an empty one never does. */
  lemma WindowGrows(window: nat, size: nat, ceiling: nat)
    requires !AtCeiling(window, size, ceiling)
    ensures window >= 1 ==> window < Doubled(window, size, ceiling) <= Min(size, ceiling)
    ensures window == 0 ==> Doubled(window, size, ceiling) == 0
  {
  }

  /** `lines` is the file from its `n`th line on, and starts a turn. */
  predicate StartsAt(file: string, lines: seq<string>, n: nat, isStart: Test) {
    n < |Lines(file)| && lines == Lines(file)[n..] && Starts(lines[0], isStart)
  }

  /**
    Why a window was accepted: the file's lines from `m` on hold no turn start
    before `n`, and either enough ends or all that may be read.
   */
  ghost predicate Sufficient(file: string, m: nat, n: nat, isStart: Test, isEnd: Test, minTurns: nat, ceiling: nat) {
    && m <= n <= |Lines(file)|
    && (forall i | m <= i < n :: !Starts(Lines(file)[i], isStart))
    && (CountEnds(Lines(file)[m..], isEnd) >= minTurns + 1
        || exists window: nat :: AtCeiling(window, |file|, ceiling) && WindowLines(file, window) == Lines(file)[m..])
  }

  predicate NoStart(lines: seq<string>, isStart: Test) { forall i | 0 <= i < |lines| :: !Starts(lines[i], isStart) }

  /** The window holds no turn start, or too few ends. */
  predicate Lacking(file: string, window: nat, isStart: Test, isEnd: Test, minTurns: nat) {
    NoStart(WindowLines(file, window), isStart) || CountEnds(WindowLines(file, window), isEnd) <= minTurns
  }

  /** No more was read than asked for, or than twice a window that was lacking. */
  ghost predicate Needed(file: string, window: nat, isStart: Test, isEnd: Test, cap: nat, minTurns: nat) {
    window <= cap || exists less: nat :: less < window <= 2 * less && Lacking(file, less, isStart, isEnd, minTurns)
  }

  /** The lines come from a window that was needed. */
  ghost predicate ReadFrom(file: string, lines: seq<string>, window: nat, isStart: Test, isEnd: Test, cap: nat, minTurns: nat) {
    var all := WindowLines(file, window);
    |lines| <= |all| && lines == all[|all| - |lines|..] && Needed(file, window, isStart, isEnd, cap, minTurns)
  }

  method ScanWindow(lines: seq<string>, isStart: Test, isEnd: Test) returns (first: Option<nat>, completed: nat)
    ensures completed == CountEnds(lines, isEnd)
    ensures first.Some? ==> first.value < |lines| && Starts(lines[first.value], isStart)
    ensures forall i | 0 <= i < (if first.Some? then first.value else |lines|) :: !Starts(lines[i], isStart)
  {
    first, completed := None, 0;
    for i := 0 to |lines|
      invariant completed == CountEnds(lines[..i], isEnd)
      invariant first.Some? ==> first.value < i && Starts(lines[first.value], isStart)
      invariant forall k | 0 <= k < (if first.Some? then first.value else i) :: !Starts(lines[k], isStart)
    {
      assert lines[..i + 1][..i] == lines[..i];
      if lines[i] == "" { continue; }
      if first.None? && isStart(lines[i]) { first := Some(i); }
      if isEnd(lines[i]) { completed := completed + 1; }
    }
    assert lines[..|lines|] == lines;
  }

  /** What the window search may answer: a tail that suffices, or nothing because even the ceiling holds no start; and from how much. */
  ghost predicate Answers(file: string, lines: seq<string>, isStart: Test, isEnd: Test, cap: nat, minTurns: nat, ceiling: nat) {
    && (exists window: nat :: ReadFrom(file, lines, window, isStart, isEnd, cap, minTurns))
    && if lines == [] then exists window: nat :: AtCeiling(window, |file|, ceiling) && NoStart(WindowLines(file, window), isStart)
       else exists m, n :: StartsAt(file, lines, n, isStart) && Sufficient(file, m, n, isStart, isEnd, minTurns, ceiling)
  }

  lemma AcceptedWindow(file: string, window: nat, k: nat, isStart: Test, isEnd: Test, cap: nat, minTurns: nat, ceiling: nat)
    requires Needed(file, window, isStart, isEnd, cap, minTurns) && k < |WindowLines(file, window)|
    requires Starts(WindowLines(file, window)[k], isStart)
    requires forall i | 0 <= i < k :: !Starts(WindowLines(file, window)[i], isStart)
    requires CountEnds(WindowLines(file, window), isEnd) >= minTurns + 1 || AtCeiling(window, |file|, ceiling)
    ensures Answers(file, WindowLines(file, window)[k..], isStart, isEnd, cap, minTurns, ceiling)
  {
    var m := WindowIsSuffix(file, window);
    var all := WindowLines(file, window);
    hide Starts, CountEnds, Lines, WindowLines, Needed;
    assert ReadFrom(file, all[k..], window, isStart, isEnd, cap, minTurns);
    forall i | m <= i < m + k ensures !Starts(Lines(file)[i], isStart) { assert Lines(file)[i] == all[i - m]; }
    assert StartsAt(file, all[k..], m + k, isStart);
    assert Sufficient(file, m, m + k, isStart, isEnd, minTurns, ceiling);
  }

  lemma NothingStarts(file: string, window: nat, isStart: Test, isEnd: Test, cap: nat, minTurns: nat, ceiling: nat)
    requires Needed(file, window, isStart, isEnd, cap, minTurns) && AtCeiling(window, |file|, ceiling)
    requires NoStart(WindowLines(file, window), isStart)
    ensures Answers(file, [], isStart, isEnd, cap, minTurns, ceiling)
  {
    hide WindowLines, Needed;
    assert ReadFrom(file, [], window, isStart, isEnd, cap, minTurns);
  }

  lemma WindowChunk(file: string, window: nat)
    ensures var start := if |file| > window then |file| - window else 0;
      WindowLines(file, window) == if start > 0 then Lines(file[start..])[1..] else Lines(file[start..])
  {
    assert file[0..] == file;
  }

  lemma NeededNext(file: string, window: nat, isStart: Test, isEnd: Test, cap: nat, minTurns: nat, ceiling: nat)
    requires window >= 1 && !AtCeiling(window, |file|, ceiling) && Lacking(file, window, isStart, isEnd, minTurns)
    ensures Needed(file, Doubled(window, |file|, ceiling), isStart, isEnd, cap, minTurns)
  {
    hide Lacking;
    WindowGrows(window, |file|, ceiling);
  }

  /** The doubling loop; it ends because a positive cap strictly grows to its ceiling. */
  method JsonlTailLines(file: string, isStart: Test, isEnd: Test, cap: nat, minTurns: nat, ceiling: nat) returns (lines: seq<string>)
    requires cap >= 1
    ensures Answers(file, lines, isStart, isEnd, cap, minTurns, ceiling)
  {
    var window := cap;
    assert Needed(file, window, isStart, isEnd, cap, minTurns);
    hide Needed, Answers, Lines, CountEnds, Starts, WindowLines;
    while true
      invariant window >= 1 && Needed(file, window, isStart, isEnd, cap, minTurns)
      decreases if AtCeiling(window, |file|, ceiling) then 0 else Min(|file|, ceiling) - window
    {
      var start := if |file| > window then |file| - window else 0;
      var chunk := Lines(file[start..]);
      WindowChunk(file, window);
      if start > 0 { chunk := chunk[1..]; }
      var first, completed := ScanWindow(chunk, isStart, isEnd);
      var atCeiling := start == 0 || window >= ceiling;
      if first.Some? && (completed >= minTurns + 1 || atCeiling) {
        AcceptedWindow(file, window, first.value, isStart, isEnd, cap, minTurns, ceiling);
        return chunk[first.value..];
      }
      if atCeiling {
        NothingStarts(file, window, isStart, isEnd, cap, minTurns, ceiling);
        return [];
      }
      NeededNext(file, window, isStart, isEnd, cap, minTurns, ceiling);
      WindowGrows(window, |file|, ceiling);
      window := Min(window * 2, Min(|file|, ceiling));
    }
  }

  /** What the parser is given: the whole file, or a tail that starts a turn. */
  method OpenJsonlTail(file: string, isStart: Test, isEnd: Test, cap: nat, minTurns: nat, ceiling: nat) returns (lines: seq<string>)
    requires cap >= 1
    ensures lines == Lines(file) || (|file| > cap && lines != [] && Answers(file, lines, isStart, isEnd, cap, minTurns, ceiling))
  {
    hide Answers;
    if |file| <= cap { return Lines(file); }
    lines := JsonlTailLines(file, isStart, isEnd, cap, minTurns, ceiling);
    if lines == [] { return Lines(file); }
  }

  // ----- counting turns ------------------------------------------------------------------------

  /** Between two ends there is a start. */
  ghost predicate Alternate(lines: seq<string>, isStart: Test, isEnd: Test) {
    forall i, j | 0 <= i < j < |lines| && Ends(lines[i], isEnd) && Ends(lines[j], isEnd) ::
      exists k :: i < k < j && Starts(lines[k], isStart)
  }

  lemma {:induction false} NoEnds(lines: seq<string>, isEnd: Test)
    requires forall i | 0 <= i < |lines| :: !Ends(lines[i], isEnd)
    ensures CountEnds(lines, isEnd) == 0
  {
    if lines != [] { NoEnds(lines[..|lines| - 1], isEnd); }
  }

  lemma {:induction false} AtMostOneEnd(lines: seq<string>, isEnd: Test)
    requires forall i, j | 0 <= i < j < |lines| :: !(Ends(lines[i], isEnd) && Ends(lines[j], isEnd))
    ensures CountEnds(lines, isEnd) <= 1
  {
    if lines != [] {
      var n := |lines| - 1;
      if Ends(lines[n], isEnd) { NoEnds(lines[..n], isEnd); } else { AtMostOneEnd(lines[..n], isEnd); }
    }
  }

  lemma {:induction false} CountSplits(lines: seq<string>, isEnd: Test, k: nat)
    requires k <= |lines|
    ensures CountEnds(lines, isEnd) == CountEnds(lines[..k], isEnd) + CountEnds(lines[k..], isEnd)
    decreases |lines|
  {
    if k == |lines| {
      assert lines[..k] == lines && lines[k..] == [];
    } else {
      var n := |lines| - 1;
      CountSplits(lines[..n], isEnd, k);
      assert lines[..n][..k] == lines[..k] && lines[k..][..n - k] == lines[..n][k..];
    }
  }

  /** A window accepted for its ends keeps at least `minTurns` of them after its first start. */
  lemma EnoughEnds(file: string, m: nat, n: nat, isStart: Test, isEnd: Test, minTurns: nat)
    requires m <= n <= |Lines(file)| && forall i | m <= i < n :: !Starts(Lines(file)[i], isStart)
    requires Alternate(Lines(file)[m..], isStart, isEnd)
    requires CountEnds(Lines(file)[m..], isEnd) >= minTurns + 1
    ensures CountEnds(Lines(file)[n..], isEnd) >= minTurns
  {
    var lines := Lines(file)[m..];
    var head := lines[..n - m];
    assert lines[n - m..] == Lines(file)[n..];
    CountSplits(lines, isEnd, n - m);
    assert forall k | 0 <= k < |head| :: lines[k] == Lines(file)[m + k] && !Starts(lines[k], isStart);
    forall i, j | 0 <= i < j < |head| ensures !(Ends(head[i], isEnd) && Ends(head[j], isEnd)) {
      assert lines[i] == head[i] && lines[j] == head[j];
    }
    AtMostOneEnd(head, isEnd);
  }

  // ----- what is exposed -----------------------------------------------------------------------------

  /** `turns[-n:]`; as in the slice, zero shows them all. */
  function Recent<T>(turns: seq<T>, n: nat): seq<T> {
    if n == 0 || |turns| <= n then turns else turns[|turns| - n..]
  }

  /** Turns in front of a tail are invisible exactly when the tail has enough of its own, or there are none. */
  lemma RecentExact<T>(before: seq<T>, tail: seq<T>, n: nat)
    ensures Recent(before + tail, n) == Recent(tail, n) <==> 0 < n <= |tail| || before == []
  {
    if 0 < n <= |tail| {
      assert Recent(before + tail, n) == Recent(tail, n);
    } else if before == [] {
      assert before + tail == tail;
    } else {
      assert |Recent(before + tail, n)| > |tail|;
    }
  }

  /** Two lists that end alike but differ just before show the same exactly if the common end is all that is shown. */
  lemma RecentOfCommonEnd<T>(a: seq<T>, b: seq<T>, end: seq<T>, n: nat)
    requires a != [] && (b != [] ==> b[|b| - 1] != a[|a| - 1])
    ensures Recent(a + end, n) == Recent(b + end, n) <==> 0 < n <= |end|
  {
    if 0 < n <= |end| {
      RecentExact(a, end, n);
      RecentExact(b, end, n);
      hide Recent;
    } else {
      LastBeforeEnd(a, end, n);
      if b == [] { assert b + end == end; } else { LastBeforeEnd(b, end, n); }
      hide Recent;
      var x, y := Recent(a + end, n), Recent(b + end, n);
      if |x| == |y| { assert x[|x| - |end| - 1] != y[|y| - |end| - 1]; }
    }
  }

  lemma LastBeforeEnd<T>(a: seq<T>, end: seq<T>, n: nat)
    requires a != [] && (n == 0 || n > |end|)
    ensures |Recent(a + end, n)| > |end|
    ensures Recent(a + end, n)[|Recent(a + end, n)| - |end| - 1] == a[|a| - 1]
    ensures |Recent(end, n)| == |end|
  {
    var all := a + end;
    assert all[|a| - 1] == a[|a| - 1];
  }
}
