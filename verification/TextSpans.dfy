/**
  Lossless splitting of a text into spans that end at Markdown-friendly places:
  the boundary rule, the splitter, and exactly when a cut may fall inside CRLF.
 */
module TextSpans {
  import opened Chars
  import opened Numbers
  import opened Options

  datatype Span = Span(start: nat, end: nat)

  /** `text.rfind(sep, lo, hi)`: the last occurrence lying wholly inside [lo, hi). */
  function RFind(text: string, sep: string, lo: nat, hi: nat): (r: Option<nat>)
    requires hi <= |text| && |sep| > 0
    ensures r.Some? ==> lo <= r.value && r.value + |sep| <= hi && At(text, sep, r.value)
    ensures forall i | (if r.Some? then r.value < i else lo <= i) && i + |sep| <= hi :: !At(text, sep, i)
    decreases hi
  {
    if lo + |sep| > hi then None
    else if At(text, sep, hi - |sep|) then Some(hi - |sep|)
    else RFind(text, sep, lo, hi - 1)
  }

  /** The end of the last occurrence, or 0 when there is none. */
  function EndOf(text: string, sep: string, lo: nat, hi: nat): (e: nat)
    requires hi <= |text| && |sep| > 0
    ensures e == 0 || lo < e <= hi
    ensures e > 0 ==> RFind(text, sep, lo, hi).Some? && text[e - 1] == sep[|sep| - 1]
    ensures e == 0 ==> RFind(text, sep, lo, hi).None?
  {
    var r := RFind(text, sep, lo, hi);
    if r.Some? then
      assert text[r.value..r.value + |sep|][|sep| - 1] == sep[|sep| - 1];
      r.value + |sep|
    else 0
  }

  function BlockEnd(text: string, lower: nat, hard: nat): nat
    requires hard <= |text|
  {
    if RFind(text, "\r\n\r\n", lower, hard).Some? then EndOf(text, "\r\n\r\n", lower, hard)
    else if RFind(text, "\n\n", lower, hard).Some? then EndOf(text, "\n\n", lower, hard)
    else EndOf(text, "\r\r", lower, hard)
  }

  function LineEnd(text: string, lower: nat, hard: nat): nat
    requires hard <= |text|
  {
    Max(EndOf(text, "\r\n", lower, hard), Max(EndOf(text, "\n", lower, hard), EndOf(text, "\r", lower, hard)))
  }

  function WordEnd(text: string, lower: nat, hard: nat): nat
    requires hard <= |text|
  {
    Max(EndOf(text, " ", lower, hard), EndOf(text, "\t", lower, hard))
  }

  /** The boundary search inside [lower, hard): blocks, then lines, then words. */
  function Preferred(text: string, lower: nat, hard: nat): (e: nat)
    requires lower < hard <= |text|
    ensures lower < e <= hard
  {
    if BlockEnd(text, lower, hard) > 0 then BlockEnd(text, lower, hard)
    else if LineEnd(text, lower, hard) > 0 then LineEnd(text, lower, hard)
    else if WordEnd(text, lower, hard) > 0 then WordEnd(text, lower, hard)
    else hard
  }

  predicate InsideCrlf(text: string, at: nat) { 0 < at < |text| && text[at - 1] == '\r' && text[at] == '\n' }

  /** The hard end moved off the middle of a CRLF pair when that leaves a nonempty span. */
  function Adjusted(text: string, start: nat, hardEnd: nat): (h: nat)
    ensures start < hardEnd ==> start < h <= hardEnd
  {
    if hardEnd > start + 1 && InsideCrlf(text, hardEnd) then hardEnd - 1 else hardEnd
  }

  function PreferredSpanEnd(text: string, start: nat, hardEnd: nat, limit: nat): (e: nat)
    requires start < hardEnd <= |text|
    ensures start < e <= hardEnd && (hardEnd == |text| ==> e == |text|)
  {
    if hardEnd >= |text| then |text|
    else
      var hard := Adjusted(text, start, hardEnd);
      var lower := start + Max(1, limit / 2);
      if lower >= hard then hard else Preferred(text, lower, hard)
  }

  // ----- which boundary is preferred --------------------------------------------------

  /** `sep` ends at `e` inside [lo, hi). */
  predicate EndsAt(text: string, sep: string, lo: nat, hi: nat, e: nat) {
    |sep| > 0 && lo + |sep| <= e <= hi && At(text, sep, e - |sep|)
  }

  ghost predicate Occurs(text: string, sep: string, lo: nat, hi: nat) { exists e: nat :: EndsAt(text, sep, lo, hi, e) }

  /** One of the separators ends at `e`, and none of them ends later. */
  ghost predicate LastOf(text: string, seps: seq<string>, lo: nat, hi: nat, e: nat) {
    && (exists i :: 0 <= i < |seps| && EndsAt(text, seps[i], lo, hi, e))
    && forall i, d: nat | 0 <= i < |seps| && EndsAt(text, seps[i], lo, hi, d) :: d <= e
  }

  ghost predicate NoneOf(text: string, seps: seq<string>, lo: nat, hi: nat) {
    forall i | 0 <= i < |seps| :: !Occurs(text, seps[i], lo, hi)
  }

  const BLOCKS: seq<string> := ["\r\n\r\n", "\n\n", "\r\r"]
  const LINES: seq<string> := ["\r\n", "\n", "\r"]
  const WORDS: seq<string> := [" ", "\t"]

  lemma EndOfIsLast(text: string, sep: string, lo: nat, hi: nat)
    requires hi <= |text| && |sep| > 0
    ensures EndOf(text, sep, lo, hi) > 0 <==> Occurs(text, sep, lo, hi)
    ensures EndOf(text, sep, lo, hi) > 0 ==> EndsAt(text, sep, lo, hi, EndOf(text, sep, lo, hi))
    ensures forall d: nat | EndsAt(text, sep, lo, hi, d) :: d <= EndOf(text, sep, lo, hi)
  {
    var r := RFind(text, sep, lo, hi);
    hide RFind;
    if r.Some? { assert EndsAt(text, sep, lo, hi, r.value + |sep|); }
    forall d: nat | EndsAt(text, sep, lo, hi, d) ensures r.Some? && d <= r.value + |sep| {
      assert At(text, sep, d - |sep|);
    }
  }

  /**
    The boundary a cut prefers in its window: the last blank line, by the kind of line
    ends that is ranked first among those present; else the last line end of any
    kind; else the last space or tab; else the hard end.
   */
  lemma PreferredExactly(text: string, lower: nat, hard: nat)
    requires lower < hard <= |text|
    ensures var e := Preferred(text, lower, hard);
      if Occurs(text, BLOCKS[0], lower, hard) then LastOf(text, [BLOCKS[0]], lower, hard, e)
      else if Occurs(text, BLOCKS[1], lower, hard) then LastOf(text, [BLOCKS[1]], lower, hard, e)
      else if Occurs(text, BLOCKS[2], lower, hard) then LastOf(text, [BLOCKS[2]], lower, hard, e)
      else if !NoneOf(text, LINES, lower, hard) then LastOf(text, LINES, lower, hard, e)
      else if !NoneOf(text, WORDS, lower, hard) then LastOf(text, WORDS, lower, hard, e)
      else e == hard
  {
    EndOfIsLast(text, "\r\n\r\n", lower, hard);
    EndOfIsLast(text, "\n\n", lower, hard);
    EndOfIsLast(text, "\r\r", lower, hard);
    LineEndIsLast(text, lower, hard);
    WordEndIsLast(text, lower, hard);
    hide RFind, EndOf, LineEnd, WordEnd, Occurs, EndsAt, NoneOf;
    BlockEndIsLast(text, lower, hard);
    hide BlockEnd, LastOf;
  }

  lemma BlockEndIsLast(text: string, lower: nat, hard: nat)
    requires lower < hard <= |text|
    ensures var e := BlockEnd(text, lower, hard);
      if Occurs(text, BLOCKS[0], lower, hard) then e > 0 && LastOf(text, [BLOCKS[0]], lower, hard, e)
      else if Occurs(text, BLOCKS[1], lower, hard) then e > 0 && LastOf(text, [BLOCKS[1]], lower, hard, e)
      else if Occurs(text, BLOCKS[2], lower, hard) then e > 0 && LastOf(text, [BLOCKS[2]], lower, hard, e)
      else e == 0
  {
    EndOfIsLast(text, "\r\n\r\n", lower, hard);
    EndOfIsLast(text, "\n\n", lower, hard);
    EndOfIsLast(text, "\r\r", lower, hard);
    hide RFind, Occurs, EndsAt;
    OneLast(text, "\r\n\r\n", lower, hard);
    OneLast(text, "\n\n", lower, hard);
    OneLast(text, "\r\r", lower, hard);
    hide LastOf;
  }

  lemma OneLast(text: string, sep: string, lo: nat, hi: nat)
    requires hi <= |text| && |sep| > 0
    ensures RFind(text, sep, lo, hi).Some? <==> Occurs(text, sep, lo, hi)
    ensures Occurs(text, sep, lo, hi) ==> LastOf(text, [sep], lo, hi, EndOf(text, sep, lo, hi))
  {
    EndOfIsLast(text, sep, lo, hi);
    hide RFind, EndsAt, Occurs;
    if Occurs(text, sep, lo, hi) { assert EndsAt(text, [sep][0], lo, hi, EndOf(text, sep, lo, hi)); }
  }

  /** `e` is where the last of these separators ends, or 0 when there is none. */
  ghost predicate Ending(text: string, seps: seq<string>, lo: nat, hi: nat, e: nat) {
    if e == 0 then NoneOf(text, seps, lo, hi) else LastOf(text, seps, lo, hi, e)
  }

  lemma OneEnding(text: string, sep: string, lo: nat, hi: nat)
    requires hi <= |text| && |sep| > 0
    ensures Ending(text, [sep], lo, hi, EndOf(text, sep, lo, hi))
  {
    EndOfIsLast(text, sep, lo, hi);
    OneLast(text, sep, lo, hi);
    hide RFind, EndOf, EndsAt, Occurs, LastOf;
  }

  lemma LaterEnding(text: string, a: seq<string>, b: seq<string>, lo: nat, hi: nat, x: nat, y: nat)
    requires Ending(text, a, lo, hi, x) && Ending(text, b, lo, hi, y)
    ensures Ending(text, a + b, lo, hi, if x > y then x else y)
  {
    hide EndsAt;
    var e := if x > y then x else y;
    var all := a + b;
    forall i, d: nat | 0 <= i < |all| && EndsAt(text, all[i], lo, hi, d) ensures 0 < d <= e {
      hide EndsAt;
      if i < |a| { EndPositive(text, a[i], lo, hi, d); } else { EndPositive(text, b[i - |a|], lo, hi, d); }
    }
    if e > 0 {
      if x > y {
        var i :| 0 <= i < |a| && EndsAt(text, a[i], lo, hi, x);
        assert all[i] == a[i];
      } else {
        var i :| 0 <= i < |b| && EndsAt(text, b[i], lo, hi, y);
        assert all[|a| + i] == b[i];
      }
    }
  }

  lemma EndPositive(text: string, sep: string, lo: nat, hi: nat, d: nat)
    requires EndsAt(text, sep, lo, hi, d)
    ensures d > 0 && Occurs(text, sep, lo, hi)
  {
  }

  lemma EndingMeans(text: string, seps: seq<string>, lo: nat, hi: nat, e: nat)
    requires Ending(text, seps, lo, hi, e)
    ensures e > 0 <==> !NoneOf(text, seps, lo, hi)
    ensures e > 0 ==> LastOf(text, seps, lo, hi, e)
  {
  }

  lemma LineEndIsLast(text: string, lower: nat, hard: nat)
    requires lower < hard <= |text|
    ensures LineEnd(text, lower, hard) > 0 <==> !NoneOf(text, LINES, lower, hard)
    ensures LineEnd(text, lower, hard) > 0 ==> LastOf(text, LINES, lower, hard, LineEnd(text, lower, hard))
  {
    hide RFind, EndOf, Ending, LastOf, NoneOf;
    OneEnding(text, "\r\n", lower, hard);
    OneEnding(text, "\n", lower, hard);
    OneEnding(text, "\r", lower, hard);
    LaterEnding(text, ["\n"], ["\r"], lower, hard, EndOf(text, "\n", lower, hard), EndOf(text, "\r", lower, hard));
    LaterEnding(text, ["\r\n"], ["\n"] + ["\r"], lower, hard, EndOf(text, "\r\n", lower, hard), Max(EndOf(text, "\n", lower, hard), EndOf(text, "\r", lower, hard)));
    assert ["\r\n"] + (["\n"] + ["\r"]) == LINES;
    EndingMeans(text, LINES, lower, hard, LineEnd(text, lower, hard));
  }

  lemma WordEndIsLast(text: string, lower: nat, hard: nat)
    requires lower < hard <= |text|
    ensures WordEnd(text, lower, hard) > 0 <==> !NoneOf(text, WORDS, lower, hard)
    ensures WordEnd(text, lower, hard) > 0 ==> LastOf(text, WORDS, lower, hard, WordEnd(text, lower, hard))
  {
    hide RFind, EndOf, Ending, LastOf, NoneOf;
    OneEnding(text, " ", lower, hard);
    OneEnding(text, "\t", lower, hard);
    LaterEnding(text, [" "], ["\t"], lower, hard, EndOf(text, " ", lower, hard), EndOf(text, "\t", lower, hard));
    assert [" "] + ["\t"] == WORDS;
    EndingMeans(text, WORDS, lower, hard, WordEnd(text, lower, hard));
  }

  /** A span is cut in its second half, or as late as the limit and a CRLF allow; the last span takes the rest. */
  lemma CutsLate(text: string, start: nat, hardEnd: nat, limit: nat)
    requires start < hardEnd <= |text|
    ensures var e := PreferredSpanEnd(text, start, hardEnd, limit);
      && (hardEnd == |text| ==> e == hardEnd)
      && (hardEnd < |text| ==>
            var hard := if hardEnd > start + 1 && InsideCrlf(text, hardEnd) then hardEnd - 1 else hardEnd;
            var window := start + if limit >= 2 then limit / 2 else 1;
            if window < hard then e == Preferred(text, window, hard) && window < e <= hard else e == hard)
  {
    hide Preferred;
  }

  // ----- CRLF ---------------------------------------------------------------------

  /** The `\r\r` rule decides the boundary. */
  predicate PairRule(text: string, lower: nat, hard: nat)
    requires hard <= |text|
  {
    && RFind(text, "\r\n\r\n", lower, hard).None? && RFind(text, "\n\n", lower, hard).None?
    && RFind(text, "\r\r", lower, hard).Some?
  }

  lemma LineEndKeepsCrlf(text: string, lower: nat, hard: nat)
    requires lower < hard < |text| && !InsideCrlf(text, hard)
    ensures !InsideCrlf(text, LineEnd(text, lower, hard))
  {
    var e := EndOf(text, "\r", lower, hard);
    if InsideCrlf(text, e) {
      assert At(text, "\r\n", e - 1);
    }
  }

  lemma BlockEndKeepsCrlf(text: string, lower: nat, hard: nat)
    requires lower < hard < |text|
    ensures InsideCrlf(text, BlockEnd(text, lower, hard)) ==> PairRule(text, lower, hard)
  {
    hide RFind;
  }

  lemma WordEndKeepsCrlf(text: string, lower: nat, hard: nat)
    requires lower < hard < |text|
    ensures !InsideCrlf(text, WordEnd(text, lower, hard))
  {
    hide RFind;
  }

  lemma PreferredCrlf(text: string, lower: nat, hard: nat)
    requires lower < hard < |text| && !InsideCrlf(text, hard)
    ensures InsideCrlf(text, Preferred(text, lower, hard)) ==> PairRule(text, lower, hard)
  {
    LineEndKeepsCrlf(text, lower, hard);
    BlockEndKeepsCrlf(text, lower, hard);
    WordEndKeepsCrlf(text, lower, hard);
    hide RFind, LineEnd, BlockEnd, WordEnd, PairRule;
  }

  lemma PairRuleDecides(text: string, lower: nat, hard: nat)
    requires lower < hard <= |text| && PairRule(text, lower, hard)
    ensures Preferred(text, lower, hard) == EndOf(text, "\r\r", lower, hard) && text[Preferred(text, lower, hard) - 1] == '\r'
  {
  }

  /**
    Exactly when a boundary splits CRLF: the span has room for one code point only
    and that code point is the CR, or the `\r\r` rule fires on `\r\r\n`.
   */
  lemma SplitsCrlfExactly(text: string, start: nat, hardEnd: nat, limit: nat)
    requires start < hardEnd < |text|
    ensures var e, hard, lower := PreferredSpanEnd(text, start, hardEnd, limit), Adjusted(text, start, hardEnd), start + Max(1, limit / 2);
      InsideCrlf(text, e) <==>
        || (hardEnd == start + 1 && InsideCrlf(text, hardEnd))
        || (lower < hard && PairRule(text, lower, hard) && text[EndOf(text, "\r\r", lower, hard)] == '\n')
  {
    var hard, lower := Adjusted(text, start, hardEnd), start + Max(1, limit / 2);
    hide RFind, Preferred;
    if lower < hard {
      PreferredCrlf(text, lower, hard);
      if PairRule(text, lower, hard) { PairRuleDecides(text, lower, hard); }
    }
  }

  // ----- the splitter -----------------------------------------------------------------

  /** Consecutive nonempty spans of at most `limit` code points covering [from, to). */
  ghost predicate Tiles(spans: seq<Span>, from: nat, to: nat, limit: nat) {
    && (forall i | 0 <= i < |spans| :: spans[i].start < spans[i].end <= spans[i].start + limit)
    && (forall i, j | 0 <= i < j < |spans| && j == i + 1 :: spans[j].start == spans[i].end)
    && if spans == [] then from == to else spans[0].start == from && spans[|spans| - 1].end == to
  }

  lemma TilesPrepend(from: nat, end: nat, rest: seq<Span>, to: nat, limit: nat)
    requires from < end <= from + limit && Tiles(rest, end, to, limit)
    ensures Tiles([Span(from, end)] + rest, from, to, limit)
  {
    var spans := [Span(from, end)] + rest;
    forall i | 0 <= i < |spans| ensures spans[i].start < spans[i].end <= spans[i].start + limit {
      if i > 0 { assert spans[i] == rest[i - 1]; }
    }
  }

  function TextSpansFrom(text: string, start: nat, limit: nat): (spans: seq<Span>)
    requires limit > 0 && start <= |text|
    ensures Tiles(spans, start, |text|, limit)
    decreases |text| - start
  {
    if start == |text| then []
    else
      var end := PreferredSpanEnd(text, start, Min(|text|, start + limit), limit);
      var rest := TextSpansFrom(text, end, limit);
      TilesPrepend(start, end, rest, |text|, limit);
      [Span(start, end)] + rest
  }

  /** None when the limit is not positive. */
  method SplitTextSpans(text: string, limit: int) returns (r: Option<seq<Span>>)
    ensures r == if limit <= 0 then None else Some(TextSpansFrom(text, 0, limit))
  {
    hide PreferredSpanEnd, Tiles;
    if limit <= 0 { return None; }
    var spans: seq<Span> := [];
    var start := 0;
    while start < |text|
      invariant start <= |text| && TextSpansFrom(text, 0, limit) == spans + TextSpansFrom(text, start, limit)
    {
      var hardEnd := Min(|text|, start + limit);
      var end := PreferredSpanEnd(text, start, hardEnd, limit);
      if end <= start { end := hardEnd; }
      assert spans + TextSpansFrom(text, start, limit) == spans + [Span(start, end)] + TextSpansFrom(text, end, limit);
      spans := spans + [Span(start, end)];
      start := end;
    }
    assert spans + TextSpansFrom(text, start, limit) == spans;
    return Some(spans);
  }

  predicate Within(spans: seq<Span>, from: nat, to: nat) {
    forall i | 0 <= i < |spans| :: from <= spans[i].start < spans[i].end <= to
  }

  /** The pieces of a tiling, in order, spell the text. */
  function Pieces(text: string, spans: seq<Span>): string
    requires Within(spans, 0, |text|)
  {
    if spans == [] then "" else text[spans[0].start..spans[0].end] + Pieces(text, spans[1..])
  }

  lemma TilesTail(spans: seq<Span>, from: nat, to: nat, limit: nat)
    requires Tiles(spans, from, to, limit) && |spans| > 0
    ensures spans[0].start == from < spans[0].end && Tiles(spans[1..], spans[0].end, to, limit)
  {
    var rest := spans[1..];
    forall i, j | 0 <= i < j < |rest| && j == i + 1 ensures rest[j].start == rest[i].end {
      assert spans[j + 1].start == spans[i + 1].end;
    }
    if rest != [] { assert spans[1].start == spans[0].end; }
  }

  lemma {:induction false} TilesWithin(spans: seq<Span>, from: nat, to: nat, limit: nat)
    requires Tiles(spans, from, to, limit)
    ensures from <= to && Within(spans, from, to)
    decreases |spans|
  {
    if spans != [] {
      TilesTail(spans, from, to, limit);
      hide Tiles;
      TilesWithin(spans[1..], spans[0].end, to, limit);
      assert forall i | 1 <= i < |spans| :: spans[i] == spans[1..][i - 1];
    }
  }

  lemma {:induction false} TilingIsLossless(text: string, spans: seq<Span>, from: nat, limit: nat)
    requires Tiles(spans, from, |text|, limit)
    ensures from <= |text| && Within(spans, 0, |text|) && Pieces(text, spans) == text[from..]
    decreases |spans|
  {
    TilesWithin(spans, from, |text|, limit);
    if spans != [] {
      TilesTail(spans, from, |text|, limit);
      hide Tiles;
      TilingIsLossless(text, spans[1..], spans[0].end, limit);
    }
  }

  ghost predicate HasCrCrLf(text: string) {
    exists i, j | 0 <= i < j < |text| - 1 && j == i + 1 :: text[i] == '\r' && text[j] == '\r' && text[j + 1] == '\n'
  }

  lemma PairRuleSeesCrCrLf(text: string, lower: nat, hard: nat)
    requires lower < hard < |text| && PairRule(text, lower, hard) && text[EndOf(text, "\r\r", lower, hard)] == '\n'
    ensures HasCrCrLf(text)
  {
    var at := RFind(text, "\r\r", lower, hard).value;
    var pair := text[at..at + 2];
    assert pair[0] == '\r' && pair[1] == '\r';
    assert text[at] == '\r' && text[at + 1] == '\r' && text[at + 1 + 1] == '\n';
  }

  lemma EndKeepsCrlf(text: string, start: nat, limit: nat)
    requires limit >= 2 && start < |text| && !HasCrCrLf(text)
    ensures !InsideCrlf(text, PreferredSpanEnd(text, start, Min(|text|, start + limit), limit))
  {
    hide RFind, Preferred, HasCrCrLf;
    var hardEnd := Min(|text|, start + limit);
    if hardEnd < |text| {
      SplitsCrlfExactly(text, start, hardEnd, limit);
      var hard, lower := Adjusted(text, start, hardEnd), start + Max(1, limit / 2);
      if lower < hard && PairRule(text, lower, hard) && text[EndOf(text, "\r\r", lower, hard)] == '\n' {
        PairRuleSeesCrCrLf(text, lower, hard);
      }
    }
  }

  /** A text without `\r\r\n` is never cut inside CRLF by a limit of two or more. */
  lemma {:induction false} SpansKeepCrlf(text: string, start: nat, limit: nat)
    requires limit >= 2 && start <= |text| && !HasCrCrLf(text)
    ensures forall s | s in TextSpansFrom(text, start, limit) :: !InsideCrlf(text, s.end)
    decreases |text| - start
  {
    if start < |text| {
      EndKeepsCrlf(text, start, limit);
      SpansKeepCrlf(text, PreferredSpanEnd(text, start, Min(|text|, start + limit), limit), limit);
    }
  }

  lemma NotFound(text: string, sep: string, lo: nat, hi: nat, k: nat)
    requires hi <= |text| && k < |sep| && forall i | lo + k <= i <= hi - |sep| + k :: text[i] != sep[k]
    ensures RFind(text, sep, lo, hi).None?
  {
    forall i | lo <= i && i + |sep| <= hi ensures !At(text, sep, i) {
      assert text[i..i + |sep|][k] == text[i + k];
    }
  }

  /** The `\r\r` rule does split a CRLF: the second CR ends the first span, its LF starts the next. */
  lemma PairRuleSplitsCrlf()
    ensures TextSpansFrom("ab\r\r\nxyz", 0, 5)[0] == Span(0, 4) && InsideCrlf("ab\r\r\nxyz", 4)
  {
    var text := "ab\r\r\nxyz";
    assert |text| == 8 && text[4] == '\n' && text[5] == 'x';
    assert Adjusted(text, 0, 5) == 5;
    assert At(text, "\r\r", 2) && text[3] == '\r';
    NotFound(text, "\n\n", 2, 5, 0);
    NotFound(text, "\r\n\r\n", 2, 5, 1);
    assert text[3..5][1] == text[4];
    assert RFind(text, "\r\r", 2, 5) == Some(2);
  }
}
