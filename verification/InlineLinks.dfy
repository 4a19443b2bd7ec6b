/**
  The one-pass scan that replaces Markdown links: its pieces cover the text
  exactly, a valid link is replaced unless an earlier candidate consumed its start,
  and the scan looks at each character a bounded number of times.
 */
module InlineLinks {
  import opened Chars
  import opened Options

  type Unescape = string -> string

  /** A source slice copied as it is, or replaced by the next link marker. */
  datatype Piece = Literal(from: nat, to: nat) | Link(from: nat, to: nat, caption: string, href: string)

  const LABEL_LIMIT: nat := 300
  const DESTINATION_LIMIT: nat := 2000

  // ----- the grammar of a link ------------------------------------------------------------

  /** Where the label that opens at `from` stops: a bracket, a line break, the limit or the end. */
  function LabelStop(text: string, from: nat, cursor: nat): (stop: nat)
    requires from < cursor <= |text|
    ensures cursor <= stop <= |text|
    decreases |text| - cursor
  {
    if cursor == |text| || text[cursor] in "[\n]" || cursor - from > LABEL_LIMIT then cursor
    else LabelStop(text, from, cursor + 1)
  }

  /** The label is closed and a destination opens right behind it. */
  predicate LabelCloses(text: string, stop: nat) {
    stop + 1 < |text| && text[stop] == ']' && text[stop + 1] == '('
  }

  /** A backslash that makes the next character literal. */
  predicate Escaped(text: string, at: nat) {
    at + 1 < |text| && text[at] == '\\' && text[at + 1] in "()\\"
  }

  /** The parenthesis that closes a destination, `depth` inner ones being open. */
  function CloseAt(text: string, cursor: nat, depth: nat): (close: Option<nat>)
    requires cursor <= |text|
    ensures close.Some? ==> cursor <= close.value < |text| && text[close.value] == ')'
    decreases |text| - cursor
  {
    if cursor == |text| then None
    else if Escaped(text, cursor) then CloseAt(text, cursor + 2, depth)
    else if text[cursor] == '(' then CloseAt(text, cursor + 1, depth + 1)
    else if text[cursor] == ')' then if depth == 0 then Some(cursor) else CloseAt(text, cursor + 1, depth - 1)
    else CloseAt(text, cursor + 1, depth)
  }

  /** The destination with its escapes resolved. */
  function Destination(text: string, cursor: nat, end: nat): string
    requires end <= |text|
    decreases end - cursor
  {
    if cursor >= end then ""
    else if Escaped(text, cursor) then [text[cursor + 1]] + Destination(text, cursor + 2, end)
    else [text[cursor]] + Destination(text, cursor + 1, end)
  }

  predicate Ambiguous(text: string, at: nat)
    requires at < |text|
  {
    IsSpace(text[at]) || At(text, "&lt;", at) || At(text, "&gt;", at)
  }

  predicate AnyAmbiguous(text: string, cursor: nat, end: nat)
    requires end <= |text|
    decreases end - cursor
  {
    if cursor >= end then false
    else if Escaped(text, cursor) then AnyAmbiguous(text, cursor + 2, end)
    else Ambiguous(text, cursor) || AnyAmbiguous(text, cursor + 1, end)
  }

  predicate ValidDestination(text: string, unescape: Unescape, from: nat, close: nat)
    requires from <= close < |text|
  {
    && !AnyAmbiguous(text, from, close) && |Destination(text, from, close)| <= DESTINATION_LIMIT
    && LinkScheme(unescape(Destination(text, from, close)))
  }

  /** A bracket that may open a link: not part of an image. */
  predicate Opens(text: string, at: nat) { at < |text| && text[at] == '[' && !(at > 0 && text[at - 1] == '!') }

  /** The link that starts at `from`, if a whole valid one does. */
  function LinkAt(text: string, unescape: Unescape, from: nat): Option<Piece> {
    if !Opens(text, from) then None
    else
      var stop := LabelStop(text, from, from + 1);
      if !LabelCloses(text, stop) || stop == from + 1 then None
      else
        var close := CloseAt(text, stop + 2, 0);
        if close.None? || !ValidDestination(text, unescape, stop + 2, close.value) then None
        else Some(Link(from, close.value + 1, text[from + 1..stop], unescape(Destination(text, stop + 2, close.value))))
  }

  // ----- the scan ----------------------------------------------------------------------------

  /** Consecutive nonempty pieces from `from` to `to`. */
  ghost predicate Covers(ps: seq<Piece>, from: nat, to: nat) {
    && (forall i | 0 <= i < |ps| :: ps[i].from < ps[i].to)
    && (forall i, j | 0 <= i < j < |ps| && j == i + 1 :: ps[j].from == ps[i].to)
    && if ps == [] then from == to else ps[0].from == from && ps[|ps| - 1].to == to
  }

  /** What the scan takes at a position: the link that starts there, or what a rejected candidate consumes. */
  function PieceAt(text: string, unescape: Unescape, from: nat): (p: Piece)
    requires from < |text|
    ensures p.from == from < p.to <= |text|
  {
    if !Opens(text, from) then Literal(from, from + 1)
    else
      var stop := LabelStop(text, from, from + 1);
      if !LabelCloses(text, stop) then
        Literal(from, if stop == |text| || text[stop] == '[' then stop else stop + 1)
      else if stop == from + 1 then Literal(from, stop + 2)
      else
        var close := CloseAt(text, stop + 2, 0);
        if close.None? then Literal(from, |text|)
        else if !ValidDestination(text, unescape, stop + 2, close.value) then Literal(from, close.value + 1)
        else Link(from, close.value + 1, text[from + 1..stop], unescape(Destination(text, stop + 2, close.value)))
  }

  predicate Faithful(text: string, unescape: Unescape, p: Piece) {
    p.from < |text| && p == PieceAt(text, unescape, p.from)
  }

  /** A piece is a link exactly if a whole valid link starts where it starts; only a candidate takes more than one character. */
  lemma PieceIsLinkExactly(text: string, unescape: Unescape, p: Piece)
    requires Faithful(text, unescape, p)
    ensures LinkAt(text, unescape, p.from) == if p.Link? then Some(p) else None
    ensures p.to > p.from + 1 ==> Opens(text, p.from)
  {
    hide LabelStop, CloseAt, Destination, ValidDestination;
  }

  predicate AllFaithful(text: string, unescape: Unescape, ps: seq<Piece>) {
    forall i | 0 <= i < |ps| :: Faithful(text, unescape, ps[i])
  }

  method ScanLabel(text: string, from: nat) returns (labelEnd: Option<nat>, rejectedAt: Option<nat>, nested: bool, steps: nat)
    requires from < |text|
    ensures var stop := LabelStop(text, from, from + 1);
      && (labelEnd.Some? <==> LabelCloses(text, stop)) && (labelEnd.Some? ==> labelEnd.value == stop)
      && (labelEnd.None? ==> (rejectedAt.None? <==> stop == |text|) && (rejectedAt.Some? ==> rejectedAt.value == stop))
      && (nested <==> labelEnd.None? && stop < |text| && text[stop] == '[')
      && steps <= stop - from
  {
    var cursor := from + 1;
    labelEnd, rejectedAt, nested, steps := None, None, false, 0;
    while cursor < |text|
      invariant from < cursor <= |text| && labelEnd.None? && rejectedAt.None? && !nested
      invariant LabelStop(text, from, from + 1) == LabelStop(text, from, cursor) && steps == cursor - from - 1
    {
      steps := steps + 1;
      var ch := text[cursor];
      if ch == '[' {
        rejectedAt, nested := Some(cursor), true;
        break;
      }
      if ch == '\n' {
        rejectedAt := Some(cursor);
        break;
      }
      if ch == ']' {
        if cursor + 1 < |text| && text[cursor + 1] == '(' { labelEnd := Some(cursor); } else { rejectedAt := Some(cursor); }
        break;
      }
      if cursor - from > LABEL_LIMIT {
        rejectedAt := Some(cursor);
        break;
      }
      cursor := cursor + 1;
    }
  }

  /** `valid` says that no rule but the scheme was broken; the collected text is the destination then. */
  method ScanDestination(text: string, from: nat) returns (delimiter: Option<nat>, destination: string, valid: bool, steps: nat)
    requires from <= |text|
    ensures delimiter == CloseAt(text, from, 0)
    ensures delimiter.Some? ==> (valid <==> !AnyAmbiguous(text, from, delimiter.value)
                                            && |Destination(text, from, delimiter.value)| <= DESTINATION_LIMIT)
    ensures delimiter.Some? && valid ==> destination == Destination(text, from, delimiter.value)
    ensures steps <= (if delimiter.Some? then delimiter.value + 1 else |text|) - from
  {
    hide IsSpace, At, CloseAt, Destination, AnyAmbiguous;
    ghost var close := CloseAt(text, from, 0);
    ghost var end := if close.Some? then close.value else |text|;
    ghost var whole, bad := Destination(text, from, end), AnyAmbiguous(text, from, end);
    var cursor, depth, length: nat, invalid := from, 0, 0, false;
    destination, steps := "", 0;
    while cursor < |text|
      invariant from <= cursor <= |text| && CloseAt(text, cursor, depth) == close
      invariant close.Some? ==> cursor <= end && length + |Destination(text, cursor, end)| == |whole|
      invariant close.Some? && !invalid ==> destination + Destination(text, cursor, end) == whole
      invariant close.Some? && invalid ==> bad || |whole| > DESTINATION_LIMIT
      invariant close.Some? && bad ==> invalid || AnyAmbiguous(text, cursor, end)
      invariant length > DESTINATION_LIMIT ==> invalid
      invariant close.Some? && AnyAmbiguous(text, cursor, end) ==> bad
      invariant steps <= cursor - from
    {
      steps := steps + 1;
      var ch := text[cursor];
      if ch == '\\' && cursor + 1 < |text| {
        var next := text[cursor + 1];
        if next == '(' || next == ')' || next == '\\' {
          assert Escaped(text, cursor);
          UnitStep(text, cursor, depth, end);
          length := length + 1;
          if length <= DESTINATION_LIMIT { destination := destination + [next]; } else { invalid := true; }
          cursor := cursor + 2;
          continue;
        }
      }
      assert !Escaped(text, cursor);
      UnitStep(text, cursor, depth, end);
      if IsSpace(ch) { invalid := true; }
      if At(text, "&lt;", cursor) || At(text, "&gt;", cursor) { invalid := true; }
      if ch == '(' {
        depth := depth + 1;
      } else if ch == ')' {
        if depth == 0 {
          ParenthesisIsPlain(text, cursor);
          return Some(cursor), destination, !invalid, steps;
        }
        depth := depth - 1;
      }
      length := length + 1;
      if length <= DESTINATION_LIMIT { destination := destination + [ch]; } else { invalid := true; }
      cursor := cursor + 1;
    }
    return None, destination, false, steps;
  }

  function Next(text: string, cursor: nat): (n: nat)
    ensures cursor < |text| ==> n <= |text|
  { if Escaped(text, cursor) then cursor + 2 else cursor + 1 }

  predicate Consumes(text: string, cursor: nat, end: nat)
    requires cursor < end <= |text|
  {
    var next := Next(text, cursor);
    && next <= end && Destination(text, cursor, end) == [text[next - 1]] + Destination(text, next, end)
    && (AnyAmbiguous(text, cursor, end) <==> (!Escaped(text, cursor) && Ambiguous(text, cursor)) || AnyAmbiguous(text, next, end))
  }

  /** One unit of a destination: an escaped pair, or a single character. */
  lemma UnitStep(text: string, cursor: nat, depth: nat, end: nat)
    requires cursor < |text| && cursor <= end <= |text|
    requires CloseAt(text, cursor, depth) == (if end < |text| then Some(end) else None) || CloseAt(text, cursor, depth).None?
    ensures CloseAt(text, cursor, depth) ==
      if Escaped(text, cursor) || text[cursor] !in "()" then CloseAt(text, Next(text, cursor), depth)
      else if text[cursor] == '(' then CloseAt(text, Next(text, cursor), depth + 1)
      else if depth > 0 then CloseAt(text, Next(text, cursor), depth - 1) else Some(cursor)
    ensures cursor < end && CloseAt(text, cursor, depth).Some? ==> Consumes(text, cursor, end)
    ensures Destination(text, end, end) == "" && !AnyAmbiguous(text, end, end)
  {
    hide IsSpace, At;
  }

  lemma ParenthesisIsPlain(text: string, at: nat)
    requires at < |text| && text[at] == ')'
    ensures !Ambiguous(text, at)
  {
    if at + 4 <= |text| { assert text[at..at + 4][0] == ')'; }
  }

  lemma CoversThen(ps: seq<Piece>, from: nat, p: Piece)
    requires Covers(ps, from, p.from) && p.from < p.to
    ensures Covers(ps + [p], from, p.to)
  {
    var all := ps + [p];
    forall i, j | 0 <= i < j < |all| && j == i + 1 ensures all[j].from == all[i].to {
      if j < |ps| { assert ps[j].from == ps[i].to; }
    }
  }

  /**
    The forward scan.  `steps` counts every round of its three loops: rejected
    candidates consume what was inspected, so no suffix is searched again.
   */
  method ReplaceInlineLinks(text: string, unescape: Unescape) returns (pieces: seq<Piece>, steps: nat)
    ensures Covers(pieces, 0, |text|) && AllFaithful(text, unescape, pieces)
    ensures steps <= 2 * |text|
  {
    hide LabelStop, CloseAt, Destination, AnyAmbiguous;
    pieces, steps := [], 0;
    var index := 0;
    while index < |text|
      invariant index <= |text| && Covers(pieces, 0, index) && AllFaithful(text, unescape, pieces)
      invariant steps <= 2 * index
    {
      steps := steps + 1;
      var piece, used := NextPiece(text, unescape, index);
      steps := steps + used;
      CoversThen(pieces, 0, piece);
      pieces := pieces + [piece];
      index := piece.to;
    }
  }

  method NextPiece(text: string, unescape: Unescape, index: nat) returns (p: Piece, steps: nat)
    requires index < |text|
    ensures p.from == index < p.to <= |text| && Faithful(text, unescape, p)
    ensures steps + 1 <= 2 * (p.to - index)
  {
    hide LabelStop, CloseAt, Destination, AnyAmbiguous, LinkScheme;
    steps := 0;
    if text[index] != '[' { return Literal(index, index + 1), steps; }
    if index > 0 && text[index - 1] == '!' { return Literal(index, index + 1), steps; }
    var labelEnd, rejectedAt, nested, labelSteps := ScanLabel(text, index);
    steps := labelSteps;
    if labelEnd.None? {
      if rejectedAt.None? { return Literal(index, |text|), steps; }
      if nested { return Literal(index, rejectedAt.value), steps; }
      return Literal(index, rejectedAt.value + 1), steps;
    }
    if labelEnd.value == index + 1 { return Literal(index, labelEnd.value + 2), steps; }
    var delimiter, destination, valid, more := ScanDestination(text, labelEnd.value + 2);
    steps := steps + more;
    if delimiter.None? { return Literal(index, |text|), steps; }
    var href := unescape(destination);
    if !valid || !LinkScheme(href) { return Literal(index, delimiter.value + 1), steps; }
    return Link(index, delimiter.value + 1, text[index + 1..labelEnd.value], href), steps;
  }

  predicate Inside(ps: seq<Piece>, n: nat) { forall i | 0 <= i < |ps| :: ps[i].from <= ps[i].to <= n }

  /** The slices of a covering, in order, spell the text. */
  function Slices(text: string, ps: seq<Piece>): string
    requires Inside(ps, |text|)
  {
    if ps == [] then "" else Slices(text, ps[..|ps| - 1]) + text[ps[|ps| - 1].from..ps[|ps| - 1].to]
  }

  lemma CoversInit(ps: seq<Piece>, from: nat, to: nat)
    requires ps != [] && Covers(ps, from, to)
    ensures ps[|ps| - 1].from < ps[|ps| - 1].to == to && Covers(ps[..|ps| - 1], from, ps[|ps| - 1].from)
  {
    var n := |ps| - 1;
    if n > 0 { assert ps[n].from == ps[n - 1].to; }
    var before := ps[..n];
    forall i, j | 0 <= i < j < |before| && j == i + 1 ensures before[j].from == before[i].to {
      assert ps[j].from == ps[i].to;
    }
  }

  lemma InsideThen(ps: seq<Piece>, n: nat)
    requires ps != [] && Inside(ps[..|ps| - 1], ps[|ps| - 1].from) && ps[|ps| - 1].from <= ps[|ps| - 1].to <= n
    ensures Inside(ps, n)
  {
    assert forall i | 0 <= i < |ps| - 1 :: ps[i] == ps[..|ps| - 1][i];
  }

  /** Nothing of the input is dropped, repeated or reordered. */
  lemma {:induction false} CoveringIsLossless(text: string, ps: seq<Piece>, to: nat)
    requires Covers(ps, 0, to) && to <= |text|
    ensures Inside(ps, to) && Inside(ps, |text|) && Slices(text, ps) == text[..to]
  {
    if ps != [] {
      CoversInit(ps, 0, to);
      hide Covers;
      CoveringIsLossless(text, ps[..|ps| - 1], ps[|ps| - 1].from);
      InsideThen(ps, to);
    }
  }

  /** Inside a destination the unescaped parentheses balance: the link ends at the first one that does not. */
  function Depth(text: string, cursor: nat, end: nat): int
    requires end <= |text|
    decreases end - cursor
  {
    if cursor >= end then 0
    else if Escaped(text, cursor) then Depth(text, cursor + 2, end)
    else (if text[cursor] == '(' then 1 else if text[cursor] == ')' then -1 else 0) + Depth(text, cursor + 1, end)
  }

  lemma {:induction false} DestinationsBalance(text: string, cursor: nat, depth: nat)
    requires cursor <= |text| && CloseAt(text, cursor, depth).Some?
    ensures Depth(text, cursor, CloseAt(text, cursor, depth).value) + depth == 0
    decreases |text| - cursor
  {
    if Escaped(text, cursor) { DestinationsBalance(text, cursor + 2, depth); }
    else if text[cursor] == '(' { DestinationsBalance(text, cursor + 1, depth + 1); }
    else if text[cursor] == ')' { if depth > 0 { DestinationsBalance(text, cursor + 1, depth - 1); } }
    else { DestinationsBalance(text, cursor + 1, depth); }
  }

  // ----- which valid links are replaced ------------------------------------------------------

  lemma {:induction false} CoversInOrder(ps: seq<Piece>, from: nat, to: nat, i: nat, j: nat)
    requires Covers(ps, from, to) && i < j < |ps|
    ensures ps[i].to <= ps[j].from
    decreases j
  {
    if i + 1 < j { CoversInOrder(ps, from, to, i, j - 1); }
  }

  lemma {:induction false} FindPiece(ps: seq<Piece>, to: nat, at: nat) returns (k: nat)
    requires Covers(ps, 0, to) && at < to
    ensures k < |ps| && ps[k].from <= at < ps[k].to
  {
    CoversInit(ps, 0, to);
    k := |ps| - 1;
    if at < ps[k].from { k := FindPiece(ps[..k], ps[k].from, at); }
  }

  /**
    A valid link is replaced exactly if no earlier candidate consumed its start: a
    link inside a rejected candidate, or inside another link, stays as it is.
   */
  lemma LinkReplacedExactly(text: string, unescape: Unescape, ps: seq<Piece>, at: nat)
    requires Covers(ps, 0, |text|) && AllFaithful(text, unescape, ps) && LinkAt(text, unescape, at).Some?
    ensures LinkAt(text, unescape, at).value in ps <==>
      !exists k :: 0 <= k < |ps| && Opens(text, ps[k].from) && ps[k].from < at < ps[k].to
  {
    hide Covers, LabelStop, CloseAt, Destination, ValidDestination, PieceAt, Opens, LinkAt;
    LinkStarts(text, unescape, at);
    var k := FindPiece(ps, |text|, at);
    assert Faithful(text, unescape, ps[k]);
    PieceIsLinkExactly(text, unescape, ps[k]);
    forall m | 0 <= m < |ps| && m != k ensures !(ps[m].from <= at < ps[m].to) { OnlyPiece(ps, |text|, at, k, m); }
    var link := LinkAt(text, unescape, at).value;
    if link in ps {
      var m :| 0 <= m < |ps| && ps[m] == link;
      assert m == k;
    }
  }

  lemma LinkStarts(text: string, unescape: Unescape, at: nat)
    requires LinkAt(text, unescape, at).Some?
    ensures LinkAt(text, unescape, at).value.from == at < LinkAt(text, unescape, at).value.to <= |text|
  {
    hide LabelStop, CloseAt, Destination, ValidDestination;
  }

  lemma OnlyPiece(ps: seq<Piece>, n: nat, at: nat, k: nat, m: nat)
    requires Covers(ps, 0, n) && k < |ps| && m < |ps| && k != m && ps[k].from <= at < ps[k].to
    ensures !(ps[m].from <= at < ps[m].to)
  {
    if m < k { CoversInOrder(ps, 0, n, m, k); } else { CoversInOrder(ps, 0, n, k, m); }
  }

  // ----- every link can be written -------------------------------------------------------------

  /** A destination with its parentheses and backslashes escaped. */
  function Spelled(destination: string): string {
    if destination == "" then ""
    else (if destination[0] in "()\\" then "\\" else "") + [destination[0]] + Spelled(destination[1..])
  }

  predicate Caption(s: string) { 0 < |s| <= LABEL_LIMIT && forall i | 0 <= i < |s| :: s[i] !in "[\n]" }

  /** Within the limit, and of an accepted scheme once unescaped. */
  predicate Accepted(d: string, unescape: Unescape) { |d| <= DESTINATION_LIMIT && LinkScheme(unescape(d)) }

  /** No white space and no escaped angle bracket. */
  predicate Unambiguous(d: string) { forall i | 0 <= i < |d| :: !IsSpace(d[i]) && !At(d, "&lt;", i) && !At(d, "&gt;", i) }

  lemma UnambiguousTail(d: string)
    requires d != "" && Unambiguous(d)
    ensures Unambiguous(d[1..])
  {
    hide IsSpace, At;
    forall i | 0 <= i < |d| - 1
      ensures !IsSpace(d[1..][i]) && !At(d[1..], "&lt;", i) && !At(d[1..], "&gt;", i)
    {
      AtShifted(d, "&lt;", i);
      AtShifted(d, "&gt;", i);
      assert d[1..][i] == d[i + 1] && !IsSpace(d[i + 1]) && !At(d, "&lt;", i + 1) && !At(d, "&gt;", i + 1);
    }
  }

  lemma AtShifted(d: string, part: string, i: nat)
    requires d != ""
    ensures At(d[1..], part, i) <==> At(d, part, i + 1)
  {
    if i + 1 + |part| <= |d| { assert d[1..][i..i + |part|] == d[i + 1..i + 1 + |part|]; }
  }

  lemma SpelledStarts(d: string, after: string, c: char)
    requires (Spelled(d) + ")" + after)[0] == c && c !in "()\\"
    ensures d != "" && d[0] == c && Spelled(d) == [c] + Spelled(d[1..])
  {
    assert Spelled("") + ")" == ")";
  }

  /** What a spelled destination starts with, if it needs no escape, the destination starts with. */
  lemma {:induction false} SpelledPrefix(d: string, after: string, p: string)
    requires p <= Spelled(d) + ")" + after && forall i | 0 <= i < |p| :: p[i] !in "()\\"
    ensures p <= d
  {
    if p != "" {
      var all := Spelled(d) + ")" + after;
      assert all[0] == p[0];
      SpelledStarts(d, after, p[0]);
      assert all[1..] == Spelled(d[1..]) + ")" + after;
      assert p[1..] <= all[1..];
      SpelledPrefix(d[1..], after, p[1..]);
      assert d == [d[0]] + d[1..] && p == [p[0]] + p[1..];
    }
  }

  function LinkText(caption: string, destination: string): string { "[" + caption + "](" + Spelled(destination) + ")" }

  lemma LinkTextParts(text: string, from: nat, caption: string, destination: string)
    requires from < |text| && LinkText(caption, destination) <= text[from..]
    ensures var stop := from + |caption| + 1;
      var end := stop + 2 + |Spelled(destination)|;
      && end + 1 == from + |LinkText(caption, destination)| <= |text|
      && text[from] == '[' && text[from + 1..stop] == caption && text[stop] == ']' && text[stop + 1] == '('
      && text[stop + 2..] == Spelled(destination) + ")" + text[end + 1..]
  {
    hide Spelled;
    var all, tail, link := text[from..], text[from + |LinkText(caption, destination)|..], LinkText(caption, destination);
    assert all == link + tail;
    var stop := |caption| + 1;
    assert link[1..stop] == caption && link[stop] == ']' && link[stop + 1] == '(' && link[stop + 2..] == Spelled(destination) + ")";
    assert text[from + 1..from + stop] == all[1..stop] == link[1..stop];
    assert text[from + stop + 2..] == all[stop + 2..] == link[stop + 2..] + tail;
  }

  lemma {:induction false} LabelStops(text: string, from: nat, caption: string, k: nat)
    requires Caption(caption) && |text| > from + |caption| + 1
    requires text[from + 1..from + |caption| + 1] == caption && text[from + |caption| + 1] == ']'
    requires 1 <= k <= |caption| + 1
    ensures LabelStop(text, from, from + k) == from + |caption| + 1
    decreases |caption| + 1 - k
  {
    if k <= |caption| {
      assert text[from + k] == caption[k - 1];
      LabelStops(text, from, caption, k + 1);
    }
  }

  /** What the destination scan makes of a spelled destination followed by the closing parenthesis. */
  lemma {:induction false} SpelledReads(text: string, d: string, at: nat, end: nat)
    requires at <= end < |text| && text[at..] == Spelled(d) + ")" + text[end + 1..] && Unambiguous(d)
    ensures CloseAt(text, at, 0) == Some(end)
    ensures Destination(text, at, end) == d && !AnyAmbiguous(text, at, end)
    decreases |d|
  {
    var tail := text[at..];
    assert tail[0] == text[at];
    if d == "" {
      assert |tail| == 1 + (|text| - end - 1);
    } else {
      var unit := (if d[0] in "()\\" then "\\" else "") + [d[0]];
      assert tail == unit + (Spelled(d[1..]) + ")" + text[end + 1..]);
      assert text[at + |unit|..] == tail[|unit|..] == Spelled(d[1..]) + ")" + text[end + 1..];
      UnambiguousTail(d);
      assert !IsSpace(d[0]) && !At(d, "&lt;", 0) && !At(d, "&gt;", 0);
      hide IsSpace, CloseAt, Destination, AnyAmbiguous, Unambiguous;
      SpelledReads(text, d[1..], at + |unit|, end);
      EntityStarts(text, d, at, end, "&lt;");
      EntityStarts(text, d, at, end, "&gt;");
      UnitReads(text, d, at, end, unit);
    }
  }

  lemma UnitReads(text: string, d: string, at: nat, end: nat, unit: string)
    requires d != "" && unit == (if d[0] in "()\\" then "\\" else "") + [d[0]]
    requires at + |unit| <= end < |text| && text[at..at + |unit|] == unit && !IsSpace(d[0])
    requires !At(text, "&lt;", at) && !At(text, "&gt;", at)
    ensures CloseAt(text, at, 0) == CloseAt(text, at + |unit|, 0)
    ensures Destination(text, at, end) == [d[0]] + Destination(text, at + |unit|, end)
    ensures AnyAmbiguous(text, at, end) == AnyAmbiguous(text, at + |unit|, end)
  {
    hide IsSpace;
    assert text[at] == unit[0];
    if d[0] in "()\\" {
      assert text[at + 1] == unit[1] == d[0] && Escaped(text, at);
    } else {
      assert !Escaped(text, at);
    }
  }

  lemma EntityStarts(text: string, d: string, at: nat, end: nat, entity: string)
    requires at <= end < |text| && text[at..] == Spelled(d) + ")" + text[end + 1..] && entity in ["&lt;", "&gt;"]
    ensures At(text, entity, at) ==> At(d, entity, 0)
  {
    hide Spelled;
    if At(text, entity, at) {
      assert text[at..][..|entity|] == entity;
      SpelledPrefix(d, text[end + 1..], entity);
    }
  }

  lemma CandidateRead(text: string, from: nat, unescape: Unescape, stop: nat, end: nat)
    requires Opens(text, from) && LabelStop(text, from, from + 1) == stop > from + 1 && LabelCloses(text, stop)
    requires CloseAt(text, stop + 2, 0) == Some(end)
    ensures PieceAt(text, unescape, from) ==
      if ValidDestination(text, unescape, stop + 2, end)
      then Link(from, end + 1, text[from + 1..stop], unescape(Destination(text, stop + 2, end))) else Literal(from, end + 1)
    ensures LinkAt(text, unescape, from).Some? <==> ValidDestination(text, unescape, stop + 2, end)
  {
    hide Opens, LabelStop, LabelCloses, CloseAt, ValidDestination, Destination;
  }

  /**
    Every caption and destination can be written as a link, anywhere but behind the
    mark of an image, and is read back as just that link if the destination is
    accepted, whatever parentheses and backslashes it holds and whatever follows.
    Written with any other destination it is copied whole, nothing in it being looked at.
   */
  lemma LinkRoundTrip(text: string, from: nat, unescape: Unescape, caption: string, d: string)
    requires Caption(caption) && Unambiguous(d) && from < |text| && LinkText(caption, d) <= text[from..]
    ensures var image, to := from > 0 && text[from - 1] == '!', from + |LinkText(caption, d)|;
      && to <= |text|
      && PieceAt(text, unescape, from) == (if image then Literal(from, from + 1)
                                           else if Accepted(d, unescape) then Link(from, to, caption, unescape(d)) else Literal(from, to))
      && (LinkAt(text, unescape, from).Some? <==> !image && Accepted(d, unescape))
  {
    var stop := from + |caption| + 1;
    var end := stop + 2 + |Spelled(d)|;
    LinkTextParts(text, from, caption, d);
    hide LinkText, Spelled;
    LabelStops(text, from, caption, 1);
    SpelledReads(text, d, stop + 2, end);
    hide LabelStop, IsSpace, LinkScheme, Unambiguous, CloseAt, Destination, AnyAmbiguous;
    if Opens(text, from) {
      hide PieceAt, LinkAt;
      CandidateRead(text, from, unescape, stop, end);
    }
    hide LabelCloses;
  }

  /** A label that is not closed hides no later bracket: the piece it makes ends before the next one. */
  lemma OpenLabelHidesNothing(text: string, unescape: Unescape, from: nat)
    requires Opens(text, from) && !LabelCloses(text, LabelStop(text, from, from + 1))
    ensures var p := PieceAt(text, unescape, from);
      && p.Literal? && p.to <= from + LABEL_LIMIT + 2 && forall j | from < j < p.to :: text[j] != '['
  {
    LabelHoldsNone(text, from, from + 1);
  }

  lemma {:induction false} LabelHoldsNone(text: string, from: nat, cursor: nat)
    requires from < cursor <= |text| && cursor - from <= LABEL_LIMIT + 1
    ensures var stop := LabelStop(text, from, cursor);
      stop - from <= LABEL_LIMIT + 1 && forall j | cursor <= j < stop :: text[j] !in "[\n]"
    decreases |text| - cursor
  {
    if LabelStop(text, from, cursor) != cursor { LabelHoldsNone(text, from, cursor + 1); }
  }
}
