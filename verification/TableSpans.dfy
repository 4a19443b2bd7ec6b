/**
  Splitting a reply without tearing its tables: where a cut may fall inside a
  Markdown table, which rows stay whole, and which header a later part repeats.
 */
module TableSpans {
  import opened Numbers
  import opened Options
  import opened TextSpans

  /** Source range of a table; data rows start after the header and delimiter rows. */
  datatype Block = Block(start: nat, dataStart: nat, end: nat, header: string)

  ghost predicate Ordered(blocks: seq<Block>, n: nat) {
    && (forall i | 0 <= i < |blocks| :: blocks[i].start < blocks[i].dataStart <= blocks[i].end <= n)
    && (forall i, j | 0 <= i < j < |blocks| :: blocks[i].end <= blocks[j].start)
  }

  // ----- recognising blocks -------------------------------------------------------------

  function Join(lines: seq<string>): string {
    if lines == [] then "" else Join(lines[..|lines| - 1]) + lines[|lines| - 1]
  }

  /** The table recogniser: the line after the table that starts at a line, at least two lines on. */
  type Recogniser = nat -> Option<nat>

  ghost predicate Sensible(find: Recogniser, n: nat) {
    forall i | 0 <= i < n && find(i).Some? :: i + 2 <= find(i).value <= n
  }

  function HeaderText(lines: seq<string>): string {
    var h := Join(lines);
    if h != "" && h[|h| - 1] != '\n' && h[|h| - 1] != '\r' then h + "\n" else h
  }

  function BlockAt(lines: seq<string>, i: nat, next: nat): Block
    requires i + 2 <= next <= |lines|
  {
    Block(|Join(lines[..i])|, |Join(lines[..i + 2])|, |Join(lines[..next])|, HeaderText(lines[i..i + 2]))
  }

  function BlocksFrom(lines: seq<string>, find: Recogniser, i: nat): seq<Block>
    requires Sensible(find, |lines|)
    decreases |lines| - i
  {
    if i >= |lines| then []
    else if find(i).None? then BlocksFrom(lines, find, i + 1)
    else [BlockAt(lines, i, find(i).value)] + BlocksFrom(lines, find, find(i).value)
  }

  method LineOffsets(lines: seq<string>) returns (offsets: seq<nat>)
    ensures |offsets| == |lines| + 1 && forall i | 0 <= i <= |lines| :: offsets[i] == |Join(lines[..i])|
  {
    offsets := [0];
    for k := 0 to |lines|
      invariant |offsets| == k + 1 && forall i | 0 <= i <= k :: offsets[i] == |Join(lines[..i])|
    {
      assert lines[..k + 1][..k] == lines[..k];
      offsets := offsets + [offsets[k] + |lines[k]|];
    }
  }

  method MarkdownTableBlocks(lines: seq<string>, find: Recogniser) returns (blocks: seq<Block>)
    requires Sensible(find, |lines|)
    ensures blocks == BlocksFrom(lines, find, 0)
  {
    hide Join, HeaderText;
    var offsets := LineOffsets(lines);
    blocks := [];
    var index := 0;
    while index < |lines|
      invariant index <= |lines| && BlocksFrom(lines, find, 0) == blocks + BlocksFrom(lines, find, index)
    {
      var found := find(index);
      if found.None? {
        index := index + 1;
      } else {
        var dataIndex := Min(index + 2, found.value);
        var b := Block(offsets[index], offsets[dataIndex], offsets[found.value], HeaderText(lines[index..dataIndex]));
        assert b == BlockAt(lines, index, found.value);
        assert blocks + BlocksFrom(lines, find, index) == blocks + [b] + BlocksFrom(lines, find, found.value);
        blocks := blocks + [b];
        index := found.value;
      }
    }
    assert blocks + BlocksFrom(lines, find, index) == blocks;
  }

  lemma {:induction false} JoinGrows(lines: seq<string>, i: nat, j: nat)
    requires i <= j <= |lines| && forall k | 0 <= k < |lines| :: lines[k] != ""
    ensures |Join(lines[..i])| + (j - i) <= |Join(lines[..j])| && Join(lines[..i]) <= Join(lines[..j])
    ensures Join(lines[..j]) == Join(lines[..i]) + Join(lines[i..j])
    decreases j - i
  {
    if i < j {
      JoinGrows(lines, i, j - 1);
      assert lines[..j][..j - 1] == lines[..j - 1] && lines[i..j][..j - 1 - i] == lines[i..j - 1];
    } else {
      assert lines[i..j] == [];
    }
  }

  /** A block carries the text of its header lines, ended by a line break. */
  predicate OwnHeader(b: Block, text: string) {
    && b.start <= b.dataStart <= |text|
    && (b.header == text[b.start..b.dataStart] || b.header == text[b.start..b.dataStart] + "\n")
  }

  lemma BlockBounds(lines: seq<string>, i: nat, next: nat)
    requires i + 2 <= next <= |lines| && forall k | 0 <= k < |lines| :: lines[k] != ""
    ensures var b := BlockAt(lines, i, next);
      |Join(lines[..i])| == b.start < b.dataStart <= b.end == |Join(lines[..next])| <= |Join(lines)|
    ensures OwnHeader(BlockAt(lines, i, next), Join(lines))
  {
    JoinGrows(lines, i, i + 2);
    JoinGrows(lines, i + 2, next);
    JoinGrows(lines, next, |lines|);
    JoinGrows(lines, i + 2, |lines|);
    assert lines[..|lines|] == lines;
    assert Join(lines)[|Join(lines[..i])|..|Join(lines[..i + 2])|] == Join(lines[i..i + 2]);
  }

  lemma OrderedNone(n: nat)
    ensures Ordered([], n)
  {
  }

  lemma OrderedCons(first: Block, rest: seq<Block>, n: nat)
    requires Ordered(rest, n) && forall k | 0 <= k < |rest| :: first.end <= rest[k].start
    requires first.start < first.dataStart <= first.end <= n
    ensures Ordered([first] + rest, n)
  {
    var all := [first] + rest;
    assert forall k | 1 <= k < |all| :: all[k] == rest[k - 1];
  }

  /** The recognised tables are disjoint and in order. */
  lemma {:induction false} BlocksAreOrdered(lines: seq<string>, find: Recogniser, i: nat)
    requires Sensible(find, |lines|) && i <= |lines| && forall k | 0 <= k < |lines| :: lines[k] != ""
    ensures Ordered(BlocksFrom(lines, find, i), |Join(lines)|)
    ensures forall k | 0 <= k < |BlocksFrom(lines, find, i)| :: |Join(lines[..i])| <= BlocksFrom(lines, find, i)[k].start
    decreases |lines| - i
  {
    hide Join, BlockAt, Ordered;
    if i >= |lines| {
      OrderedNone(|Join(lines)|);
    } else {
      var next := if find(i).Some? then find(i).value else i + 1;
      BlocksAreOrdered(lines, find, next);
      JoinGrows(lines, i, next);
      if find(i).Some? {
        BlockBounds(lines, i, next);
        OrderedCons(BlockAt(lines, i, next), BlocksFrom(lines, find, next), |Join(lines)|);
      }
    }
  }

  /** Each carries its own header lines. */
  lemma {:induction false} HeadersAreOwn(lines: seq<string>, find: Recogniser, i: nat)
    requires Sensible(find, |lines|) && i <= |lines| && forall k | 0 <= k < |lines| :: lines[k] != ""
    ensures forall b | b in BlocksFrom(lines, find, i) :: OwnHeader(b, Join(lines))
    decreases |lines| - i
  {
    if i < |lines| {
      var next := if find(i).Some? then find(i).value else i + 1;
      HeadersAreOwn(lines, find, next);
      if find(i).Some? { BlockBounds(lines, i, next); }
      hide Join, BlockAt, OwnHeader;
    }
  }

  /** Every block is a recognised table, with its header and data lines. */
  lemma {:induction false} BlocksAreRecognised(lines: seq<string>, find: Recogniser, i: nat)
    requires Sensible(find, |lines|) && i <= |lines|
    ensures forall b | b in BlocksFrom(lines, find, i) ::
      exists k :: i <= k < |lines| && find(k).Some? && b == BlockAt(lines, k, find(k).value)
    decreases |lines| - i
  {
    hide BlockAt;
    if i < |lines| {
      var next := if find(i).Some? then find(i).value else i + 1;
      BlocksAreRecognised(lines, find, next);
    }
  }

  /** No table is missed: every line the recogniser takes lies in a block, its own or an earlier one that covers it. */
  lemma {:induction false} NoTableMissed(lines: seq<string>, find: Recogniser, i: nat, k: nat)
    requires Sensible(find, |lines|) && i <= k < |lines| && find(k).Some?
    requires forall j | 0 <= j < |lines| :: lines[j] != ""
    ensures exists b :: b in BlocksFrom(lines, find, i) && b.start <= |Join(lines[..k])| < b.end
    decreases |lines| - i
  {
    hide Join;
    var next := if find(i).Some? then find(i).value else i + 1;
    if find(i).Some? && k < next {
      BlockBounds(lines, i, next);
      JoinGrows(lines, i, k);
      JoinGrows(lines, k, next);
      assert BlockAt(lines, i, next) in BlocksFrom(lines, find, i);
    } else if find(i).Some? || i < k {
      NoTableMissed(lines, find, next, k);
      var b :| b in BlocksFrom(lines, find, next) && b.start <= |Join(lines[..k])| < b.end;
      assert b in BlocksFrom(lines, find, i);
    }
  }

  // ----- rows ---------------------------------------------------------------------------------

  /** The end of a `\r\n`, `\n` or `\r`, the first of these that matches. */
  predicate LineEndAt(text: string, e: nat) {
    0 < e <= |text| && (text[e - 1] == '\n' || (text[e - 1] == '\r' && !(e < |text| && text[e] == '\n')))
  }

  predicate IsRow(text: string, b: Block, e: nat) { b.dataStart < e <= b.end && LineEndAt(text, e) }

  /** The last row boundary in (lo, hi]. */
  function LastRow(text: string, b: Block, lo: nat, hi: nat): (r: Option<nat>)
    ensures r.Some? ==> lo < r.value <= hi && IsRow(text, b, r.value)
    ensures forall e | (if r.Some? then r.value < e else lo < e) && e <= hi :: !IsRow(text, b, e)
    decreases hi
  {
    if hi <= lo then None else if IsRow(text, b, hi) then Some(hi) else LastRow(text, b, lo, hi - 1)
  }

  /** The first row boundary after `at`. */
  function NextRow(text: string, b: Block, at: nat): (r: Option<nat>)
    ensures r.Some? ==> at < r.value && IsRow(text, b, r.value)
    ensures forall e | at < e && (r.Some? ==> e < r.value) :: !IsRow(text, b, e)
    decreases |text| - at
  {
    if at >= |text| then None else if IsRow(text, b, at + 1) then Some(at + 1) else NextRow(text, b, at + 1)
  }

  /** Where the row that contains or starts at `at` ends; the text's end if nothing ends it. */
  function RowEnd(text: string, b: Block, at: nat): nat {
    var r := NextRow(text, b, at);
    if r.Some? then r.value else |text|
  }

  // ----- the splitter ------------------------------------------------------------------------------

  predicate Inside(b: Block, e: nat) { b.start < e < b.end }

  /** The first block a boundary would fall strictly inside of. */
  function FirstHit(blocks: seq<Block>, e: nat, i: nat): (r: Option<nat>)
    requires i <= |blocks|
    ensures r.Some? ==> i <= r.value < |blocks| && Inside(blocks[r.value], e)
    ensures forall k | i <= k < (if r.Some? then r.value else |blocks|) :: !Inside(blocks[k], e)
    decreases |blocks| - i
  {
    if i == |blocks| then None else if Inside(blocks[i], e) then Some(i) else FirstHit(blocks, e, i + 1)
  }

  /** The boundary moved to a row boundary of `b`, or in front of `b`, when that is possible. */
  function RowCut(text: string, b: Block, start: nat, end: nat, limit: nat): nat {
    var safe := LastRow(text, b, start, end);
    if safe.Some? then safe.value
    else if start < b.start then b.start
    else
      var following := NextRow(text, b, start);
      if following.None? || following.value - start > limit then end else following.value
  }

  function TableSpanEnd(text: string, blocks: seq<Block>, start: nat, limit: nat): (e: nat)
    requires limit > 0 && start < |text| && Ordered(blocks, |text|)
    ensures start < e <= Min(|text|, start + limit)
  {
    var end := PreferredSpanEnd(text, start, Min(|text|, start + limit), limit);
    var hit := FirstHit(blocks, end, 0);
    if hit.None? then end else RowCut(text, blocks[hit.value], start, end, limit)
  }

  function TableSpansFrom(text: string, blocks: seq<Block>, start: nat, limit: nat): (spans: seq<Span>)
    requires limit > 0 && start <= |text| && Ordered(blocks, |text|)
    ensures Tiles(spans, start, |text|, limit)
    decreases |text| - start
  {
    if start == |text| then []
    else
      var end := TableSpanEnd(text, blocks, start, limit);
      var rest := TableSpansFrom(text, blocks, end, limit);
      TilesPrepend(start, end, rest, |text|, limit);
      [Span(start, end)] + rest
  }

  method SplitTableAwareSpans(text: string, blocks: seq<Block>, limit: int) returns (r: Option<seq<Span>>)
    requires Ordered(blocks, |text|)
    ensures r == if limit <= 0 then None else Some(TableSpansFrom(text, blocks, 0, limit))
  {
    hide PreferredSpanEnd, Tiles, LastRow, NextRow;
    if limit <= 0 { return None; }
    var spans: seq<Span> := [];
    var start := 0;
    while start < |text|
      invariant start <= |text| && TableSpansFrom(text, blocks, 0, limit) == spans + TableSpansFrom(text, blocks, start, limit)
    {
      var end := NextEnd(text, blocks, start, limit);
      assert spans + TableSpansFrom(text, blocks, start, limit)
             == spans + [Span(start, end)] + TableSpansFrom(text, blocks, end, limit);
      spans := spans + [Span(start, end)];
      start := end;
    }
    assert spans + TableSpansFrom(text, blocks, start, limit) == spans;
    return Some(spans);
  }

  method NextEnd(text: string, blocks: seq<Block>, start: nat, limit: nat) returns (end: nat)
    requires limit > 0 && start < |text| && Ordered(blocks, |text|)
    ensures end == TableSpanEnd(text, blocks, start, limit)
  {
    hide PreferredSpanEnd, LastRow, NextRow;
    var hardEnd := Min(|text|, start + limit);
    end := PreferredSpanEnd(text, start, hardEnd, limit);
    ghost var first := end;
    var i := 0;
    while i < |blocks|
      invariant i <= |blocks| && end == first && FirstHit(blocks, end, 0) == FirstHit(blocks, end, i)
    {
      var b := blocks[i];
      if b.start < end < b.end {
        var safe := LastRow(text, b, start, end);
        if safe.Some? { end := safe.value; break; }
        if start < b.start { end := b.start; break; }
        var following := NextRow(text, b, start);
        if following.None? || following.value - start > limit {
          end := PreferredSpanEnd(text, start, hardEnd, limit);
          if end <= start { end := hardEnd; }
          break;
        }
        end := following.value;
        break;
      }
      i := i + 1;
    }
    if end <= start { end := hardEnd; }
  }

  // ----- where a table may be cut ----------------------------------------------------------------------

  lemma RowCutStays(text: string, b: Block, start: nat, end: nat, limit: nat)
    requires Inside(b, end) && b.start <= b.dataStart
    ensures b.start <= RowCut(text, b, start, end, limit) <= b.end
  {
  }

  /** A cut strictly inside a block was placed by that block. */
  lemma HitIs(text: string, blocks: seq<Block>, start: nat, limit: nat, k: nat)
    requires limit > 0 && start < |text| && Ordered(blocks, |text|) && k < |blocks|
    requires Inside(blocks[k], TableSpanEnd(text, blocks, start, limit))
    ensures FirstHit(blocks, PreferredSpanEnd(text, start, Min(|text|, start + limit), limit), 0) == Some(k)
  {
    hide PreferredSpanEnd, RowCut;
    var preferred := PreferredSpanEnd(text, start, Min(|text|, start + limit), limit);
    var hit := FirstHit(blocks, preferred, 0);
    if hit.Some? { RowCutStays(text, blocks[hit.value], start, preferred, limit); }
  }

  /**
    A cut strictly inside a table is a row boundary of it, except in exactly one
    case: the span starts in that table and the rest of the row it starts in is
    longer than the limit.
   */
  lemma CutIsRowBoundaryExactly(text: string, blocks: seq<Block>, start: nat, limit: nat, k: nat)
    requires limit > 0 && start < |text| && Ordered(blocks, |text|) && k < |blocks|
    requires Inside(blocks[k], TableSpanEnd(text, blocks, start, limit))
    ensures IsRow(text, blocks[k], TableSpanEnd(text, blocks, start, limit)) <==>
      !(start >= blocks[k].start && RowEnd(text, blocks[k], start) - start > limit)
  {
    HitIs(text, blocks, start, limit, k);
    hide PreferredSpanEnd, FirstHit;
  }

  /**
    Where the cut is, exactly.  The ordinary boundary stands unless it falls strictly
    inside a table; then it moves back to that table's last row end in the span, else
    in front of the table, else forward to its next row end if the limit allows it.
   */
  lemma TableCutExactly(text: string, blocks: seq<Block>, start: nat, limit: nat)
    requires limit > 0 && start < |text| && Ordered(blocks, |text|)
    ensures var e, g := TableSpanEnd(text, blocks, start, limit), PreferredSpanEnd(text, start, Min(|text|, start + limit), limit);
      && ((forall k | 0 <= k < |blocks| :: !(blocks[k].start < g < blocks[k].end)) ==> e == g)
      && forall k | 0 <= k < |blocks| && blocks[k].start < g < blocks[k].end :: CutBy(text, blocks[k], start, g, limit, e)
  {
    hide PreferredSpanEnd, IsRow;
    var g := PreferredSpanEnd(text, start, Min(|text|, start + limit), limit);
    forall k | 0 <= k < |blocks| && blocks[k].start < g < blocks[k].end
      ensures CutBy(text, blocks[k], start, g, limit, TableSpanEnd(text, blocks, start, limit))
    {
      OnlyHit(text, blocks, g, k);
      CutByRow(text, blocks[k], start, g, limit);
      hide RowCut, CutBy, FirstHit;
    }
  }

  predicate CutBy(text: string, b: Block, start: nat, g: nat, limit: nat, e: nat) {
    if exists r: nat | start < r <= g :: IsRow(text, b, r) then
      start < e <= g && IsRow(text, b, e) && forall r: nat | e < r <= g :: !IsRow(text, b, r)
    else if start < b.start then e == b.start
    else if exists r: nat | start < r <= start + limit :: IsRow(text, b, r) then
      start < e <= start + limit && IsRow(text, b, e) && forall r: nat | start < r < e :: !IsRow(text, b, r)
    else e == g
  }

  lemma CutByRow(text: string, b: Block, start: nat, g: nat, limit: nat)
    requires start < g
    ensures CutBy(text, b, start, g, limit, RowCut(text, b, start, g, limit))
  {
    hide IsRow;
  }

  lemma OnlyHit(text: string, blocks: seq<Block>, g: nat, k: nat)
    requires Ordered(blocks, |text|) && k < |blocks| && Inside(blocks[k], g)
    ensures FirstHit(blocks, g, 0) == Some(k)
  {
  }

  /** A data row that starts at `a`, or the header and first data row together; it ends inside the block. */
  predicate RowFrom(text: string, b: Block, a: nat) {
    (IsRow(text, b, a) || a == b.start) && RowEnd(text, b, a) <= b.end
  }

  /** A cut strictly inside that row. */
  predicate Torn(text: string, b: Block, a: nat, e: nat) {
    b.dataStart < e && a < e < RowEnd(text, b, a)
  }

  lemma SameRow(text: string, b: Block, a: nat, at: nat)
    requires a <= at < RowEnd(text, b, a)
    ensures RowEnd(text, b, at) == RowEnd(text, b, a)
  {
  }

  lemma CutSparesRow(text: string, blocks: seq<Block>, start: nat, limit: nat, k: nat, a: nat)
    requires limit > 0 && start < |text| && Ordered(blocks, |text|) && k < |blocks|
    requires RowFrom(text, blocks[k], a) && RowEnd(text, blocks[k], a) - a <= limit
    ensures !Torn(text, blocks[k], a, TableSpanEnd(text, blocks, start, limit))
  {
    var b, e := blocks[k], TableSpanEnd(text, blocks, start, limit);
    if a <= start < RowEnd(text, b, a) { SameRow(text, b, a, start); }
    if Inside(b, e) { CutIsRowBoundaryExactly(text, blocks, start, limit, k); }
    hide TableSpanEnd;
  }

  /**
    Rows that fit are never torn.  No cut falls strictly inside a data row whose
    length, or for the first data row the length of header and row together, is
    at most the limit.
   */
  lemma {:induction false} RowsStayWhole(text: string, blocks: seq<Block>, start: nat, limit: nat, k: nat, a: nat)
    requires limit > 0 && start <= |text| && Ordered(blocks, |text|) && k < |blocks|
    requires RowFrom(text, blocks[k], a) && RowEnd(text, blocks[k], a) - a <= limit
    ensures forall s | s in TableSpansFrom(text, blocks, start, limit) :: !Torn(text, blocks[k], a, s.end)
    decreases |text| - start
  {
    hide TableSpanEnd, RowEnd;
    if start < |text| {
      CutSparesRow(text, blocks, start, limit, k, a);
      RowsStayWhole(text, blocks, TableSpanEnd(text, blocks, start, limit), limit, k, a);
    }
  }

  lemma NoRowBefore(text: string, b: Block, at: nat, end: nat)
    requires b.dataStart <= at < end <= b.end <= |text| && text[end - 1] == '\n' && (b.dataStart < end)
    requires forall e: nat | b.dataStart < e < end :: !LineEndAt(text, e)
    ensures forall from: nat | from <= at :: NextRow(text, b, from) == Some(end)
  {
    assert IsRow(text, b, end);
  }

  /** Fitting alone does not protect the first data row: 24 code points fit 40, header and row do not. */
  lemma FirstRowMayBeTorn()
    ensures var text := "| head |\n|------|\n| aaa bbb ccc ddd eee |\n";
      var table := Block(0, 18, 42, "| head |\n|------|\n");
      Ordered([table], |text|) && RowEnd(text, table, 18) == 42 && Torn(text, table, 18, TableSpanEnd(text, [table], 0, 40))
  {
    var text := "| head |\n|------|\n| aaa bbb ccc ddd eee |\n";
    var table := Block(0, 18, 42, "| head |\n|------|\n");
    assert |text| == 42;
    NoRowBefore(text, table, 18, 42);
    TornFirstRow(text, table);
  }

  lemma TornFirstRow(text: string, table: Block)
    requires |text| == 42 && table.start == 0 && table.dataStart == 18 && table.end == 42
    requires forall from: nat | from <= 18 :: NextRow(text, table, from) == Some(42)
    ensures Torn(text, table, 18, TableSpanEnd(text, [table], 0, 40))
  {
    var e := PreferredSpanEnd(text, 0, 40, 40);
    PreferredAboveHalf(text);
    hide PreferredSpanEnd, NextRow, LastRow;
    assert NextRow(text, table, 0) == Some(42);
    assert FirstHit([table], e, 0) == Some(0);
    assert LastRow(text, table, 0, e).None?;
  }

  lemma PreferredAboveHalf(text: string)
    requires |text| == 42
    ensures 20 < PreferredSpanEnd(text, 0, 40, 40) <= 40
  {
    hide Preferred;
  }

  // ----- continuation headers ----------------------------------------------------------------------------

  function ContinuationFrom(blocks: seq<Block>, start: nat, limit: nat, i: nat): string
    requires i <= |blocks|
    decreases |blocks| - i
  {
    if i == |blocks| then ""
    else if blocks[i].dataStart <= start < blocks[i].end && start != blocks[i].start then
      if |blocks[i].header| > limit then "" else blocks[i].header
    else ContinuationFrom(blocks, start, limit, i + 1)
  }

  /** None when the planning limit is not positive. */
  method TableContinuationHeader(blocks: seq<Block>, start: nat, limit: int) returns (r: Option<string>)
    ensures r == if limit <= 0 then None else Some(ContinuationFrom(blocks, start, limit, 0))
  {
    if limit <= 0 { return None; }
    for i := 0 to |blocks|
      invariant ContinuationFrom(blocks, start, limit, 0) == ContinuationFrom(blocks, start, limit, i)
    {
      var b := blocks[i];
      if b.dataStart <= start < b.end && start != b.start {
        if |b.header| > limit { return Some(""); }
        return Some(b.header);
      }
    }
    return Some("");
  }

  /** A part repeats a header exactly when it starts among the data rows of a table whose header fits. */
  lemma {:induction false} ContinuationExact(blocks: seq<Block>, n: nat, start: nat, limit: nat, i: nat, k: nat)
    requires Ordered(blocks, n) && i <= k < |blocks| && blocks[k].dataStart <= start < blocks[k].end
    ensures ContinuationFrom(blocks, start, limit, i) == if |blocks[k].header| <= limit then blocks[k].header else ""
    decreases k - i
  {
    if i < k {
      assert blocks[i].end <= blocks[k].start;
      ContinuationExact(blocks, n, start, limit, i + 1, k);
    }
  }

  lemma {:induction false} NoContinuation(blocks: seq<Block>, start: nat, limit: nat, i: nat)
    requires i <= |blocks| && forall k | 0 <= k < |blocks| :: !(blocks[k].dataStart <= start < blocks[k].end)
    ensures ContinuationFrom(blocks, start, limit, i) == ""
    decreases |blocks| - i
  {
    if i < |blocks| { NoContinuation(blocks, start, limit, i + 1); }
  }
}
