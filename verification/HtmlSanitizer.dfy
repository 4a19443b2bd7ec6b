/**
  The sendMessage HTML sanitizer as an event machine: an output list and a stack
  of open tags, and why the tags it writes are always well nested.
 */
module HtmlSanitizer {
  import opened Chars
  import opened Options

  datatype Token = OpenTag(name: string, attrs: string) | CloseTag(name: string) | Text(text: string)

  datatype Attr = Attr(key: string, value: Option<string>)

  /** Parser events; tag names come in lower case, `source` is the tag as written. */
  datatype Event =
    | StartTag(name: string, attrs: seq<Attr>, source: string)
    | StartEndTag(name: string, attrs: seq<Attr>, source: string)
    | EndTag(name: string)
    | Data(text: string)
    | Reference(decoded: string)
    | Comment

  datatype State = State(output: seq<Token>, open: seq<string>, cell: nat)

  const EMPTY: State := State([], [], 0)

  const TAGS: set<string> := {"a", "b", "code", "em", "i", "s", "strong", "u", "blockquote", "pre"}

  const LINE_END_TAGS: set<string> :=
    {"details", "footer", "h1", "h2", "h3", "h4", "h5", "h6", "li", "ol", "p", "summary", "table", "ul"}

  /** `html.unescape`. */
  type Unescape = string -> string

  // ----- links ------------------------------------------------------------------------

  function FirstHref(attrs: seq<Attr>): Option<string> {
    if attrs == [] then None
    else if attrs[0].key == "href" && attrs[0].value.Some? then attrs[0].value
    else FirstHref(attrs[1..])
  }

  predicate SafeHref(href: string) {
    && (forall i | 0 <= i < |href| :: !IsSpace(href[i]) && href[i] != '<' && href[i] != '>')
    && LinkScheme(href)
  }

  /** The rendered attributes of an allowed tag; None drops the tag. */
  function Attributes(unescape: Unescape, name: string, attrs: seq<Attr>): Option<string> {
    if name == "a" then
      var href := FirstHref(attrs);
      if href.None? || href.value == "" || !SafeHref(unescape(href.value)) then None
      else Some(" href=\"" + Escape(unescape(href.value), true) + "\"")
    else if name == "blockquote" && exists i | 0 <= i < |attrs| :: attrs[i].key == "expandable" then Some(" expandable")
    else Some("")
  }

  // ----- one event ----------------------------------------------------------------------

  predicate InsidePre(open: seq<string>) { "pre" in open }

  function Add(s: State, t: Token): State { s.(output := s.output + [t]) }

  predicate EndsLine(t: Token) { t.Text? && t.text != "" && t.text[|t.text| - 1] == '\n' }

  function Newline(s: State): State {
    if s.output != [] && !EndsLine(s.output[|s.output| - 1]) then Add(s, Text("\n")) else s
  }

  function OnStart(unescape: Unescape, s: State, name: string, attrs: seq<Attr>, source: string): State {
    if InsidePre(s.open) && name != "code" then Add(s, Text(Escape(source, false)))
    else if name in TAGS then
      var rendered := Attributes(unescape, name, attrs);
      if rendered.None? then s else Add(s, OpenTag(name, rendered.value)).(open := s.open + [name])
    else if name == "br" then Newline(s)
    else if name == "li" then Add(s, Text("- "))
    else if name == "tr" then s.(cell := 0)
    else if name == "td" || name == "th" then
      (if s.cell > 0 then Add(s, Text(" | ")) else s).(cell := s.cell + 1)
    else s
  }

  /** Closes open tags from the innermost one through `name`. */
  function CloseThrough(s: State, name: string): State
    decreases |s.open|
  {
    if s.open == [] then s
    else
      var top := s.open[|s.open| - 1];
      var closed := Add(s, CloseTag(top)).(open := s.open[..|s.open| - 1]);
      if top == name then closed else CloseThrough(closed, name)
  }

  function OnEnd(s: State, name: string): State {
    if InsidePre(s.open) && name != "code" && name != "pre" then Add(s, Text(Escape("</" + name + ">", false)))
    else if name in s.open then CloseThrough(s, name)
    else if name == "tr" || name in LINE_END_TAGS then Newline(s)
    else s
  }

  function OnStartEnd(unescape: Unescape, s: State, name: string, attrs: seq<Attr>, source: string): State {
    if InsidePre(s.open) then Add(s, Text(Escape(source, false)))
    else
      var started := OnStart(unescape, s, name, attrs, source);
      if name in TAGS then OnEnd(started, name) else started
  }

  function On(unescape: Unescape, s: State, e: Event): State {
    match e
    case StartTag(name, attrs, source) => OnStart(unescape, s, name, attrs, source)
    case StartEndTag(name, attrs, source) => OnStartEnd(unescape, s, name, attrs, source)
    case EndTag(name) => OnEnd(s, name)
    case Data(text) => Add(s, Text(Escape(text, false)))
    case Reference(decoded) => Add(s, Text(Escape(decoded, false)))
    case Comment => s
  }

  function Run(unescape: Unescape, events: seq<Event>): State {
    if events == [] then EMPTY else On(unescape, Run(unescape, events[..|events| - 1]), events[|events| - 1])
  }

  function CloseAll(s: State): State
    decreases |s.open|
  {
    if s.open == [] then s
    else CloseAll(Add(s, CloseTag(s.open[|s.open| - 1])).(open := s.open[..|s.open| - 1]))
  }

  // ----- the machine in place --------------------------------------------------------------

  class Sanitizer {
    const unescape: Unescape
    var output: seq<Token>
    var openTags: seq<string>
    var cell: nat

    function View(): State
      reads this
    { State(output, openTags, cell) }

    constructor (unescape: Unescape)
      ensures this.unescape == unescape && View() == EMPTY
    {
      this.unescape := unescape;
      output, openTags, cell := [], [], 0;
    }

    method AppendNewline()
      modifies this`output
      ensures View() == Newline(old(View()))
    {
      if output != [] && !EndsLine(output[|output| - 1]) { output := output + [Text("\n")]; }
    }

    method HandleStartTag(name: string, attrs: seq<Attr>, source: string)
      modifies this
      ensures View() == OnStart(unescape, old(View()), name, attrs, source)
    {
      if InsidePre(openTags) && name != "code" {
        output := output + [Text(Escape(source, false))];
        return;
      }
      if name in TAGS {
        var rendered := Attributes(unescape, name, attrs);
        if rendered.None? { return; }
        output := output + [OpenTag(name, rendered.value)];
        openTags := openTags + [name];
        return;
      }
      if name == "br" {
        AppendNewline();
      } else if name == "li" {
        output := output + [Text("- ")];
      } else if name == "tr" {
        cell := 0;
      } else if name == "td" || name == "th" {
        if cell > 0 { output := output + [Text(" | ")]; }
        cell := cell + 1;
      }
    }

    method HandleEndTag(name: string)
      modifies this
      ensures View() == OnEnd(old(View()), name)
    {
      if InsidePre(openTags) && name != "code" && name != "pre" {
        output := output + [Text(Escape("</" + name + ">", false))];
        return;
      }
      if name in openTags {
        var done := false;
        while openTags != [] && !done
          invariant CloseThrough(old(View()), name) == if done then View() else CloseThrough(View(), name)
          decreases |openTags|, if done then 0 else 1
        {
          var started := openTags[|openTags| - 1];
          openTags := openTags[..|openTags| - 1];
          output := output + [CloseTag(started)];
          done := started == name;
        }
        return;
      }
      if name == "tr" || name in LINE_END_TAGS { AppendNewline(); }
    }

    method HandleStartEndTag(name: string, attrs: seq<Attr>, source: string)
      modifies this
      ensures View() == OnStartEnd(unescape, old(View()), name, attrs, source)
    {
      if InsidePre(openTags) {
        output := output + [Text(Escape(source, false))];
        return;
      }
      HandleStartTag(name, attrs, source);
      if name in TAGS { HandleEndTag(name); }
    }

    method HandleData(data: string)
      modifies this`output
      ensures View() == On(unescape, old(View()), Data(data))
    {
      output := output + [Text(Escape(data, false))];
    }

    method Finish() returns (tokens: seq<Token>)
      modifies this
      ensures View() == CloseAll(old(View())) && tokens == output
    {
      while openTags != []
        invariant CloseAll(old(View())) == CloseAll(View())
        decreases |openTags|
      {
        output := output + [CloseTag(openTags[|openTags| - 1])];
        openTags := openTags[..|openTags| - 1];
      }
      tokens := output;
    }
  }

  // ----- nesting ----------------------------------------------------------------------------

  /** The tags left open by well-nested tokens; None for any token that may not follow. */
  function Nest(tokens: seq<Token>): Option<seq<string>> {
    if tokens == [] then Some([])
    else
      var before, t := Nest(tokens[..|tokens| - 1]), tokens[|tokens| - 1];
      if before.None? then None
      else
        var open := before.value;
        match t
        case OpenTag(name, _) => if name in TAGS && (InsidePre(open) ==> name == "code") then Some(open + [name]) else None
        case CloseTag(name) => if open != [] && open[|open| - 1] == name then Some(open[..|open| - 1]) else None
        case Text(_) => before
  }

  ghost predicate LinkTo(attrs: string, href: string) { SafeHref(href) && attrs == " href=\"" + Escape(href, true) + "\"" }

  /** A link carries one accepted, escaped destination, a quote at most `expandable`, other tags nothing. */
  ghost predicate CleanAttributes(name: string, attrs: string) {
    if name == "a" then exists href :: LinkTo(attrs, href) else attrs == "" || (name == "blockquote" && attrs == " expandable")
  }

  /** Text holds no markup, and tags only the attributes the sanitizer writes. */
  ghost predicate CleanToken(t: Token) {
    match t
    case OpenTag(name, attrs) => CleanAttributes(name, attrs)
    case CloseTag(_) => true
    case Text(text) => Inert(text, false)
  }

  ghost predicate AllClean(tokens: seq<Token>) { forall i | 0 <= i < |tokens| :: CleanToken(tokens[i]) }

  /** The output so far is well nested and leaves exactly the stack open. */
  ghost predicate Valid(s: State) { Nest(s.output) == Some(s.open) && AllClean(s.output) }

  lemma AddText(s: State, text: string)
    requires Valid(s) && Inert(text, false)
    ensures Valid(Add(s, Text(text)))
  {
    assert (s.output + [Text(text)])[..|s.output|] == s.output;
  }

  lemma AddEscaped(s: State, text: string)
    requires Valid(s)
    ensures Valid(Add(s, Text(Escape(text, false))))
  {
    EscapeIsInert(text, false);
    AddText(s, Escape(text, false));
  }

  lemma PushTag(s: State, name: string, attrs: string)
    requires Valid(s) && name in TAGS && (InsidePre(s.open) ==> name == "code") && CleanAttributes(name, attrs)
    ensures Valid(Add(s, OpenTag(name, attrs)).(open := s.open + [name]))
  {
    assert (s.output + [OpenTag(name, attrs)])[..|s.output|] == s.output;
  }

  lemma PopTag(s: State)
    requires Valid(s) && s.open != []
    ensures Valid(Add(s, CloseTag(s.open[|s.open| - 1])).(open := s.open[..|s.open| - 1]))
  {
    assert (s.output + [CloseTag(s.open[|s.open| - 1])])[..|s.output|] == s.output;
  }

  lemma AttributesAreClean(unescape: Unescape, name: string, attrs: seq<Attr>)
    ensures Attributes(unescape, name, attrs).Some? ==> CleanAttributes(name, Attributes(unescape, name, attrs).value)
  {
    var href := FirstHref(attrs);
    if name == "a" && Attributes(unescape, name, attrs).Some? {
      assert LinkTo(Attributes(unescape, name, attrs).value, unescape(href.value));
    }
  }

  lemma {:induction false} CloseThroughValid(s: State, name: string)
    requires Valid(s)
    ensures Valid(CloseThrough(s, name))
    decreases |s.open|
  {
    if s.open != [] {
      PopTag(s);
      var top := s.open[|s.open| - 1];
      if top != name { CloseThroughValid(Add(s, CloseTag(top)).(open := s.open[..|s.open| - 1]), name); }
    }
  }

  lemma NewlineValid(s: State)
    requires Valid(s)
    ensures Valid(Newline(s))
  {
    AddText(s, "\n");
  }

  lemma StartValid(unescape: Unescape, s: State, name: string, attrs: seq<Attr>, source: string)
    requires Valid(s)
    ensures Valid(OnStart(unescape, s, name, attrs, source))
  {
    AddEscaped(s, source);
    NewlineValid(s);
    AddText(s, "- ");
    AddText(s, " | ");
    AttributesAreClean(unescape, name, attrs);
    hide Escape, Newline, Attributes;
    var rendered := Attributes(unescape, name, attrs);
    if name in TAGS && rendered.Some? && (InsidePre(s.open) ==> name == "code") { PushTag(s, name, rendered.value); }
  }

  lemma EndValid(s: State, name: string)
    requires Valid(s)
    ensures Valid(OnEnd(s, name))
  {
    AddEscaped(s, "</" + name + ">");
    CloseThroughValid(s, name);
    NewlineValid(s);
  }

  lemma StepValid(unescape: Unescape, s: State, e: Event)
    requires Valid(s)
    ensures Valid(On(unescape, s, e))
  {
    match e
    case StartTag(name, attrs, source) => StartValid(unescape, s, name, attrs, source);
    case StartEndTag(name, attrs, source) =>
      AddEscaped(s, source);
      StartValid(unescape, s, name, attrs, source);
      EndValid(OnStart(unescape, s, name, attrs, source), name);
    case EndTag(name) => EndValid(s, name);
    case Data(text) => AddEscaped(s, text);
    case Reference(decoded) => AddEscaped(s, decoded);
    case Comment =>
  }

  lemma {:induction false} RunValid(unescape: Unescape, events: seq<Event>)
    ensures Valid(Run(unescape, events))
  {
    if events != [] {
      var n := |events| - 1;
      RunValid(unescape, events[..n]);
      StepValid(unescape, Run(unescape, events[..n]), events[n]);
    }
  }

  lemma {:induction false} CloseAllValid(s: State)
    requires Valid(s)
    ensures Valid(CloseAll(s)) && CloseAll(s).open == []
    decreases |s.open|
  {
    if s.open != [] {
      PopTag(s);
      CloseAllValid(Add(s, CloseTag(s.open[|s.open| - 1])).(open := s.open[..|s.open| - 1]));
    }
  }

  /**
    Whatever the parser reports, the finished output is a well-nested word of
    allowed tags with nothing but `code` inside `pre`; links have an accepted
    destination, and no text in it can be markup.
   */
  lemma OutputIsWellNested(unescape: Unescape, events: seq<Event>)
    ensures var tokens := CloseAll(Run(unescape, events)).output; Nest(tokens) == Some([]) && AllClean(tokens)
  {
    RunValid(unescape, events);
    CloseAllValid(Run(unescape, events));
  }

  // ----- text survives -------------------------------------------------------------------------

  /** The text of the data and reference events, escaped. */
  function Written(events: seq<Event>): seq<string> {
    if events == [] then []
    else
      var e := events[|events| - 1];
      Written(events[..|events| - 1]) +
      (if e.Data? then [Escape(e.text, false)] else if e.Reference? then [Escape(e.decoded, false)] else [])
  }

  predicate Subsequence(a: seq<string>, tokens: seq<Token>)
    decreases |tokens|
  {
    if a == [] then true
    else if tokens == [] then false
    else
      var t, rest := tokens[|tokens| - 1], tokens[..|tokens| - 1];
      (t == Text(a[|a| - 1]) && Subsequence(a[..|a| - 1], rest)) || Subsequence(a, rest)
  }

  lemma {:induction false} SubsequenceGrows(a: seq<string>, tokens: seq<Token>, more: seq<Token>)
    requires Subsequence(a, tokens)
    ensures Subsequence(a, tokens + more)
    decreases |more|
  {
    if more == [] {
      assert tokens + more == tokens;
    } else {
      var n := |more| - 1;
      SubsequenceGrows(a, tokens, more[..n]);
      assert (tokens + more)[..|tokens + more| - 1] == tokens + more[..n];
    }
  }

  lemma {:induction false} CloseThroughAppends(s: State, name: string)
    ensures s.output <= CloseThrough(s, name).output
    decreases |s.open|
  {
    if s.open != [] {
      CloseThroughAppends(Add(s, CloseTag(s.open[|s.open| - 1])).(open := s.open[..|s.open| - 1]), name);
    }
  }

  lemma OnAppends(unescape: Unescape, s: State, e: Event)
    ensures s.output <= On(unescape, s, e).output
  {
    if e.EndTag? { CloseThroughAppends(s, e.name); }
    if e.StartEndTag? {
      var started := OnStart(unescape, s, e.name, e.attrs, e.source);
      assert s.output <= started.output;
      CloseThroughAppends(started, e.name);
    }
  }

  lemma {:induction false} CloseAllAppends(s: State)
    ensures s.output <= CloseAll(s).output
    decreases |s.open|
  {
    if s.open != [] { CloseAllAppends(Add(s, CloseTag(s.open[|s.open| - 1])).(open := s.open[..|s.open| - 1])); }
  }

  lemma SubsequenceText(a: seq<string>, tokens: seq<Token>, text: string)
    requires Subsequence(a, tokens)
    ensures Subsequence(a + [text], tokens + [Text(text)])
  {
    assert (a + [text])[..|a|] == a && (tokens + [Text(text)])[..|tokens|] == tokens;
  }

  lemma {:induction false} RunKeepsText(unescape: Unescape, events: seq<Event>)
    ensures Subsequence(Written(events), Run(unescape, events).output)
  {
    if events != [] {
      var n := |events| - 1;
      var s, e := Run(unescape, events[..n]), events[n];
      RunKeepsText(unescape, events[..n]);
      hide Subsequence, Escape;
      if e.Data? {
        SubsequenceText(Written(events[..n]), s.output, Escape(e.text, false));
      } else if e.Reference? {
        SubsequenceText(Written(events[..n]), s.output, Escape(e.decoded, false));
      } else {
        OnAppends(unescape, s, e);
        hide On;
        var out := On(unescape, s, e).output;
        SubsequenceGrows(Written(events[..n]), s.output, out[|s.output|..]);
        assert out == s.output + out[|s.output|..];
        assert Written(events) == Written(events[..n]);
      }
    }
  }

  /** No text is lost: everything the parser reports as text is written, escaped, in order. */
  lemma TextSurvives(unescape: Unescape, events: seq<Event>)
    ensures Subsequence(Written(events), CloseAll(Run(unescape, events)).output)
  {
    var s := Run(unescape, events);
    RunKeepsText(unescape, events);
    CloseAllAppends(s);
    var out := CloseAll(s).output;
    assert out == s.output + out[|s.output|..];
    SubsequenceGrows(Written(events), s.output, out[|s.output|..]);
  }

  // ----- allowed markup survives -----------------------------------------------------------------

  /** The parser reports this event for a token that is already as the sanitizer writes it. */
  ghost predicate Reports(unescape: Unescape, e: Event, t: Token) {
    match t
    case OpenTag(name, attrs) =>
      && e.StartTag? && e.name == name
      && (if name == "a" then
            exists value :: e.attrs == [Attr("href", Some(value))] && value != "" && LinkTo(attrs, unescape(value))
          else if name == "blockquote" && attrs != "" then attrs == " expandable" && e.attrs == [Attr("expandable", None)]
          else attrs == "" && e.attrs == [])
    case CloseTag(name) => e == EndTag(name)
    case Text(text) => (e.Data? && text == Escape(e.text, false)) || (e.Reference? && text == Escape(e.decoded, false))
  }

  lemma {:induction false} NestPrefix(tokens: seq<Token>, n: nat)
    requires n <= |tokens| && Nest(tokens).Some?
    ensures Nest(tokens[..n]).Some?
    decreases |tokens|
  {
    if n < |tokens| {
      NestPrefix(tokens[..|tokens| - 1], n);
      assert tokens[..|tokens| - 1][..n] == tokens[..n];
    } else {
      assert tokens[..n] == tokens;
    }
  }

  lemma AllowedStart(unescape: Unescape, s: State, e: Event, t: Token)
    requires t.OpenTag? && Reports(unescape, e, t) && t.name in TAGS && (InsidePre(s.open) ==> t.name == "code")
    ensures On(unescape, s, e) == Add(s, t).(open := s.open + [t.name])
  {
    hide Escape;
    if t.name == "a" {
      var value :| e.attrs == [Attr("href", Some(value))] && value != "" && LinkTo(t.attrs, unescape(value));
      assert FirstHref(e.attrs) == Some(value);
    } else if t.name == "blockquote" && t.attrs != "" {
      assert e.attrs[0].key == "expandable";
    }
  }

  lemma AllowedText(unescape: Unescape, s: State, e: Event, t: Token)
    requires t.Text? && Reports(unescape, e, t)
    ensures On(unescape, s, e) == Add(s, t)
  {
    hide Escape;
  }

  /** `Nest` may close only the innermost tag, and then so does the sanitizer, that tag alone. */
  lemma AllowedEnd(unescape: Unescape, s: State, name: string)
    requires s.open != [] && s.open[|s.open| - 1] == name && name in TAGS && (InsidePre(s.open) ==> name == "code" || name == "pre")
    ensures On(unescape, s, EndTag(name)) == Add(s, CloseTag(name)).(open := s.open[..|s.open| - 1])
  {
  }

  /** What is open is allowed, and `pre` holds only `code`. */
  predicate Stacked(open: seq<string>) {
    && (forall i | 0 <= i < |open| :: open[i] in TAGS)
    && forall i, j | 0 <= i < j < |open| && open[i] == "pre" :: open[j] == "code"
  }

  lemma {:induction false} NestIsStacked(tokens: seq<Token>)
    requires Nest(tokens).Some?
    ensures Stacked(Nest(tokens).value)
  {
    if tokens != [] { NestIsStacked(tokens[..|tokens| - 1]); }
  }

  lemma RepeatStep(unescape: Unescape, tokens: seq<Token>, e: Event)
    requires tokens != [] && Nest(tokens).Some? && Reports(unescape, e, tokens[|tokens| - 1])
    ensures var before := tokens[..|tokens| - 1];
      Nest(before).Some? && On(unescape, State(before, Nest(before).value, 0), e) == State(tokens, Nest(tokens).value, 0)
  {
    var n := |tokens| - 1;
    NestIsStacked(tokens[..n]);
    assert tokens[..n] + [tokens[n]] == tokens;
    var s := State(tokens[..n], Nest(tokens[..n]).value, 0);
    var t := tokens[n];
    assert t.CloseTag? ==> e == EndTag(t.name);
    hide Escape, Stacked, On, Reports;
    if t.OpenTag? { AllowedStart(unescape, s, e, t); }
    else if t.Text? { AllowedText(unescape, s, e, t); }
    else {
      StackedTop(s.open);
      AllowedEnd(unescape, s, t.name);
    }
  }

  lemma {:induction false} RunRepeats(unescape: Unescape, events: seq<Event>, tokens: seq<Token>)
    requires |events| == |tokens| && Nest(tokens).Some?
    requires forall i | 0 <= i < |tokens| :: Reports(unescape, events[i], tokens[i])
    ensures Run(unescape, events) == State(tokens, Nest(tokens).value, 0)
  {
    if events != [] {
      var n := |events| - 1;
      RepeatStep(unescape, tokens, events[n]);
      hide Reports, Nest, On;
      RunRepeats(unescape, events[..n], tokens[..n]);
    }
  }

  lemma StackedTop(open: seq<string>)
    requires Stacked(open) && open != []
    ensures open[|open| - 1] in TAGS
    ensures InsidePre(open) ==> open[|open| - 1] == "code" || open[|open| - 1] == "pre"
  {
  }

  /**
    Markup that is already allowed is kept as it is: a well-nested word of allowed
    tags with nothing but `code` in `pre` comes out token by token unchanged.
   */
  lemma AllowedMarkupIsKept(unescape: Unescape, events: seq<Event>, tokens: seq<Token>)
    requires |events| == |tokens| && Nest(tokens) == Some([])
    requires forall i | 0 <= i < |tokens| :: Reports(unescape, events[i], tokens[i])
    ensures CloseAll(Run(unescape, events)).output == tokens
  {
    RunRepeats(unescape, events, tokens);
  }

  // ----- what becomes of the rest ------------------------------------------------------------------

  /** Inside `pre` any tag but `code` is kept as text, as it was written. */
  lemma PreKeepsTagsAsText(unescape: Unescape, s: State, name: string, attrs: seq<Attr>, source: string)
    requires InsidePre(s.open)
    ensures name != "code" ==> On(unescape, s, StartTag(name, attrs, source)) == Add(s, Text(Escape(source, false)))
    ensures On(unescape, s, StartEndTag(name, attrs, source)) == Add(s, Text(Escape(source, false)))
    ensures name != "code" && name != "pre" ==> On(unescape, s, EndTag(name)) == Add(s, Text(Escape("</" + name + ">", false)))
  {
  }

  /** The closing tags of the open tags from the innermost one down to the `k`th. */
  function Closes(open: seq<string>, k: nat): seq<Token> {
    if |open| <= k then [] else [CloseTag(open[|open| - 1])] + Closes(open[..|open| - 1], k)
  }

  lemma {:induction false} ClosesThrough(s: State, name: string, k: nat)
    requires k < |s.open| && s.open[k] == name && forall i | k < i < |s.open| :: s.open[i] != name
    ensures CloseThrough(s, name) == State(s.output + Closes(s.open, k), s.open[..k], s.cell)
    decreases |s.open|
  {
    var n := |s.open| - 1;
    var closed := Add(s, CloseTag(s.open[n])).(open := s.open[..n]);
    assert s.output + [CloseTag(s.open[n])] + Closes(s.open[..n], k) == s.output + Closes(s.open, k);
    if k < n {
      ClosesThrough(closed, name, k);
      assert s.open[..n][..k] == s.open[..k];
    } else {
      assert Closes(s.open[..n], k) == [];
    }
  }

  /**
    A misnested end tag closes everything from the innermost open tag of its name on,
    and nothing below it; an end tag that closes nothing leaves the tags alone.
   */
  lemma EndTagClosesExactly(unescape: Unescape, s: State, name: string)
    requires InsidePre(s.open) ==> name == "code" || name == "pre"
    ensures forall k | 0 <= k < |s.open| && s.open[k] == name && (forall i | k < i < |s.open| :: s.open[i] != name) ::
      On(unescape, s, EndTag(name)) == State(s.output + Closes(s.open, k), s.open[..k], s.cell)
    ensures var s' := On(unescape, s, EndTag(name));
      name in s.open || (s'.open == s.open && (s'.output == s.output || s'.output == s.output + [Text("\n")]))
  {
    hide CloseThrough, Closes;
    forall k | 0 <= k < |s.open| && s.open[k] == name && (forall i | k < i < |s.open| :: s.open[i] != name)
      ensures On(unescape, s, EndTag(name)) == State(s.output + Closes(s.open, k), s.open[..k], s.cell)
    {
      ClosesThrough(s, name, k);
    }
  }

  /** What follows a line break, or the end of a block that is not kept, starts a new line; no break makes an empty one. */
  lemma BreaksStartLines(unescape: Unescape, s: State, e: Event)
    requires !InsidePre(s.open)
    requires (e.StartTag? && e.name == "br") || (e.EndTag? && e.name !in s.open && (e.name == "tr" || e.name in LINE_END_TAGS))
    ensures var s' := On(unescape, s, e);
      && s'.open == s.open && s'.cell == s.cell && (s'.output == s.output || s'.output == s.output + [Text("\n")])
      && (s'.output == s.output <==> s.output == [] || EndsLine(s.output[|s.output| - 1]))
      && (s'.output == [] || EndsLine(s'.output[|s'.output| - 1]))
  {
    if e.StartTag? { assert e.name !in TAGS; }
  }

  /** An anchor is kept exactly if its first `href` with a value is nonempty and accepted; else only its content is. */
  lemma AnchorExactly(unescape: Unescape, s: State, attrs: seq<Attr>, source: string, k: nat)
    requires !InsidePre(s.open) && k <= |attrs|
    requires forall i | 0 <= i < k :: !(attrs[i].key == "href" && attrs[i].value.Some?)
    requires k < |attrs| ==> attrs[k].key == "href" && attrs[k].value.Some?
    ensures var s', kept := On(unescape, s, StartTag("a", attrs, source)), k < |attrs| && attrs[k].value.value != "" && SafeHref(unescape(attrs[k].value.value));
      if kept then s' == Add(s, OpenTag("a", " href=\"" + Escape(unescape(attrs[k].value.value), true) + "\"")).(open := s.open + ["a"])
      else s' == s
  {
    FirstHrefAt(attrs, k);
    hide Escape, FirstHref, SafeHref;
  }

  lemma {:induction false} FirstHrefAt(attrs: seq<Attr>, k: nat)
    requires k <= |attrs| && forall i | 0 <= i < k :: !(attrs[i].key == "href" && attrs[i].value.Some?)
    requires k < |attrs| ==> attrs[k].key == "href" && attrs[k].value.Some?
    ensures FirstHref(attrs) == if k < |attrs| then attrs[k].value else None
  {
    if k > 0 { FirstHrefAt(attrs[1..], k - 1); }
  }

  /** Any other allowed tag is kept without its attributes, but for the mark of an expandable quote. */
  lemma OtherTagsAreStripped(unescape: Unescape, s: State, name: string, attrs: seq<Attr>, source: string)
    requires name in TAGS && name != "a" && (InsidePre(s.open) ==> name == "code")
    ensures var expandable := name == "blockquote" && exists i | 0 <= i < |attrs| :: attrs[i].key == "expandable";
      On(unescape, s, StartTag(name, attrs, source)) ==
        Add(s, OpenTag(name, if expandable then " expandable" else "")).(open := s.open + [name])
  {
  }

  /** A self-closing tag leaves open what was open, except for an unaccepted anchor, which closes the link around it. */
  lemma SelfClosing(unescape: Unescape, s: State, name: string, attrs: seq<Attr>, source: string)
    requires !InsidePre(s.open)
    ensures var started := On(unescape, s, StartTag(name, attrs, source));
      On(unescape, s, StartEndTag(name, attrs, source)) ==
        if name !in TAGS then started
        else if name == "a" && started == s then On(unescape, s, EndTag("a"))
        else State(started.output + [CloseTag(name)], s.open, s.cell)
  {
    var started := OnStart(unescape, s, name, attrs, source);
    hide Escape, SafeHref, FirstHref;
    if name in TAGS && started != s {
      assert started.open == s.open + [name];
      ClosesThrough(started, name, |s.open|);
      assert Closes(started.open, |s.open|) == [CloseTag(name)] by { assert Closes(s.open, |s.open|) == []; }
    }
  }

  /** The cells of a row, as the parser reports them. */
  function Cells(texts: seq<string>): seq<Event> {
    if texts == [] then []
    else Cells(texts[..|texts| - 1]) + [StartTag("td", [], "<td>"), Data(texts[|texts| - 1]), EndTag("td")]
  }

  /** The cells as one line. */
  function Joined(texts: seq<string>): seq<Token> {
    if texts == [] then []
    else Joined(texts[..|texts| - 1]) + (if |texts| > 1 then [Text(" | ")] else []) + [Text(Escape(texts[|texts| - 1], false))]
  }

  function RunFrom(unescape: Unescape, s: State, events: seq<Event>): State {
    if events == [] then s else On(unescape, RunFrom(unescape, s, events[..|events| - 1]), events[|events| - 1])
  }

  /** A table row becomes its cells with the canonical separator between them. */
  lemma {:induction false} RowIsJoined(unescape: Unescape, s: State, texts: seq<string>)
    requires !InsidePre(s.open) && s.cell == 0 && "td" !in s.open
    ensures RunFrom(unescape, s, Cells(texts)) == State(s.output + Joined(texts), s.open, |texts|)
  {
    if texts == [] {
      assert s.output + [] == s.output;
    } else {
      var n := |texts| - 1;
      RowIsJoined(unescape, s, texts[..n]);
      var x, y, z := StartTag("td", [], "<td>"), Data(texts[n]), EndTag("td");
      ThreeMore(unescape, s, Cells(texts[..n]), x, y, z);
      hide Escape;
      OneCell(unescape, RunFrom(unescape, s, Cells(texts[..n])), texts[n]);
      hide On, RunFrom;
      var separator := if n > 0 then [Text(" | ")] else [];
      assert s.output + Joined(texts[..n]) + separator + [Text(Escape(texts[n], false))] == s.output + Joined(texts);
    }
  }

  lemma ThreeMore(unescape: Unescape, s: State, before: seq<Event>, x: Event, y: Event, z: Event)
    ensures RunFrom(unescape, s, before + [x, y, z]) == On(unescape, On(unescape, On(unescape, RunFrom(unescape, s, before), x), y), z)
  {
    hide On;
    var all := before + [x, y, z];
    assert all[..|all| - 1] == before + [x, y] && (before + [x, y])[..|before| + 1] == before + [x] && (before + [x])[..|before|] == before;
    assert RunFrom(unescape, s, before + [x]) == On(unescape, RunFrom(unescape, s, before), x);
    assert RunFrom(unescape, s, before + [x, y]) == On(unescape, RunFrom(unescape, s, before + [x]), y);
  }

  lemma OneCell(unescape: Unescape, s: State, text: string)
    requires !InsidePre(s.open) && "td" !in s.open
    ensures On(unescape, On(unescape, On(unescape, s, StartTag("td", [], "<td>")), Data(text)), EndTag("td")) ==
      State(s.output + (if s.cell > 0 then [Text(" | ")] else []) + [Text(Escape(text, false))], s.open, s.cell + 1)
  {
    hide Escape;
    assert s.output + [] == s.output;
  }
}
