/** Character classes and HTML escaping shared by the text modules. */
module Chars {
  import opened Options

  /** Python's `str.isspace` on one code point. */
  predicate IsSpace(c: char) {
    || c == ' ' || '\t' <= c <= '\r' || '\U{1c}' <= c <= '\U{1f}'
    || c in "\U{85}\U{a0}\U{1680}\U{2028}\U{2029}\U{202f}\U{205f}\U{3000}" || '\U{2000}' <= c <= '\U{200a}'
  }

  predicate NonBlank(s: string) { exists i | 0 <= i < |s| :: !IsSpace(s[i]) }

  function Lower(c: char): char { if 'A' <= c <= 'Z' then (c as int + 32) as char else c }

  /** `s.lower().startswith(prefix)` for a lower-case ASCII prefix. */
  predicate StartsWithNoCase(s: string, prefix: string) {
    |prefix| <= |s| && forall i | 0 <= i < |prefix| :: Lower(s[i]) == prefix[i]
  }

  /** `s.lower() == text` for a lower-case ASCII text. */
  predicate SameNoCase(s: string, text: string) { |s| == |text| && StartsWithNoCase(s, text) }

  /** The link destinations both renderers accept. */
  predicate LinkScheme(href: string) {
    || StartsWithNoCase(href, "http://") || StartsWithNoCase(href, "https://")
    || StartsWithNoCase(href, "mailto:") || StartsWithNoCase(href, "tg://")
  }

  /** `part` occurs at position `i`. */
  predicate At(text: string, part: string, i: nat) { i + |part| <= |text| && text[i..i + |part|] == part }

  function EscapeChar(c: char, quote: bool): string {
    if c == '&' then "&amp;" else if c == '<' then "&lt;" else if c == '>' then "&gt;"
    else if quote && c == '"' then "&quot;" else if quote && c == '\'' then "&#x27;" else [c]
  }

  /** `html.escape`. */
  function Escape(s: string, quote: bool): string {
    if s == "" then "" else EscapeChar(s[0], quote) + Escape(s[1..], quote)
  }

  predicate Inert(s: string, quote: bool) { '<' !in s && '>' !in s && (quote ==> '"' !in s && '\'' !in s) }

  /** Escaped text holds no markup. */
  lemma {:induction false} EscapeIsInert(s: string, quote: bool)
    ensures Inert(Escape(s, quote), quote)
  {
    if s != "" { EscapeIsInert(s[1..], quote); }
  }

  /** The character a leading entity stands for, and its length. */
  function Entity(s: string): Option<(char, nat)> {
    if At(s, "&amp;", 0) then Some(('&', 5)) else if At(s, "&lt;", 0) then Some(('<', 4))
    else if At(s, "&gt;", 0) then Some(('>', 4)) else if At(s, "&quot;", 0) then Some(('"', 6))
    else if At(s, "&#x27;", 0) then Some(('\'', 6)) else None
  }

  /** Reading the five entities back. */
  function Unescape(s: string): string {
    if s == "" then ""
    else
      var e := Entity(s);
      if e.Some? && 0 < e.value.1 <= |s| then [e.value.0] + Unescape(s[e.value.1..]) else [s[0]] + Unescape(s[1..])
  }

  lemma EntityReads(c: char, quote: bool, rest: string)
    requires |EscapeChar(c, quote)| > 1
    ensures Entity(EscapeChar(c, quote) + rest) == Some((c, |EscapeChar(c, quote)|))
  {
    var entity := EscapeChar(c, quote);
    var s := entity + rest;
    assert s[0..|entity|] == entity;
    assert s[1] == entity[1] && s[2] == entity[2];
  }

  lemma PlainReads(c: char, rest: string)
    requires c != '&'
    ensures Unescape([c] + rest) == [c] + Unescape(rest)
  {
    var s := [c] + rest;
    assert s[0] == c && s[1..] == rest && Entity(s).None?;
  }

  lemma UnescapeEntity(s: string)
    requires Entity(s).Some? && 0 < Entity(s).value.1 <= |s|
    ensures Unescape(s) == [Entity(s).value.0] + Unescape(s[Entity(s).value.1..])
  {
    hide Entity;
  }

  lemma EscapedCharReads(c: char, quote: bool, rest: string)
    ensures Unescape(EscapeChar(c, quote) + rest) == [c] + Unescape(rest)
  {
    hide Unescape, Entity;
    var entity := EscapeChar(c, quote);
    var s := entity + rest;
    if |entity| == 1 {
      PlainReads(c, rest);
    } else {
      EntityReads(c, quote, rest);
      UnescapeEntity(s);
      assert s[|entity|..] == rest;
    }
  }

  /** Escaping loses nothing: reading the entities back gives the text. */
  lemma {:induction false} EscapeIsLossless(s: string, quote: bool)
    ensures Unescape(Escape(s, quote)) == s
  {
    if s != "" {
      EscapeIsLossless(s[1..], quote);
      EscapedCharReads(s[0], quote, Escape(s[1..], quote));
    }
  }
}
