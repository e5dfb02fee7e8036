/**
 Command tails an operator is invited to paste, and the part of a POSIX shell that reads them back:
 token recognition at blanks (section 2.3 of the Shell Command Language, POSIX.1-2017), the escape
 character (section 2.2.1) and single quotes (section 2.2.2).
 */
module ShellWords {
  import opened Wrappers

  const SPECIAL := " \t\n'\"\\$`*?[]{}()<>|&;#~!"

  predicate Special(c: char) {
    c in SPECIAL
  }

  predicate Plain(w: string) {
    forall i :: 0 <= i < |w| ==> !Special(w[i])
  }

  predicate Bare(w: string) {
    w != "" && Plain(w)
  }

  /** Every single quote closed, escaped and reopened. */
  function Requoted(w: string): string {
    if w == "" then "" else (if w[0] == '\'' then "'\\''" else [w[0]]) + Requoted(w[1..])
  }

  function Quoted(w: string): string {
    if Bare(w) then w else "'" + Requoted(w) + "'"
  }

  function Join(words: seq<string>): string {
    if words == [] then ""
    else if |words| == 1 then Quoted(words[0])
    else Quoted(words[0]) + " " + Join(words[1..])
  }

  method ReplaceQuotes(w: string) returns (r: string)
    ensures r == Requoted(w)
  {
    r := "";
    for i := 0 to |w|
      invariant Requoted(w) == r + Requoted(w[i..])
    {
      assert w[i..][0] == w[i] && w[i..][1..] == w[i + 1..];
      r := r + if w[i] == '\'' then "'\\''" else [w[i]];
    }
    assert w[|w|..] == "";
  }

  method ShellJoin(words: seq<string>) returns (tail: string)
    ensures tail == Join(words)
  {
    var out: seq<string> := [];
    for i := 0 to |words|
      invariant |out| == i && forall k :: 0 <= k < i ==> out[k] == Quoted(words[k])
    {
      if Bare(words[i]) {
        out := out + [words[i]];
        continue;
      }
      var body := ReplaceQuotes(words[i]);
      out := out + ["'" + body + "'"];
    }
    tail := "";
    var n := |words|;
    while n > 0
      invariant 0 <= n <= |words| == |out|
      invariant tail == Join(words[n..])
    {
      n := n - 1;
      assert words[n..][0] == words[n] && words[n..][1..] == words[n + 1..];
      tail := if n == |out| - 1 then out[n] else out[n] + " " + tail;
    }
    assert words[0..] == words;
  }

  // ----- the reader -----

  datatype Mode = Gap | Word | Escape(inWord: bool) | Quote

  predicate Blank(c: char) {
    c == ' ' || c == '\t'
  }

  /**
   Reads words up to the end; none when a quote or an escape is left open, or when an unquoted character
   asks for more of the shell than words: an operator, an expansion, a comment, a new line.
   */
  function ReadFrom(s: string, mode: Mode, acc: string, words: seq<string>): Option<seq<string>> {
    if s == "" then
      match mode
      case Gap => Some(words)
      case Word => Some(words + [acc])
      case _ => None
    else
      var c, rest := s[0], s[1..];
      match mode
      case Quote => if c == '\'' then ReadFrom(rest, Word, acc, words) else ReadFrom(rest, Quote, acc + [c], words)
      case Escape(inWord) =>
        if c == '\n' then ReadFrom(rest, if inWord then Word else Gap, acc, words)
        else ReadFrom(rest, Word, acc + [c], words)
      case _ =>
        if Blank(c) then ReadFrom(rest, Gap, "", if mode.Word? then words + [acc] else words)
        else if c == '\'' then ReadFrom(rest, Quote, acc, words)
        else if c == '\\' then ReadFrom(rest, Escape(mode.Word?), acc, words)
        else if Special(c) then None
        else ReadFrom(rest, Word, acc + [c], words)
  }

  function Read(s: string): Option<seq<string>> {
    ReadFrom(s, Gap, "", [])
  }

  // ----- the round trip -----

  lemma PlainStep(c: char, rest: string, mode: Mode, acc: string, words: seq<string>)
    requires !Special(c) && (mode.Gap? || mode.Word?)
    ensures ReadFrom([c] + rest, mode, acc, words) == ReadFrom(rest, Word, acc + [c], words)
  {
    assert Special(' ') && Special('\t') && Special('\'') && Special('\\');
    assert ([c] + rest)[1..] == rest;
  }

  lemma BlankStep(rest: string, acc: string, words: seq<string>)
    ensures ReadFrom(" " + rest, Word, acc, words) == ReadFrom(rest, Gap, "", words + [acc])
  {
    assert (" " + rest)[1..] == rest;
  }

  lemma QuoteStep(c: char, rest: string, acc: string, words: seq<string>)
    ensures ReadFrom([c] + rest, Quote, acc, words) == if c == '\'' then ReadFrom(rest, Word, acc, words) else ReadFrom(rest, Quote, acc + [c], words)
  {
    assert ([c] + rest)[1..] == rest;
  }

  lemma OpenStep(rest: string, mode: Mode, acc: string, words: seq<string>)
    requires mode.Gap? || mode.Word?
    ensures ReadFrom("'" + rest, mode, acc, words) == ReadFrom(rest, Quote, acc, words)
  {
    assert ("'" + rest)[1..] == rest;
  }

  lemma EscapedQuoteStep(rest: string, acc: string, words: seq<string>)
    ensures ReadFrom("\\'" + rest, Word, acc, words) == ReadFrom(rest, Word, acc + ['\''], words)
  {
    var s := "\\'" + rest;
    assert s[1..] == "'" + rest && s[1..][1..] == rest;
  }

  lemma {:induction false} BareReads(w: string, rest: string, mode: Mode, acc: string, words: seq<string>)
    requires Plain(w)
    requires mode.Word? || (mode.Gap? && w != "")
    ensures ReadFrom(w + rest, mode, acc, words) == ReadFrom(rest, Word, acc + w, words)
  {
    hide ReadFrom, Special;
    if w == "" {
      assert w + rest == rest && acc + w == acc;
    } else {
      assert w + rest == [w[0]] + (w[1..] + rest);
      PlainStep(w[0], w[1..] + rest, mode, acc, words);
      BareReads(w[1..], rest, Word, acc + [w[0]], words);
      assert acc + [w[0]] + w[1..] == acc + w;
    }
  }

  lemma {:induction false} QuotedReads(w: string, rest: string, acc: string, words: seq<string>)
    ensures ReadFrom(Requoted(w) + "'" + rest, Quote, acc, words) == ReadFrom(rest, Word, acc + w, words)
  {
    hide ReadFrom;
    if w == "" {
      assert Requoted(w) + "'" + rest == "'" + rest && acc + w == acc;
      QuoteStep('\'', rest, acc, words);
    } else {
      var tail := Requoted(w[1..]) + "'" + rest;
      QuotedReads(w[1..], rest, acc + [w[0]], words);
      assert acc + [w[0]] + w[1..] == acc + w;
      if w[0] == '\'' {
        assert Requoted(w) + "'" + rest == "'\\''" + tail;
        CloseEscapeReopen(tail, acc, words);
      } else {
        assert Requoted(w) + "'" + rest == [w[0]] + tail;
        QuoteStep(w[0], tail, acc, words);
      }
    }
  }

  lemma CloseEscapeReopen(tail: string, acc: string, words: seq<string>)
    ensures ReadFrom("'\\''" + tail, Quote, acc, words) == ReadFrom(tail, Quote, acc + ['\''], words)
  {
    hide ReadFrom;
    assert "'\\''" + tail == "'" + ("\\'" + ("'" + tail));
    QuoteStep('\'', "\\'" + ("'" + tail), acc, words);
    EscapedQuoteStep("'" + tail, acc, words);
    OpenStep(tail, Word, acc + ['\''], words);
  }

  lemma WordReads(w: string, rest: string, words: seq<string>)
    ensures ReadFrom(Quoted(w) + rest, Gap, "", words) == ReadFrom(rest, Word, w, words)
  {
    hide ReadFrom, Requoted, Special;
    assert "" + w == w;
    if Bare(w) {
      BareReads(w, rest, Gap, "", words);
    } else {
      assert Quoted(w) + rest == "'" + (Requoted(w) + "'" + rest);
      OpenStep(Requoted(w) + "'" + rest, Gap, "", words);
      QuotedReads(w, rest, "", words);
    }
  }

  lemma EndOfInput(acc: string, words: seq<string>)
    ensures ReadFrom("", Gap, acc, words) == Some(words) && ReadFrom("", Word, acc, words) == Some(words + [acc])
  {
  }

  lemma {:induction false} JoinReads(words: seq<string>, before: seq<string>)
    ensures ReadFrom(Join(words), Gap, "", before) == Some(before + words)
  {
    hide ReadFrom, Quoted;
    if words == [] {
      assert before + words == before;
      EndOfInput("", before);
    } else if |words| == 1 {
      WordReads(words[0], "", before);
      EndOfInput(words[0], before);
      assert Quoted(words[0]) + "" == Quoted(words[0]) && words == [words[0]];
    } else {
      var rest := " " + Join(words[1..]);
      assert Join(words) == Quoted(words[0]) + rest;
      WordReads(words[0], rest, before);
      BlankStep(Join(words[1..]), words[0], before);
      JoinReads(words[1..], before + [words[0]]);
      assert before + [words[0]] + words[1..] == before + words;
    }
  }

  /** Pasting the tail gives back exactly the words it was made from, empty ones and quotes included. */
  lemma RoundTrip(words: seq<string>)
    ensures Read(Join(words)) == Some(words)
  {
    JoinReads(words, []);
    assert [] + words == words;
  }

  /** Two different queries never share a tail. */
  lemma TailsDiffer(a: seq<string>, b: seq<string>)
    requires Join(a) == Join(b)
    ensures a == b
  {
    RoundTrip(a);
    RoundTrip(b);
  }

  // ----- quoting is left out exactly where it may be -----

  function Size(words: seq<string>): nat {
    if words == [] then 0 else Size(words[..|words| - 1]) + |words[|words| - 1]|
  }

  lemma SizeSnoc(words: seq<string>, w: string)
    ensures Size(words + [w]) == Size(words) + |w|
  {
    assert (words + [w])[..|words|] == words;
  }

  /** Reading adds no characters, and consumes every blank, quote and escape it passes. */
  lemma {:induction false} ReadingShrinks(s: string, mode: Mode, acc: string, words: seq<string>)
    requires mode.Gap? ==> acc == ""
    requires mode == Escape(false) ==> acc == ""
    ensures var r := ReadFrom(s, mode, acc, words); r.Some? ==> Size(r.value) <= Size(words) + |acc| + |s|
  {
    hide Special;
    SizeSnoc(words, acc);
    if s != "" {
      var c, rest := s[0], s[1..];
      match mode
      case Quote => ReadingShrinks(rest, Word, acc, words); ReadingShrinks(rest, Quote, acc + [c], words);
      case Escape(inWord) =>
        ReadingShrinks(rest, if inWord then Word else Gap, acc, words);
        ReadingShrinks(rest, Word, acc + [c], words);
      case _ =>
        if Blank(c) {
          ReadingShrinks(rest, Gap, "", if mode.Word? then words + [acc] else words);
        } else if c == '\'' {
          ReadingShrinks(rest, Quote, acc, words);
        } else if c == '\\' {
          ReadingShrinks(rest, Escape(mode.Word?), acc, words);
        } else {
          ReadingShrinks(rest, Word, acc + [c], words);
        }
    }
  }

  lemma {:induction false} SpecialIsConsumed(s: string, mode: Mode, acc: string)
    requires mode.Gap? || mode.Word?
    requires mode.Gap? ==> acc == ""
    requires !Plain(s)
    ensures var r := ReadFrom(s, mode, acc, []); r.Some? ==> Size(r.value) < |acc| + |s|
  {
    hide Special;
    var c, rest := s[0], s[1..];
    SizeSnoc([], acc);
    if Blank(c) {
      ReadingShrinks(rest, Gap, "", if mode.Word? then [acc] else []);
      assert [] + [acc] == [acc];
    } else if c == '\'' {
      ReadingShrinks(rest, Quote, acc, []);
    } else if c == '\\' {
      ReadingShrinks(rest, Escape(mode.Word?), acc, []);
    } else if !Special(c) {
      SpecialIsConsumed(rest, Word, acc + [c]);
    }
  }

  /** A word is left bare if and only if the shell would read it bare as the one word it is. */
  lemma BareIff(w: string)
    ensures Bare(w) <==> Read(w) == Some([w])
  {
    hide ReadFrom, Special;
    if Bare(w) {
      BareReads(w, "", Gap, "", []);
      EndOfInput(w, []);
      assert w + "" == w && "" + w == w && [] + [w] == [w];
    } else if w != "" {
      SpecialIsConsumed(w, Gap, "");
      SizeSnoc([], w);
      assert [] + [w] == [w];
    } else {
      EndOfInput("", []);
    }
  }
}
