/** The copyable demo command: shell quoting, and a lexer after sections 2.2 and 2.3 of the POSIX.1-2017
    Shell Command Language that must read the words back. */
module Quoting {

  // -- The quoter ---------------------------------------------------------

  predicate IsAsciiAlphanumeric(c: char) { '0' <= c <= '9' || 'A' <= c <= 'Z' || 'a' <= c <= 'z' }

  predicate NeedsNoQuote(c: char) {
    IsAsciiAlphanumeric(c) || c == '_' || c == '-' || c == '.' || c == '/' || c == ':' || c == '@'
  }

  /** Each single quote closes the quotation, adds an escaped quote and opens it again. */
  function EscapeQuotes(s: string): string {
    if s == "" then ""
    else (if s[0] == '\'' then "'\\''" else [s[0]]) + EscapeQuotes(s[1..])
  }

  function ShQuote(s: string): string {
    if s != "" && forall c | c in s :: NeedsNoQuote(c) then s else "'" + EscapeQuotes(s) + "'"
  }

  function DisplayCommand(demoPy: string, slots: string): string {
    "python3 " + ShQuote(demoPy) + " --slots " + ShQuote(slots)
  }

  // -- The lexer ----------------------------------------------------------

  predicate IsBlank(c: char) { c == ' ' || c == '\t' }

  /** Characters that stand for themselves outside quotes: none of those that section 2.2 says
      must be quoted, always or in some positions. */
  predicate IsPlain(c: char) {
    && c != '|' && c != '&' && c != ';' && c != '<' && c != '>' && c != '(' && c != ')' && c != '$' && c != '`'
    && c != '\\' && c != '"' && c != '\'' && c != ' ' && c != '\t' && c != '\n'
    && c != '*' && c != '?' && c != '[' && c != '#' && c != '~' && c != '=' && c != '%'
  }

  datatype Mode =
    | Gap                    // between words
    | Word(text: string)     // inside a word, outside quotes
    | Quoted(text: string)   // inside a word and single quotes

  datatype Reading = WordList(words: seq<string>) | NotWords

  function Text(mode: Mode): string { if mode.Gap? then "" else mode.text }

  /** The words of a line made of plain characters, blanks, single quotes and backslashes; `NotWords`
      for an unterminated quote or any construct that would mean more than words. */
  function Lex(s: string, mode: Mode, words: seq<string>): Reading
    decreases |s|
  {
    if s == "" then
      match mode
      case Gap => WordList(words)
      case Word(text) => WordList(words + [text])
      case Quoted(_) => NotWords
    else
      var c, rest := s[0], s[1..];
      if mode.Quoted? then
        // section 2.2.2: every character literal up to the closing quote
        if c == '\'' then Lex(rest, Word(mode.text), words) else Lex(rest, Quoted(mode.text + [c]), words)
      else if IsBlank(c) then
        Lex(rest, Gap, if mode.Word? then words + [mode.text] else words)
      else if c == '\'' then Lex(rest, Quoted(Text(mode)), words)
      else if c == '\\' then
        // section 2.2.1: the next character literal; backslash-newline disappears
        if rest == "" then NotWords
        else if rest[0] == '\n' then Lex(rest[1..], mode, words)
        else Lex(rest[1..], Word(Text(mode) + [rest[0]]), words)
      else if IsPlain(c) then Lex(rest, Word(Text(mode) + [c]), words)
      else NotWords
  }

  function Words(line: string): Reading { Lex(line, Gap, []) }

  // -- The lexer undoes the quoter ----------------------------------------

  lemma NeedsNoQuoteIsPlain(c: char)
    requires NeedsNoQuote(c)
    ensures IsPlain(c) && !IsBlank(c) && c != '\'' && c != '\\'
  {
  }

  lemma LexStep(c: char, rest: string, mode: Mode, words: seq<string>)
    ensures mode.Quoted? && c != '\'' ==> Lex([c] + rest, mode, words) == Lex(rest, Quoted(mode.text + [c]), words)
    ensures mode.Quoted? && c == '\'' ==> Lex([c] + rest, mode, words) == Lex(rest, Word(mode.text), words)
    ensures !mode.Quoted? && c == '\'' ==> Lex([c] + rest, mode, words) == Lex(rest, Quoted(Text(mode)), words)
    ensures !mode.Quoted? && NeedsNoQuote(c) ==>
        Lex([c] + rest, mode, words) == Lex(rest, Word(Text(mode) + [c]), words)
    ensures mode.Word? && c == ' ' ==> Lex([c] + rest, mode, words) == Lex(rest, Gap, words + [mode.text])
  {
    assert ([c] + rest)[1..] == rest;
    if NeedsNoQuote(c) { NeedsNoQuoteIsPlain(c); }
  }

  lemma LexEscapedQuote(rest: string, text: string, words: seq<string>)
    ensures Lex(['\'', '\\', '\'', '\''] + rest, Quoted(text), words) == Lex(rest, Quoted(text + ['\'']), words)
  {
    var tail := ['\\', '\'', '\''] + rest;
    assert ['\'', '\\', '\'', '\''] + rest == ['\''] + tail;
    LexStep('\'', tail, Quoted(text), words);
    assert tail[1..][0] == '\'' && tail[1..][1..] == ['\''] + rest;
    assert Lex(tail, Word(text), words) == Lex(['\''] + rest, Word(text + ['\'']), words);
    LexStep('\'', rest, Word(text + ['\'']), words);
  }

  lemma {:induction false} LexQuotation(s: string, rest: string, text: string, words: seq<string>)
    ensures Lex(EscapeQuotes(s) + ['\''] + rest, Quoted(text), words) == Lex(rest, Word(text + s), words)
    decreases |s|
  {
    hide Lex;
    if s == "" {
      assert EscapeQuotes(s) + ['\''] + rest == ['\''] + rest && text + s == text;
      LexStep('\'', rest, Quoted(text), words);
    } else {
      var tail := EscapeQuotes(s[1..]) + ['\''] + rest;
      LexQuotation(s[1..], rest, text + [s[0]], words);
      assert text + [s[0]] + s[1..] == text + s;
      if s[0] == '\'' {
        LexEscapedQuote(tail, text, words);
        assert EscapeQuotes(s) + ['\''] + rest == ['\'', '\\', '\'', '\''] + tail;
      } else {
        LexStep(s[0], tail, Quoted(text), words);
        assert EscapeQuotes(s) + ['\''] + rest == [s[0]] + tail;
      }
    }
  }

  lemma {:induction false} LexSafe(s: string, rest: string, mode: Mode, words: seq<string>)
    requires s != "" && (forall c | c in s :: NeedsNoQuote(c)) && !mode.Quoted?
    ensures Lex(s + rest, mode, words) == Lex(rest, Word(Text(mode) + s), words)
    decreases |s|
  {
    hide Lex, NeedsNoQuote;
    var tail := s[1..] + rest;
    assert s + rest == [s[0]] + tail;
    LexStep(s[0], tail, mode, words);
    if |s| > 1 {
      LexSafe(s[1..], rest, Word(Text(mode) + [s[0]]), words);
      assert Text(mode) + [s[0]] + s[1..] == Text(mode) + s;
    } else {
      assert s == [s[0]] && tail == rest;
    }
  }

  /** A quoted argument reads back as one word, whatever it holds. */
  lemma LexQuoted(s: string, rest: string, words: seq<string>)
    ensures Lex(ShQuote(s) + rest, Gap, words) == Lex(rest, Word(s), words)
  {
    hide Lex;
    if s != "" && forall c | c in s :: NeedsNoQuote(c) {
      LexSafe(s, rest, Gap, words);
      assert "" + s == s;
    } else {
      var tail := EscapeQuotes(s) + ['\''] + rest;
      assert ShQuote(s) + rest == ['\''] + tail;
      LexStep('\'', tail, Gap, words);
      LexQuotation(s, rest, "", words);
      assert "" + s == s;
    }
  }

  /** Main result: whatever the two paths are, a shell reads the displayed command as exactly four
      words, and the second and fourth are the paths. */
  lemma CommandReadsBack(demoPy: string, slots: string)
    ensures Words(DisplayCommand(demoPy, slots)) == WordList(["python3", demoPy, "--slots", slots])
  {
    hide NeedsNoQuote, ShQuote, Lex;
    var w0: seq<string> := [];
    var w1, w2, w3 := w0 + ["python3"], w0 + ["python3"] + [demoPy], w0 + ["python3"] + [demoPy] + ["--slots"];
    var last := ShQuote(slots) + "";
    var third := "--slots" + ([' '] + last);
    var second := ShQuote(demoPy) + ([' '] + third);
    assert DisplayCommand(demoPy, slots) == "python3" + ([' '] + second);
    LiteralsAreSafe();
    assert "" + "python3" == "python3" && "" + "--slots" == "--slots";
    LexSafe("python3", [' '] + second, Gap, w0);
    LexStep(' ', second, Word("python3"), w0);
    LexQuoted(demoPy, [' '] + third, w1);
    LexStep(' ', third, Word(demoPy), w1);
    LexSafe("--slots", [' '] + last, Gap, w2);
    LexStep(' ', last, Word("--slots"), w2);
    LexQuoted(slots, "", w3);
    LexEnd(slots, w3);
    assert w3 + [slots] == ["python3", demoPy, "--slots", slots];
  }

  lemma LiteralsAreSafe()
    ensures forall c | c in "python3" :: NeedsNoQuote(c)
    ensures forall c | c in "--slots" :: NeedsNoQuote(c)
  {
  }

  lemma LexEnd(text: string, words: seq<string>)
    ensures Lex("", Word(text), words) == WordList(words + [text])
  {
  }

  /** Quotes appear only where they are needed: exactly the non-empty safe words stay bare. */
  lemma BareExactlyWhenSafe(s: string)
    ensures ShQuote(s) == s <==>
        s != "" && forall c | c in s ::
          '0' <= c <= '9' || 'A' <= c <= 'Z' || 'a' <= c <= 'z'
          || c == '_' || c == '-' || c == '.' || c == '/' || c == ':' || c == '@'
  {
    EscapeGrows(s);
  }

  lemma {:induction false} EscapeGrows(s: string)
    ensures |EscapeQuotes(s)| >= |s|
  {
    if s != "" { EscapeGrows(s[1..]); }
  }
}
