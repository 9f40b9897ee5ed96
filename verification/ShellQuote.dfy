/**
 * Quoting a text for the shell, read back by the quoting rules of sections 2.2.1 and 2.2.2 of the POSIX.1-2017
 * Shell Command Language.
 */
module ShellQuote {
  import opened Basics

  // ----- the printer -----

  /** Each single quote closes the quotation, stands for itself after a backslash, and opens it again. */
  function Escape(text: string): string {
    if text == "" then ""
    else (if text[0] == '\'' then "'\\''" else [text[0]]) + Escape(text[1..])
  }

  function Quote(text: string): string {
    "'" + Escape(text) + "'"
  }

  // ----- the reader -----

  predicate Blank(c: char) {
    c == ' ' || c == '\t'
  }

  /** Characters that end a word when they are not quoted. */
  predicate Delimits(c: char) {
    Blank(c) || c in {'\n', '|', '&', ';', '<', '>', '(', ')'}
  }

  /** Characters with a meaning of their own, outside the rules modelled here. */
  predicate Expands(c: char) {
    c in {'$', '`', '"', '*', '?', '[', '#', '~'}
  }

  /** A word and what follows it, an unfinished quotation, or something outside the rules modelled here. */
  datatype Reading = Word(text: string, rest: string) | Unfinished | Unmodelled

  function Prefixed(text: string, reading: Reading): Reading {
    if reading.Word? then Word(text + reading.text, reading.rest) else reading
  }

  /** Outside quotations: a quote opens one, a backslash keeps the next character, a delimiter ends the word. */
  function ReadUnquoted(input: string): (r: Reading)
    ensures r.Word? ==> |r.rest| <= |input|
    ensures r.Word? && input != "" && !Delimits(input[0]) ==> |r.rest| < |input|
    decreases |input|
  {
    if input == "" || Delimits(input[0]) then Word("", input)
    else if input[0] == '\'' then ReadQuoted(input[1..])
    else if input[0] == '\\' then
      if |input| == 1 then Unfinished
      else if input[1] == '\n' then ReadUnquoted(input[2..])
      else Prefixed([input[1]], ReadUnquoted(input[2..]))
    else if Expands(input[0]) then Unmodelled
    else Prefixed([input[0]], ReadUnquoted(input[1..]))
  }

  /** Inside: every character stands for itself, up to the closing quote. */
  function ReadQuoted(input: string): (r: Reading)
    ensures r.Word? ==> |r.rest| < |input|
    decreases |input|
  {
    if input == "" then Unfinished
    else if input[0] == '\'' then ReadUnquoted(input[1..])
    else Prefixed([input[0]], ReadQuoted(input[1..]))
  }

  /** The words of a simple command, if it is one. */
  function Words(input: string): Option<seq<string>>
    decreases |input|
  {
    if input == "" then Some([])
    else if Blank(input[0]) then Words(input[1..])
    else if Delimits(input[0]) then None
    else match ReadUnquoted(input)
      case Word(text, rest) =>
        (match Words(rest)
         case Some(words) => Some([text] + words)
         case None => None)
      case _ => None
  }

  // ----- reading what was printed -----

  predicate Ends(rest: string) {
    rest == "" || Delimits(rest[0])
  }

  lemma {:induction false} ReadEscaped(text: string, rest: string)
    requires Ends(rest)
    ensures ReadQuoted(Escape(text) + "'" + rest) == Word(text, rest)
  {
    if text == "" {
      assert (Escape(text) + "'" + rest)[1..] == rest;
    } else {
      var tail := Escape(text[1..]) + "'" + rest;
      ReadEscaped(text[1..], rest);
      assert text == [text[0]] + text[1..];
      if text[0] == '\'' {
        assert Escape(text) + "'" + rest == "'\\''" + tail;
        ReadEscapedQuote(tail);
      } else {
        assert Escape(text) + "'" + rest == [text[0]] + tail;
      }
    }
  }

  /** Out of the quotation, one kept quote, and in again. */
  lemma ReadEscapedQuote(tail: string)
    ensures ReadQuoted("'\\''" + tail) == Prefixed("'", ReadQuoted(tail))
  {
    var input, escaped, opening := "'\\''" + tail, "\\''" + tail, "'" + tail;
    assert input[0] == '\'' && input[1..] == escaped;
    assert escaped[0] == '\\' && escaped[1] == '\'' && escaped[2..] == opening;
    assert opening[0] == '\'' && opening[1..] == tail;
    assert ReadUnquoted(opening) == ReadQuoted(tail);
    assert ReadUnquoted(escaped) == Prefixed([escaped[1]], ReadUnquoted(opening));
  }

  /** Whatever the text holds, its quoted form is one word, equal to it, before any delimiter. */
  lemma QuotedIsOneWord(text: string, rest: string)
    requires Ends(rest)
    ensures ReadUnquoted(Quote(text) + rest) == Word(text, rest)
  {
    ReadEscaped(text, rest);
    assert (Quote(text) + rest)[1..] == Escape(text) + "'" + rest;
  }

  function CommandLine(texts: seq<string>): string {
    if texts == [] then "" else Quote(texts[0]) + (if |texts| == 1 then "" else " " + CommandLine(texts[1..]))
  }

  /** Any list of texts, quoted and separated by blanks, is read back as that list. */
  lemma {:induction false} QuotedWordsReadBack(texts: seq<string>)
    ensures Words(CommandLine(texts)) == Some(texts)
  {
    if texts != [] {
      var rest := if |texts| == 1 then "" else " " + CommandLine(texts[1..]);
      QuotedWordsReadBack(texts[1..]);
      assert Words(rest) == Some(texts[1..]) by {
        assert |texts| > 1 ==> rest[1..] == CommandLine(texts[1..]);
      }
      FirstWord(texts[0], rest);
      assert texts == [texts[0]] + texts[1..];
    }
  }

  lemma FirstWord(text: string, rest: string)
    requires Ends(rest) && Words(rest).Some?
    ensures Words(Quote(text) + rest) == Some([text] + Words(rest).value)
  {
    QuotedIsOneWord(text, rest);
    assert (Quote(text) + rest)[0] == '\'';
  }

  /** So no two texts have the same quoted form. */
  lemma QuoteIsInjective(a: string, b: string)
    requires Quote(a) == Quote(b)
    ensures a == b
  {
    QuotedIsOneWord(a, "");
    QuotedIsOneWord(b, "");
  }
}
