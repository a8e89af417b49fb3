/** `shlex.quote`, which furo2 applies to every argument on Linux (furo2.py:38), and
    a reader for the part of the POSIX shell word syntax its output uses, against
    which quoting is proved to lose nothing. */
module Shell {

  import opened Wrappers
  import opened Text

  /** The characters `shlex.quote` leaves unquoted: `[A-Za-z0-9_@%+=:,./-]`. */
  predicate IsSafe(c: char) {
    ('a' <= c <= 'z') || ('A' <= c <= 'Z') || ('0' <= c <= '9')
    || c == '_' || c == '@' || c == '%' || c == '+' || c == '=' || c == ':'
    || c == ',' || c == '.' || c == '/' || c == '-'
  }

  predicate AllSafe(s: string) {
    forall i :: 0 <= i < |s| ==> IsSafe(s[i])
  }

  /** `s.replace("'", "'\"'\"'")`: every single quote closes the quoted text, is
      written inside double quotes, and reopens it. */
  function EscapeQuotes(s: string): string
  {
    if s == [] then ""
    else (if s[0] == '\'' then "'\"'\"'" else [s[0]]) + EscapeQuotes(s[1..])
  }

  /** `shlex.quote(s)`. */
  function Quote(s: string): (r: string)
    ensures r != ""
    ensures (r == s && AllSafe(s)) || (|r| >= 2 && r[0] == '\'' && r[|r| - 1] == '\'')
  {
    if s == "" then "''"
    else if AllSafe(s) then s
    else "'" + EscapeQuotes(s) + "'"
  }

  /** `[shlex.quote(c) for c in command]` */
  function QuoteAll(words: seq<string>): (r: seq<string>)
    ensures |r| == |words|
    ensures forall i :: 0 <= i < |r| ==> r[i] == Quote(words[i])
  {
    if words == [] then [] else [Quote(words[0])] + QuoteAll(words[1..])
  }

  // ---------------------------------------------------------------------------
  // Reading shell words

  datatype QuoteMode = Unquoted | InSingle | InDouble

  function Prepend(p: string, r: Option<(string, string)>): Option<(string, string)>
  {
    match r
    case None => None
    case Some(wr) => Some((p + wr.0, wr.1))
  }

  /** Reads one word of `s` in the given quoting state, up to an unquoted space or the
      end, and returns the word's value with the rest of the input. Single quotes keep
      everything up to the next single quote; double quotes keep everything but `$`,
      backquote and backslash, which this reader does not model (`None`); unquoted,
      only the characters `shlex.quote` calls safe stand for themselves. An unclosed
      quote is a syntax error, `None`. */
  function ReadWord(s: string, mode: QuoteMode): (r: Option<(string, string)>)
    ensures r.Some? ==> |r.value.1| <= |s| && (r.value.1 == [] || r.value.1[0] == ' ')
    ensures r.Some? && (mode != Unquoted || (s != [] && s[0] != ' ')) ==> |r.value.1| < |s|
    decreases |s|
  {
    if s == [] then (if mode == Unquoted then Some(("", "")) else None)
    else
      var c := s[0];
      match mode
      case Unquoted =>
        if c == ' ' then Some(("", s))
        else if c == '\'' then ReadWord(s[1..], InSingle)
        else if c == '"' then ReadWord(s[1..], InDouble)
        else if IsSafe(c) then Prepend([c], ReadWord(s[1..], Unquoted))
        else None
      case InSingle =>
        if c == '\'' then ReadWord(s[1..], Unquoted)
        else Prepend([c], ReadWord(s[1..], InSingle))
      case InDouble =>
        if c == '"' then ReadWord(s[1..], Unquoted)
        else if c == '$' || c == '`' || c == '\\' then None
        else Prepend([c], ReadWord(s[1..], InDouble))
  }

  /** The words a POSIX shell splits a command line into, separated by spaces. */
  function Words(s: string): Option<seq<string>>
    decreases |s|
  {
    if s == [] then Some([])
    else if s[0] == ' ' then Words(s[1..])
    else
      match ReadWord(s, Unquoted)
      case None => None
      case Some(wr) =>
        match Words(wr.1)
        case None => None
        case Some(ws) => Some([wr.0] + ws)
  }

  // ---------------------------------------------------------------------------
  // Quoting loses nothing

  lemma {:induction false} ReadSafe(s: string, rest: string)
    requires AllSafe(s)
    ensures ReadWord(s + rest, Unquoted) == Prepend(s, ReadWord(rest, Unquoted))
  {
    if s == [] {
      assert s + rest == rest;
      match ReadWord(rest, Unquoted)
      case None =>
      case Some(wr) => assert s + wr.0 == wr.0;
    } else {
      var x := s + rest;
      assert x[0] == s[0] && x[1..] == s[1..] + rest;
      ReadSafe(s[1..], rest);
      match ReadWord(rest, Unquoted)
      case None =>
      case Some(wr) => assert [s[0]] + (s[1..] + wr.0) == s + wr.0;
    }
  }

  lemma PrependPrepend(a: string, b: string, r: Option<(string, string)>)
    ensures Prepend(a, Prepend(b, r)) == Prepend(a + b, r)
  {
    match r
    case None =>
    case Some(wr) => assert a + (b + wr.0) == (a + b) + wr.0;
  }

  lemma PrependNothing(r: Option<(string, string)>)
    ensures Prepend("", r) == r
  {
    match r
    case None =>
    case Some(wr) => assert "" + wr.0 == wr.0;
  }

  /** Inside single quotes, the escape `'"'"'` stands for one single quote. */
  lemma ReadEscapedQuote(more: string)
    ensures ReadWord("'\"'\"'" + more, InSingle) == Prepend("'", ReadWord(more, InSingle))
  {
    var x := "'\"'\"'" + more;
    var x1 := "\"'\"'" + more;
    var x2 := "'\"'" + more;
    var x3 := "\"'" + more;
    var x4 := "'" + more;
    assert x[0] == '\'' && x[1..] == x1;
    assert x1[0] == '"' && x1[1..] == x2;
    assert x2[0] == '\'' && x2[1..] == x3;
    assert x3[0] == '"' && x3[1..] == x4;
    assert x4[0] == '\'' && x4[1..] == more;
    assert ReadWord(x4, Unquoted) == ReadWord(more, InSingle);
    assert ReadWord(x3, InDouble) == ReadWord(x4, Unquoted);
    assert ReadWord(x2, InDouble) == Prepend("'", ReadWord(x3, InDouble));
    assert ReadWord(x1, Unquoted) == ReadWord(x2, InDouble);
    assert ReadWord(x, InSingle) == ReadWord(x1, Unquoted);
  }

  /** The reader turns an escaped string, closed by a single quote, back into the string. */
  lemma {:induction false} ReadEscaped(s: string, rest: string)
    ensures ReadWord(EscapeQuotes(s) + "'" + rest, InSingle) == Prepend(s, ReadWord(rest, Unquoted))
  {
    if s == [] {
      var x := EscapeQuotes(s) + "'" + rest;
      assert x[0] == '\'' && x[1..] == rest;
      PrependPrepend([], [], ReadWord(rest, Unquoted));
      match ReadWord(rest, Unquoted)
      case None =>
      case Some(wr) => assert s + wr.0 == wr.0;
    } else {
      var more := EscapeQuotes(s[1..]) + "'" + rest;
      ReadEscaped(s[1..], rest);
      if s[0] == '\'' {
        assert EscapeQuotes(s) + "'" + rest == "'\"'\"'" + more;
        ReadEscapedQuote(more);
      } else {
        var x := [s[0]] + more;
        assert EscapeQuotes(s) + "'" + rest == x;
        assert x[0] == s[0] && x[1..] == more;
      }
      PrependPrepend([s[0]], s[1..], ReadWord(rest, Unquoted));
      assert [s[0]] + s[1..] == s;
    }
  }

  /** A quoted argument followed by a space or the end is read back as the argument. */
  lemma ReadQuoted(s: string, rest: string)
    requires rest == [] || rest[0] == ' '
    ensures ReadWord(Quote(s) + rest, Unquoted) == Some((s, rest))
  {
    if s == "" {
      ReadEmptyQuoted(rest);
    } else if AllSafe(s) {
      ReadSafe(s, rest);
      assert ReadWord(rest, Unquoted) == Some(("", rest));
      assert s + "" == s;
    } else {
      ReadSingleQuoted(s, rest);
    }
  }

  lemma ReadEmptyQuoted(rest: string)
    requires rest == [] || rest[0] == ' '
    ensures ReadWord("''" + rest, Unquoted) == Some(("", rest))
  {
    assert ReadWord(rest, Unquoted) == Some(("", rest));
    var x := "''" + rest;
    var x1 := "'" + rest;
    assert x[0] == '\'' && x[1..] == x1;
    assert x1[0] == '\'' && x1[1..] == rest;
  }

  lemma ReadSingleQuoted(s: string, rest: string)
    requires rest == [] || rest[0] == ' '
    ensures ReadWord("'" + EscapeQuotes(s) + "'" + rest, Unquoted) == Some((s, rest))
  {
    assert ReadWord(rest, Unquoted) == Some(("", rest));
    var x := "'" + EscapeQuotes(s) + "'" + rest;
    assert x[0] == '\'' && x[1..] == EscapeQuotes(s) + "'" + rest;
    ReadEscaped(s, rest);
    assert s + "" == s;
  }

  /** Joining quoted arguments with spaces gives a command line whose words are exactly
      the arguments: the guarantee `shlex.quote` exists for. */
  lemma {:induction false} WordsOfQuoted(words: seq<string>)
    ensures Words(Join(QuoteAll(words), " ")) == Some(words)
  {
    if words == [] {
    } else if |words| == 1 {
      var q := Quote(words[0]);
      ReadQuoted(words[0], "");
      assert q + "" == q;
      assert Join(QuoteAll(words), " ") == q;
      assert q[0] != ' ';
      assert ReadWord(q, Unquoted) == Some((words[0], ""));
      assert Words("") == Some([]);
      assert Words(q) == Some([words[0]] + []);
      assert [words[0]] + [] == words;
    } else {
      var q := Quote(words[0]);
      var rest := Join(QuoteAll(words[1..]), " ");
      assert QuoteAll(words) == [q] + QuoteAll(words[1..]);
      assert QuoteAll(words)[1..] == QuoteAll(words[1..]);
      var line := q + (" " + rest);
      assert Join(QuoteAll(words), " ") == line;
      ReadQuoted(words[0], " " + rest);
      assert q[0] != ' ';
      assert line[0] != ' ';
      WordsOfQuoted(words[1..]);
      var sp := " " + rest;
      assert sp[0] == ' ' && sp[1..] == rest;
      assert Words(sp) == Words(rest);
      assert line == q + sp;
      assert ReadWord(line, Unquoted) == Some((words[0], sp));
      assert Words(line) == Some([words[0]] + words[1..]);
      assert [words[0]] + words[1..] == words;
    }
  }
}
