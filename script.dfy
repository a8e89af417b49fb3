/** The argv of the `script(1)` invocation that records a command's terminal session
    (furo2.py:28-44). */
module Script {

  import opened Wrappers
  import opened Failures
  import opened Text
  import opened Shell

  /** The shell command line the Linux `script --command` is given: the quoted
      arguments joined by spaces, inside `sh -c "…"`. */
  function LinuxCommandLine(command: seq<string>): string
  {
    "sh -c \"" + Join(QuoteAll(command), " ") + "\""
  }

  /** `script_command_linux(out_file, command)`. */
  function Linux(outFile: string, command: seq<string>): (argv: seq<string>)
    ensures |argv| == 5
    ensures argv[0] == "script" && argv[1] == "--quiet" && argv[2] == "--command"
    ensures argv[3] == LinuxCommandLine(command) && argv[4] == outFile
  {
    ["script", "--quiet", "--command", LinuxCommandLine(command), outFile]
  }

  /** `script_command_darwin(out_file, command)`: BSD `script` takes the command's
      argv itself after the output file. */
  function Darwin(outFile: string, command: seq<string>): (argv: seq<string>)
    ensures |argv| == 3 + |command|
    ensures argv[..3] == ["script", "-q", outFile] && argv[3..] == command
  {
    ["script", "-q", outFile] + command
  }

  /** `script_command(out_file, command)`, which chooses by `sys.platform`. Any other
      platform is an error (in the source a `raise` of a string, itself a `TypeError`). */
  function ForPlatform(platform: string, outFile: string, command: seq<string>): (r: Result<seq<string>, Failure>)
    ensures platform == "darwin" ==> r == Ok(Darwin(outFile, command))
    ensures platform == "linux" ==> r == Ok(Linux(outFile, command))
    ensures platform != "darwin" && platform != "linux" ==> r == Err(UnsupportedPlatform(platform))
  {
    if platform == "darwin" then Ok(Darwin(outFile, command))
    else if platform == "linux" then Ok(Linux(outFile, command))
    else Err(UnsupportedPlatform(platform))
  }

  /** Each quoted argument is either made of safe characters only or wrapped in
      single quotes. */
  lemma QuotedArgumentShape(command: seq<string>, i: int)
    requires 0 <= i < |command|
    ensures var q := QuoteAll(command)[i];
      AllSafe(q) || (|q| >= 2 && q[0] == '\'' && q[|q| - 1] == '\'')
  {
  }

  /** The Darwin argv hands the command over word for word, so different commands or
      output files give different argvs. */
  lemma DarwinInjective(o1: string, c1: seq<string>, o2: string, c2: seq<string>)
    requires Darwin(o1, c1) == Darwin(o2, c2)
    ensures o1 == o2 && c1 == c2
  {
    assert Darwin(o1, c1)[2] == o1;
    assert Darwin(o1, c1)[3..] == c1;
  }

  // ---------------------------------------------------------------------------
  // What the shell makes of the Linux command line

  /** The characters that keep a special meaning inside double quotes or end them. */
  predicate Plain(c: char) {
    c != '\'' && c != '"' && c != '$' && c != '`' && c != '\\'
  }

  predicate AllPlain(s: string) {
    forall i :: 0 <= i < |s| ==> Plain(s[i])
  }

  /** Without single quotes, escaping changes nothing. */
  lemma {:induction false} EscapeWithoutQuotes(s: string)
    requires '\'' !in s
    ensures EscapeQuotes(s) == s
  {
    if s != [] {
      assert s[0] != '\'';
      EscapeWithoutQuotes(s[1..]);
    }
  }

  /** Quoting a plain argument adds single quotes and nothing that double quotes treat
      specially. */
  lemma QuotePlain(s: string)
    requires AllPlain(s)
    ensures forall i :: 0 <= i < |Quote(s)| ==> Quote(s)[i] == '\'' || Quote(s)[i] in s
    ensures '"' !in Quote(s) && '$' !in Quote(s) && '`' !in Quote(s) && '\\' !in Quote(s)
  {
    if s != "" && !AllSafe(s) {
      EscapeWithoutQuotes(s);
      assert Quote(s) == "'" + s + "'";
    }
  }

  predicate Unspecial(t: string) {
    '"' !in t && '$' !in t && '`' !in t && '\\' !in t
  }

  lemma {:induction false} JoinUnspecial(words: seq<string>)
    requires forall i :: 0 <= i < |words| ==> Unspecial(words[i])
    ensures Unspecial(Join(words, " "))
  {
    if |words| > 1 {
      JoinUnspecial(words[1..]);
    }
  }

  /** Double quotes keep text without `"`, `$`, backquote and backslash as it is. */
  lemma {:induction false} ReadDoubleQuoted(t: string, rest: string)
    requires Unspecial(t)
    ensures ReadWord(t + "\"" + rest, InDouble) == Prepend(t, ReadWord(rest, Unquoted))
  {
    if t == [] {
      var x := t + "\"" + rest;
      assert x[0] == '"' && x[1..] == rest;
      PrependNothing(ReadWord(rest, Unquoted));
    } else {
      var x := t + "\"" + rest;
      assert x[0] == t[0] && x[1..] == t[1..] + "\"" + rest;
      assert t[0] in t;
      ReadDoubleQuoted(t[1..], rest);
      PrependPrepend([t[0]], t[1..], ReadWord(rest, Unquoted));
      assert [t[0]] + t[1..] == t;
    }
  }

  /** A word of safe characters followed by a space or the end is read as itself. */
  lemma WordsOfSafe(a: string, rest: string)
    requires a != [] && AllSafe(a) && (rest == [] || rest[0] == ' ')
    ensures Words(a + rest) == (match Words(rest) case None => None case Some(ws) => Some([a] + ws))
  {
    ReadSafe(a, rest);
    assert ReadWord(rest, Unquoted) == Some(("", rest));
    assert a + "" == a;
    assert (a + rest)[0] == a[0];
  }

  /** `sh -c "p"`, for `p` without characters special inside double quotes, is the three
      words `sh`, `-c` and `p`. */
  lemma WordsOfShC(p: string)
    requires Unspecial(p)
    ensures Words("sh -c \"" + p + "\"") == Some(["sh", "-c", p])
  {
    var w := "\"" + p + "\"";
    ReadDoubleQuoted(p, "");
    assert w[0] == '"' && w[1..] == p + "\"" + "";
    assert ReadWord("", Unquoted) == Some(("", ""));
    assert p + "" == p;
    assert ReadWord(w, Unquoted) == Some((p, ""));
    assert Words("") == Some([]);
    assert [p] + [] == [p];
    assert Words(w) == Some([p]);
    var s2 := " " + w;
    assert s2[0] == ' ' && s2[1..] == w;
    assert Words(s2) == Some([p]);
    WordsOfSafe("-c", s2);
    assert ["-c"] + [p] == ["-c", p];
    assert Words("-c" + s2) == Some(["-c", p]);
    var s3 := " " + ("-c" + s2);
    assert s3[0] == ' ' && s3[1..] == "-c" + s2;
    assert Words(s3) == Some(["-c", p]);
    WordsOfSafe("sh", s3);
    assert ["sh"] + ["-c", p] == ["sh", "-c", p];
    assert Words("sh" + s3) == Some(["sh", "-c", p]);
    assert "sh -c \"" + p + "\"" == "sh" + s3;
  }

  lemma QuotedUnspecial(command: seq<string>)
    requires forall i :: 0 <= i < |command| ==> AllPlain(command[i])
    ensures Unspecial(Join(QuoteAll(command), " "))
  {
    forall i | 0 <= i < |command|
      ensures Unspecial(QuoteAll(command)[i])
    {
      QuotePlain(command[i]);
    }
    JoinUnspecial(QuoteAll(command));
  }

  /** When no argument holds a single or double quote, `$`, backquote or backslash, the
      command line `script` hands to the shell has the three words `sh`, `-c` and the
      quoted arguments, and those are read back as exactly the arguments. */
  lemma LinuxRoundTrip(outFile: string, command: seq<string>)
    requires forall i :: 0 <= i < |command| ==> AllPlain(command[i])
    ensures var p := Join(QuoteAll(command), " ");
      Words(Linux(outFile, command)[3]) == Some(["sh", "-c", p]) && Words(p) == Some(command)
  {
    WordsOfQuoted(command);
    QuotedUnspecial(command);
    WordsOfShC(Join(QuoteAll(command), " "));
  }

  /** Without that condition the round trip fails. For `echo it's` the escape
      `'"'"'` holds double quotes, and the first of them ends the `"…"` meant for
      `sh -c`: the command line `script` hands its shell ends inside a single quote that
      never closes, a syntax error before `sh -c` runs at all. */
  lemma LinuxSingleQuoteBreaks(outFile: string)
    ensures QuoteAll(["echo", "it's"]) == ["echo", "'it'\"'\"'s'"]
    ensures Words(Linux(outFile, ["echo", "it's"])[3]) == None
  {
    QuoteItS();
    LinuxLineItS();
    UnclosedOuterItS();
    var w := "\"" + ("echo 'it'" + "\"" + "'\"'s'\"");
    assert w[0] == '"';
    WordsOfShCFails(w);
  }

  /** The Linux command line for `echo it's`, cut where the reader needs it: `sh -c `,
      the opening `"`, the text up to the next `"`, and what follows that. */
  lemma LinuxLineItS()
    ensures LinuxCommandLine(["echo", "it's"]) == "sh -c " + ("\"" + ("echo 'it'" + "\"" + "'\"'s'\""))
  {
    QuoteItS();
    var q := "'it'\"'\"'s'";
    assert Join(["echo", q], " ") == "echo " + q;
    assert "sh -c \"" == "sh -c " + "\"";
    assert q == "'it'" + "\"" + "'\"'s'";
    assert "echo 'it'" == "echo " + "'it'";
    assert "'\"'s'\"" == "'\"'s'" + "\"";
    Regroup("sh -c ", "\"", "echo ", "'it'", "'\"'s'");
  }

  lemma Regroup(shc: string, dq: string, head: string, it: string, tail: string)
    ensures (shc + dq) + (head + (it + dq + tail)) + dq == shc + (dq + ((head + it) + dq + (tail + dq)))
  {
  }

  lemma QuoteItS()
    ensures QuoteAll(["echo", "it's"]) == ["echo", "'it'\"'\"'s'"]
  {
    assert AllSafe("echo");
    assert !AllSafe("it's") by { assert !IsSafe("it's"[2]); }
    var w := "it's";
    assert w[1..] == "t's" && w[2..] == "'s" && w[3..] == "s" && w[4..] == "";
    var e := "it'\"'\"'s";
    assert EscapeQuotes(w[3..]) == e[7..];
    assert EscapeQuotes(w[2..]) == e[2..];
    assert EscapeQuotes(w[1..]) == e[1..];
    assert EscapeQuotes(w) == e;
    assert Quote("echo") == "echo";
    assert Quote("it's") == "'" + "it'\"'\"'s" + "'";
    var c := ["echo", "it's"];
    assert c[1..] == ["it's"];
    assert QuoteAll(["it's"]) == [Quote("it's")] + QuoteAll([]);
    assert "'" + e + "'" == "'it'\"'\"'s'";
    assert QuoteAll(c) == [Quote("echo")] + QuoteAll(["it's"]);
  }

  /** The third word of that command line: the double-quoted `echo 'it'`, then a
      single-quoted `"`, an `s`, and a single quote left open. */
  lemma UnclosedOuterItS()
    ensures ReadWord("\"" + ("echo 'it'" + "\"" + "'\"'s'\""), Unquoted) == None
  {
    var plain := "echo 'it'";
    var rest := "'\"'s'\"";
    var w := "\"" + (plain + "\"" + rest);
    assert w[0] == '"' && w[1..] == plain + "\"" + rest;
    assert Unspecial(plain);
    ReadDoubleQuoted(plain, rest);
    ReadSingleUnclosed("\"");
    assert rest[5..] == "\"";
    assert rest[4] == '\'' && rest[4..][1..] == rest[5..];
    assert ReadWord(rest[4..], Unquoted) == None;
    assert rest[3] == 's' && rest[3..][1..] == rest[4..];
    assert ReadWord(rest[3..], Unquoted) == None;
    assert rest[2] == '\'' && rest[2..][1..] == rest[3..];
    assert ReadWord(rest[2..], InSingle) == None;
    assert rest[1] == '"' && rest[1..][1..] == rest[2..];
    assert ReadWord(rest[1..], InSingle) == None;
    assert rest[0] == '\'' && rest[1..] == rest[1..];
    assert ReadWord(rest, Unquoted) == None;
  }

  /** A quote that is opened and never closed is a syntax error. */
  lemma {:induction false} ReadSingleUnclosed(u: string)
    requires '\'' !in u
    ensures ReadWord(u, InSingle) == None
  {
    if u != [] {
      assert u[0] != '\'' && u[1..] <= u[1..];
      assert '\'' !in u[1..] by {
        forall k | 0 <= k < |u[1..]| ensures u[1..][k] != '\'' { assert u[1..][k] == u[k + 1]; }
      }
      ReadSingleUnclosed(u[1..]);
    }
  }

  /** A command line `sh -c w` whose third word cannot be read cannot be read at all. */
  lemma WordsOfShCFails(w: string)
    requires w != [] && w[0] != ' ' && ReadWord(w, Unquoted) == None
    ensures Words("sh -c " + w) == None
  {
    var s2 := " " + w;
    SpaceThenUnreadable(w);
    var s3 := " " + ("-c" + s2);
    SafeThenUnreadable("-c", s2);
    SpaceThenNone("-c" + s2);
    SafeThenUnreadable("sh", s3);
    assert "sh -c " == "sh" + " " + "-c" + " ";
    Regroup4("sh", " ", "-c", w);
  }

  lemma Regroup4(a: string, sp: string, b: string, w: string)
    ensures (a + sp + b + sp) + w == a + (sp + (b + (sp + w)))
  {
  }

  lemma SpaceThenUnreadable(w: string)
    requires w != [] && w[0] != ' ' && ReadWord(w, Unquoted) == None
    ensures Words(" " + w) == None
  {
    assert (" " + w)[1..] == w;
  }

  lemma SpaceThenNone(w: string)
    requires Words(w) == None
    ensures Words(" " + w) == None
  {
    assert (" " + w)[1..] == w;
  }

  lemma SafeThenUnreadable(a: string, rest: string)
    requires a != [] && AllSafe(a) && rest != [] && rest[0] == ' ' && Words(rest) == None
    ensures Words(a + rest) == None
  {
    WordsOfSafe(a, rest);
  }
}
