/** How the engine reads a line of valkey.conf: arguments between blanks, where a double-quoted argument
    may contain blanks and a backslash in it escapes, and what it therefore makes of the rendered lines. */
module EngineConf {
  import opened Wrappers
  import opened ConfText

  // ---- The engine's argument syntax ----

  predicate Blank(c: char) {
    c == ' ' || c == '\n' || c == '\t' || c == '\r'
  }

  predicate HexDigit(c: char) {
    '0' <= c <= '9' || 'a' <= c <= 'f' || 'A' <= c <= 'F'
  }

  function HexValue(c: char): (n: nat)
    requires HexDigit(c)
    ensures n < 16
  {
    if c <= '9' then c as nat - '0' as nat
    else if c <= 'F' then c as nat - 'A' as nat + 10
    else c as nat - 'a' as nat + 10
  }

  function Escape(c: char): char {
    match c
    case 'n' => '\n'
    case 'r' => '\r'
    case 't' => '\t'
    case 'b' => 8 as char
    case 'a' => 7 as char
    case _ => c
  }

  /** An argument and what follows it. */
  type Read = Option<(string, string)>

  function Prepend(c: char, r: Read): Read {
    if r.Some? then Some(([c] + r.value.0, r.value.1)) else None
  }

  /** The rest of a double-quoted argument. A closing quote must stand before a blank or the end. */
  function Quoted(s: string): Read
    decreases |s|
  {
    if s == "" then None
    else if |s| >= 4 && s[..2] == "\\x" && HexDigit(s[2]) && HexDigit(s[3]) then
      Prepend((16 * HexValue(s[2]) + HexValue(s[3])) as char, Quoted(s[4..]))
    else if |s| >= 2 && s[0] == '\\' then Prepend(Escape(s[1]), Quoted(s[2..]))
    else if s[0] == '"' then (if |s| == 1 || Blank(s[1]) then Some(("", s[1..])) else None)
    else Prepend(s[0], Quoted(s[1..]))
  }

  /** The rest of a single-quoted argument. */
  function SingleQuoted(s: string): Read
    decreases |s|
  {
    if s == "" then None
    else if |s| >= 2 && s[..2] == "\\'" then Prepend('\'', SingleQuoted(s[2..]))
    else if s[0] == '\'' then (if |s| == 1 || Blank(s[1]) then Some(("", s[1..])) else None)
    else Prepend(s[0], SingleQuoted(s[1..]))
  }

  /** The rest of an argument outside quotes. */
  function Bare(s: string): Read
    decreases |s|
  {
    if s == "" || Blank(s[0]) then Some(("", s))
    else if s[0] == '"' then Quoted(s[1..])
    else if s[0] == '\'' then SingleQuoted(s[1..])
    else Prepend(s[0], Bare(s[1..]))
  }

  lemma {:induction false} QuotedLength(s: string)
    ensures Quoted(s).Some? ==> |Quoted(s).value.0| + |Quoted(s).value.1| < |s|
    decreases |s|
  {
    if |s| >= 1 {
      QuotedLength(s[1..]);
    }
    if |s| >= 2 {
      QuotedLength(s[2..]);
    }
    if |s| >= 4 {
      QuotedLength(s[4..]);
    }
  }

  lemma {:induction false} SingleQuotedLength(s: string)
    ensures SingleQuoted(s).Some? ==> |SingleQuoted(s).value.1| < |s|
    decreases |s|
  {
    if |s| >= 1 {
      SingleQuotedLength(s[1..]);
    }
    if |s| >= 2 {
      SingleQuotedLength(s[2..]);
    }
  }

  lemma {:induction false} BareLength(s: string)
    ensures Bare(s).Some? ==> |Bare(s).value.1| <= |s| && (s != "" && !Blank(s[0]) ==> |Bare(s).value.1| < |s|)
    decreases |s|
  {
    if s != "" && !Blank(s[0]) {
      QuotedLength(s[1..]);
      SingleQuotedLength(s[1..]);
      BareLength(s[1..]);
    }
  }

  /** The arguments of a line, the directive's name first; None if a quote is not closed properly. */
  function Args(s: string): Option<seq<string>>
    decreases |s|
  {
    if s == "" then Some([])
    else if Blank(s[0]) then Args(s[1..])
    else
      BareLength(s);
      match Bare(s)
      case None => None
      case Some((arg, rest)) =>
        var more := Args(rest);
        if more.Some? then Some([arg] + more.value) else None
  }

  // ---- What the engine makes of a rendered line ----

  /** A word that the engine reads as it stands. */
  predicate Word(k: string) {
    k != "" && forall i :: 0 <= i < |k| ==> !Blank(k[i]) && k[i] != '"' && k[i] != '\''
  }

  /** Nothing in it ends a double-quoted argument or escapes. */
  predicate Quotable(value: string) {
    '"' !in value && '\\' !in value
  }

  lemma {:induction false} BareWord(k: string, rest: string)
    requires (k == "" || Word(k)) && (rest == "" || Blank(rest[0]))
    ensures Bare(k + rest) == Some((k, rest))
    decreases |k|
  {
    if k == "" {
      assert k + rest == rest;
    } else {
      assert (k + rest)[0] == k[0] && (k + rest)[1..] == k[1..] + rest;
      BareWord(k[1..], rest);
      assert k == [k[0]] + k[1..];
    }
  }

  lemma ArgsAfterWord(k: string, rest: string)
    requires Word(k) && (rest == "" || Blank(rest[0]))
    ensures Args(k + rest) == if Args(rest).Some? then Some([k] + Args(rest).value) else None
  {
    BareWord(k, rest);
    assert (k + rest)[0] == k[0];
  }

  lemma {:induction false} QuotedRoundTrip(value: string)
    requires Quotable(value)
    ensures Quoted(value + "\"") == Some((value, ""))
    decreases |value|
  {
    var s := value + "\"";
    if value == "" {
      assert s == "\"";
    } else {
      assert s[0] == value[0] && s[1..] == value[1..] + "\"";
      QuotedRoundTrip(value[1..]);
      assert value == [value[0]] + value[1..];
    }
  }

  /** A quote or a backslash costs at least one character. */
  lemma {:induction false} UnquotableIsMisread(value: string)
    requires !Quotable(value)
    ensures Quoted(value + "\"") != Some((value, ""))
    decreases |value|
  {
    var s := value + "\"";
    assert s[0] == value[0] && s[1..] == value[1..] + "\"";
    if value[0] == '\\' {
      QuotedLength(s[2..]);
      if |s| >= 4 {
        QuotedLength(s[4..]);
      }
    } else if value[0] != '"' {
      UnquotableIsMisread(value[1..]);
    }
  }

  /** The engine gets one argument, and exactly the value that was set, from the line of each of the six
      path directives if the value contains neither a double quote nor a backslash; otherwise it refuses the
      line or reads something else. */
  lemma PathLineIsReadBack(key: string, value: string)
    requires key in {"dir", "dbfilename", "logfile", "pidfile", "unixsocket", "appendfilename"}
    ensures Args(ConfigLine(key, value)) == Some([key, value]) <==> '"' !in value && '\\' !in value
  {
    hide Args, Quoted, Bare;
    PathNames();
    var arg := "\"" + value + "\"";
    assert ConfigLine(key, value) == key + (" " + arg);
    ArgsAfterWord(key, " " + arg);
    ArgsAfterBlank(arg);
    ArgsOfQuoted(value);
    if Quotable(value) {
      QuotedRoundTrip(value);
    } else {
      UnquotableIsMisread(value);
    }
    if Args(arg).Some? {
      OneMoreArg(key, Args(arg).value, value);
    }
  }


  lemma ArgsAfterBlank(s: string)
    ensures Args(" " + s) == Args(s)
  {
    assert (" " + s)[1..] == s;
  }

  lemma OneMoreArg(key: string, more: seq<string>, value: string)
    ensures [key] + more == [key, value] <==> more == [value]
  {
    assert ([key] + more)[1..] == more && [key, value][1..] == [value];
  }

  lemma PathNames()
    ensures forall key <- {"dir", "dbfilename", "logfile", "pidfile", "unixsocket", "appendfilename"} ::
              Word(key) && key in PATH_DIRECTIVES
  {
  }

  lemma ArgsOfQuoted(value: string)
    ensures var s, q := "\"" + value + "\"", Quoted(value + "\"");
            Args(s) == if q.Some? && Args(q.value.1).Some? then Some([q.value.0] + Args(q.value.1).value) else None
    ensures Args("\"" + value + "\"") == Some([value]) <==> Quoted(value + "\"") == Some((value, ""))
  {
    var s := "\"" + value + "\"";
    var q := Quoted(value + "\"");
    assert s[0] == '"' && s[1..] == value + "\"";
    QuotedLength(value + "\"");
    assert Args("") == Some([]) && [value] + [] == [value];
    if Args(s) == Some([value]) {
      var more := Args(q.value.1);
      assert ([q.value.0] + more.value)[0] == [value][0];
      assert q.value.1 == "";
    }
  }


  /** Words with single blanks between them. */
  function Spaced(words: seq<string>): string {
    if words == [] then "" else if |words| == 1 then words[0] else words[0] + " " + Spaced(words[1..])
  }

  lemma {:induction false} SpacedIsSplit(words: seq<string>)
    requires forall k <- words :: Word(k)
    ensures Args(Spaced(words)) == Some(words)
    decreases |words|
  {
    if words == [] {
    } else {
      assert words[0] in words && forall k <- words[1..] :: k in words;
      var rest := if |words| == 1 then "" else " " + Spaced(words[1..]);
      SpacedIsSplit(words[1..]);
      assert |words| > 1 ==> rest[1..] == Spaced(words[1..]);
      assert Spaced(words) == words[0] + rest;
      ArgsAfterWord(words[0], rest);
      assert words == [words[0]] + words[1..];
    }
  }

  /** Every other directive gets one argument a word, as `save 900 1` needs. */
  lemma OtherLinesAreSplit(key: string, words: seq<string>)
    requires key !in {"dir", "dbfilename", "logfile", "pidfile", "unixsocket", "appendfilename"}
    requires Word(key) && forall k <- words :: Word(k)
    ensures Args(ConfigLine(key, Spaced(words))) == Some([key] + words)
  {
    var rest := " " + Spaced(words);
    assert rest[1..] == Spaced(words);
    SpacedIsSplit(words);
    assert ConfigLine(key, Spaced(words)) == key + rest;
    ArgsAfterWord(key, rest);
  }

  /** An example: a double quote in the directory's name makes the engine refuse the line. */
  lemma AQuoteInAPathIsRefused()
    ensures Args(ConfigLine("dir", "a\"b")) == None
  {
    PathNames();
    var rest := " \"a\"b\"";
    assert ConfigLine("dir", "a\"b") == "dir" + rest;
    ArgsAfterWord("dir", rest);
    ArgsOfQuoted("a\"b");
    assert rest[1..] == "\"" + "a\"b" + "\"";
    var q := "a\"b" + "\"";
    assert q[0] == 'a' && q[1..][0] == '"' && q[1..][1] == 'b';
    assert Quoted(q[1..]) == None;
  }
}
