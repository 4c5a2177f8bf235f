/** valkey.conf as text: rendering settings as sorted directive lines, and a parser that reads them
    back. Strings are compared as Python compares them, by code point. */
module ConfText {
  import opened Wrappers

  /** A value of the settings dict: None, one string, or a list of strings. */
  datatype Setting = Unset | Text(s: string) | Lines(items: seq<string>)

  type Settings = map<string, Setting>

  /** Directives that the parser finds, each with its values in order. */
  type Directives = map<string, seq<string>>

  const PATH_DIRECTIVES: set<string> := {"dir", "dbfilename", "logfile", "pidfile", "unixsocket", "appendfilename"}

  // ---- Sorted keys ----

  predicate Less(a: string, b: string) {
    b != "" && (a == "" || a[0] < b[0] || (a[0] == b[0] && Less(a[1..], b[1..])))
  }

  /** At the first difference the smaller code point, or the end, decides. */
  lemma {:induction false} LessIsCodePointOrder(a: string, b: string)
    ensures Less(a, b) <==> exists n: nat :: DecidedAt(a, b, n)
  {
    if a != "" && b != "" && a[0] == b[0] {
      LessIsCodePointOrder(a[1..], b[1..]);
      forall n: nat ensures DecidedAt(a[1..], b[1..], n) <==> DecidedAt(a, b, n + 1) {
        DecidedLater(a, b, n);
      }
      assert !DecidedAt(a, b, 0);
      forall n: nat | DecidedAt(a, b, n) ensures Less(a, b) {
        assert DecidedAt(a[1..], b[1..], n - 1);
      }
    } else if Less(a, b) {
      assert DecidedAt(a, b, 0);
    }
  }

  predicate DecidedAt(a: string, b: string, n: nat) {
    n <= |a| && n < |b| && a[..n] == b[..n] && (n == |a| || a[n] < b[n])
  }

  lemma DecidedLater(a: string, b: string, n: nat)
    requires a != "" && b != "" && a[0] == b[0]
    ensures DecidedAt(a[1..], b[1..], n) <==> DecidedAt(a, b, n + 1)
  {
    if n + 1 <= |a| && n + 1 <= |b| {
      assert a[..n + 1] == [a[0]] + a[1..][..n] && b[..n + 1] == [b[0]] + b[1..][..n];
    }
  }

  lemma LessIrreflexive(a: string)
    ensures !Less(a, a)
  {
  }

  lemma {:induction false} LessTotal(a: string, b: string)
    ensures Less(a, b) || a == b || Less(b, a)
  {
    if a == "" || b == "" || a[0] != b[0] {
    } else {
      LessTotal(a[1..], b[1..]);
      assert a == [a[0]] + a[1..] && b == [b[0]] + b[1..];
    }
  }

  lemma {:induction false} LessTransitive(a: string, b: string, c: string)
    requires Less(a, b) && Less(b, c)
    ensures Less(a, c)
  {
    if a == "" || a[0] != b[0] || b[0] != c[0] {
    } else {
      LessTransitive(a[1..], b[1..], c[1..]);
    }
  }

  /** Strictly increasing, hence without repetition. */
  ghost predicate Sorted(ks: seq<string>) {
    forall i, j :: 0 <= i < j < |ks| ==> Less(ks[i], ks[j])
  }

  function Elements(ks: seq<string>): set<string> {
    set k | k in ks
  }

  function Insert(k: string, ks: seq<string>): (r: seq<string>)
    ensures Elements(r) == Elements(ks) + {k}
    ensures |r| <= |ks| + 1
  {
    if ks == [] then [k]
    else if k == ks[0] then ks
    else if Less(k, ks[0]) then [k] + ks
    else
      var r := Insert(k, ks[1..]);
      assert ks == [ks[0]] + ks[1..];
      assert Elements(ks) == {ks[0]} + Elements(ks[1..]);
      assert Elements([ks[0]] + r) == {ks[0]} + Elements(r);
      [ks[0]] + r
  }

  lemma {:induction false} InsertSorted(k: string, ks: seq<string>)
    requires Sorted(ks)
    ensures Sorted(Insert(k, ks))
  {
    if ks == [] || k == ks[0] {
    } else {
      if Less(k, ks[0]) {
        forall j | 0 <= j < |ks| ensures Less(k, ks[j]) {
          if j > 0 {
            LessTransitive(k, ks[0], ks[j]);
          }
        }
      } else {
        LessTotal(k, ks[0]);
        InsertSorted(k, ks[1..]);
        var r := Insert(k, ks[1..]);
        forall j | 0 <= j < |r| ensures Less(ks[0], r[j]) {
          assert r[j] in Elements(r);
          assert r[j] in Elements(ks[1..]) || r[j] == k;
        }
      }
    }
  }

  /** The sorted enumeration of a set of keys. */
  ghost function SortedKeys(keys: set<string>): (ks: seq<string>)
    ensures Sorted(ks) && Elements(ks) == keys
  {
    if keys == {} then [] else
    var k :| k in keys;
    InsertSorted(k, SortedKeys(keys - {k}));
    Insert(k, SortedKeys(keys - {k}))
  }

  /** There is only one: sorting does not depend on the order in which the keys came. */
  lemma {:induction false} SortedIsUnique(a: seq<string>, b: seq<string>)
    requires Sorted(a) && Sorted(b) && Elements(a) == Elements(b)
    ensures a == b
  {
    if a == [] {
      if b != [] {
        HasElement(b);
      }
    } else {
      assert a[0] in Elements(a);
      var j :| 0 <= j < |b| && b[j] == a[0];
      assert b[0] in Elements(b);
      var i :| 0 <= i < |a| && a[i] == b[0];
      if i > 0 && j > 0 {
        LessTransitive(a[0], b[0], a[0]);
        LessIrreflexive(a[0]);
      }
      LessIrreflexive(a[0]);
      assert a[0] == b[0];
      TailElements(a);
      TailElements(b);
      SortedIsUnique(a[1..], b[1..]);
      assert a == [a[0]] + a[1..] && b == [b[0]] + b[1..];
    }
  }

  lemma HasElement(a: seq<string>)
    requires a != []
    ensures Elements(a) != {}
  {
    assert a[0] in Elements(a);
  }

  lemma TailElements(a: seq<string>)
    requires Sorted(a) && a != []
    ensures Sorted(a[1..]) && Elements(a[1..]) == Elements(a) - {a[0]}
  {
    LessIrreflexive(a[0]);
    forall k | k in Elements(a[1..]) ensures k in Elements(a) && k != a[0] {
      var i :| 0 <= i < |a[1..]| && a[1..][i] == k;
      assert a[i + 1] == k;
    }
    forall k | k in Elements(a) && k != a[0] ensures k in Elements(a[1..]) {
      var i :| 0 <= i < |a| && a[i] == k;
      assert a[1..][i - 1] == k;
    }
  }

  // ---- Rendering ----

  /** The values a setting stands for; None, "" and [] are skipped. */
  function Values(v: Setting): seq<string> {
    match v
    case Unset => []
    case Text(s) => if s == "" then [] else [s]
    case Lines(items) => items
  }

  /** `_config_line`. */
  function ConfigLine(key: string, value: string): string {
    if key in PATH_DIRECTIVES then key + " \"" + value + "\"" else key + " " + value
  }

  function KeyLines(key: string, values: seq<string>): seq<string> {
    if values == [] then []
    else KeyLines(key, values[..|values| - 1]) + [ConfigLine(key, values[|values| - 1])]
  }

  function AllLines(m: Settings, keys: seq<string>): seq<string>
    requires Elements(keys) <= m.Keys
  {
    if keys == [] then [] else
    var last := |keys| - 1;
    assert keys[last] in Elements(keys);
    assert Elements(keys[..last]) <= Elements(keys);
    AllLines(m, keys[..last]) + KeyLines(keys[last], Values(m[keys[last]]))
  }

  /** "\n".join. */
  function Join(lines: seq<string>): string {
    if lines == [] then "" else if |lines| == 1 then lines[0] else lines[0] + "\n" + Join(lines[1..])
  }

  ghost function Render(m: Settings): string {
    Join(AllLines(m, SortedKeys(m.Keys))) + "\n"
  }

  // ---- Parsing ----

  function IndexOf(s: string, c: char): (i: nat)
    ensures i <= |s|
    ensures forall j :: 0 <= j < i ==> s[j] != c
    ensures i < |s| ==> s[i] == c
  {
    if s == "" || s[0] == c then 0 else IndexOf(s[1..], c) + 1
  }

  function SplitLines(text: string): seq<string>
    decreases |text|
  {
    var i := IndexOf(text, '\n');
    if i == |text| then (if text == "" then [] else [text]) else [text[..i]] + SplitLines(text[i + 1..])
  }

  function Unquote(key: string, value: string): string {
    if key in PATH_DIRECTIVES && |value| >= 2 then value[1..|value| - 1] else value
  }

  /** Split at the first space; lines without one say nothing. */
  function ParseLine(line: string): Option<(string, string)> {
    var i := IndexOf(line, ' ');
    if i == |line| then None else Some((line[..i], Unquote(line[..i], line[i + 1..])))
  }

  function Found(d: Directives, key: string): seq<string> {
    if key in d then d[key] else []
  }

  function ParseLines(lines: seq<string>): Directives {
    if lines == [] then map[] else
    var d := ParseLines(lines[..|lines| - 1]);
    match ParseLine(lines[|lines| - 1])
    case None => d
    case Some((key, value)) => d[key := Found(d, key) + [value]]
  }

  function Parse(text: string): Directives {
    ParseLines(SplitLines(text))
  }

  // ---- Round trip ----

  predicate Clean(s: string, forbidden: set<char>) {
    forall i :: 0 <= i < |s| ==> s[i] !in forbidden
  }

  /** A directive name: no space, no newline. */
  predicate Name(k: string) {
    Clean(k, {' ', '\n'})
  }

  /** Directive names as keys, values without newlines. */
  ghost predicate WellFormed(m: Settings) {
    forall k <- m :: Name(k) && forall v <- Values(m[k]) :: Clean(v, {'\n'})
  }

  /** The directives that settings stand for. */
  function Meaning(m: Settings): Directives {
    map k | k in m && Values(m[k]) != [] :: Values(m[k])
  }

  lemma FirstIs(s: string, c: char, i: nat)
    requires i < |s| && s[i] == c && forall j :: 0 <= j < i ==> s[j] != c
    ensures IndexOf(s, c) == i
  {
  }

  lemma LineRoundTrip(key: string, value: string)
    requires Name(key) && Clean(value, {'\n'})
    ensures ParseLine(ConfigLine(key, value)) == Some((key, value))
    ensures Clean(ConfigLine(key, value), {'\n'})
  {
    var line := ConfigLine(key, value);
    forall j | 0 <= j < |key| ensures line[j] == key[j] && key[j] != ' ' {
    }
    FirstIs(line, ' ', |key|);
    assert line[..|key|] == key;
    if key in PATH_DIRECTIVES {
      assert line[|key| + 1..] == "\"" + value + "\"";
      assert ("\"" + value + "\"")[1..|value| + 1] == value;
    } else {
      assert line[|key| + 1..] == value;
    }
  }

  /** One more line adds one more value. */
  lemma LineParse(lines: seq<string>, key: string, value: string)
    requires Name(key) && Clean(value, {'\n'})
    ensures var d := ParseLines(lines);
            ParseLines(lines + [ConfigLine(key, value)]) == d[key := Found(d, key) + [value]]
  {
    var all := lines + [ConfigLine(key, value)];
    assert all[..|all| - 1] == lines;
    LineRoundTrip(key, value);
  }

  lemma {:induction false} KeyLinesParse(lines: seq<string>, key: string, values: seq<string>)
    requires Name(key) && forall v <- values :: Clean(v, {'\n'})
    ensures var d := ParseLines(lines);
            ParseLines(lines + KeyLines(key, values)) == if values == [] then d else d[key := Found(d, key) + values]
    ensures forall l <- KeyLines(key, values) :: Clean(l, {'\n'})
  {
    hide ParseLine, ConfigLine, Clean, Name;
    if values == [] {
      assert lines + [] == lines;
    } else {
      var n := |values| - 1;
      var front, line := KeyLines(key, values[..n]), ConfigLine(key, values[n]);
      KeyLinesParse(lines, key, values[..n]);
      LineRoundTrip(key, values[n]);
      LineParse(lines + front, key, values[n]);
      assert lines + (front + [line]) == lines + front + [line];
      var d := ParseLines(lines);
      var d1 := ParseLines(lines + front);
      var all := Found(d, key) + values;
      assert values == values[..n] + [values[n]];
      assert Found(d1, key) + [values[n]] == all;
      assert d1[key := all] == d[key := all];
    }
  }

  /** What the first lines up to these keys mean. */
  function MeaningOf(m: Settings, keys: set<string>): Directives
    requires keys <= m.Keys
  {
    map k | k in keys && Values(m[k]) != [] :: Values(m[k])
  }

  lemma OneMoreKey(m: Settings, keys: set<string>, k: string)
    requires keys <= m.Keys && k in m && k !in keys
    ensures var d := MeaningOf(m, keys);
            MeaningOf(m, keys + {k}) == if Values(m[k]) == [] then d else d[k := Found(d, k) + Values(m[k])]
  {
    assert [] + Values(m[k]) == Values(m[k]);
  }

  lemma FrontElements(keys: seq<string>)
    requires keys != [] && Sorted(keys)
    ensures var last := |keys| - 1;
            && Elements(keys) == Elements(keys[..last]) + {keys[last]} && keys[last] !in Elements(keys[..last])
            && Sorted(keys[..last])
  {
    var last := |keys| - 1;
    LessIrreflexive(keys[last]);
    assert keys == keys[..last] + [keys[last]];
  }

  lemma {:induction false} AllLinesParse(m: Settings, keys: seq<string>)
    requires Elements(keys) <= m.Keys && WellFormed(m) && Sorted(keys)
    ensures ParseLines(AllLines(m, keys)) == MeaningOf(m, Elements(keys))
    ensures forall l <- AllLines(m, keys) :: Clean(l, {'\n'})
  {
    hide ParseLines, MeaningOf, Sorted, Elements, Clean, Name;
    if keys == [] {
      NoKeys(m);
    } else {
      var last := |keys| - 1;
      FrontElements(keys);
      AllLinesParse(m, keys[..last]);
      KeyLinesParse(AllLines(m, keys[..last]), keys[last], Values(m[keys[last]]));
      OneMoreKey(m, Elements(keys[..last]), keys[last]);
    }
  }

  lemma NoKeys(m: Settings)
    ensures Elements([]) == {} && MeaningOf(m, {}) == map[] && ParseLines([]) == map[]
  {
  }

  lemma {:induction false} SplitJoin(lines: seq<string>)
    requires lines != [] && forall l <- lines :: Clean(l, {'\n'})
    ensures SplitLines(Join(lines) + "\n") == lines
  {
    hide SplitLines, Clean, Join;
    assert lines[0] in lines;
    assert forall l <- lines[1..] :: l in lines;
    JoinOneMore(lines);
    if |lines| == 1 {
      SplitLine(lines[0], "");
      SplitNothing();
      assert [lines[0]] + [] == lines;
    } else {
      SplitJoin(lines[1..]);
      SplitLine(lines[0], Join(lines[1..]) + "\n");
      assert [lines[0]] + lines[1..] == lines;
    }
  }


  lemma SplitNothing()
    ensures SplitLines("") == []
  {
  }


  lemma JoinOneMore(lines: seq<string>)
    requires lines != []
    ensures Join(lines) + "\n" == lines[0] + "\n" + if |lines| == 1 then "" else Join(lines[1..]) + "\n"
  {
    if |lines| > 1 {
      var rest := Join(lines[1..]);
      hide Join;
      assert lines[0] + "\n" + rest + "\n" == lines[0] + "\n" + (rest + "\n");
    }
  }

  lemma SplitLine(first: string, rest: string)
    requires Clean(first, {'\n'})
    ensures SplitLines(first + "\n" + rest) == [first] + SplitLines(rest)
  {
    var text := first + "\n" + rest;
    assert forall j :: 0 <= j < |first| ==> text[j] == first[j];
    assert text[|first|] == '\n';
    FirstIs(text, '\n', |first|);
    assert text[..|first|] == first && text[|first| + 1..] == rest;
  }

  /** Reading the rendered text back yields exactly what the settings mean. */
  lemma RoundTrip(m: Settings)
    requires WellFormed(m)
    ensures Parse(Render(m)) == Meaning(m)
  {
    var keys := SortedKeys(m.Keys);
    AllLinesParse(m, keys);
    var lines := AllLines(m, keys);
    if lines == [] {
      assert SplitLines("\n") == [""] by {
        FirstIs("\n", '\n', 0);
      }
      assert ParseLine("") == None;
      assert ParseLines([""]) == map[] by {
        assert [""][..0] == [];
      }
      assert Join(lines) + "\n" == "\n";
    } else {
      SplitJoin(lines);
    }
  }

  /** The name on a line. */
  function NameOn(line: string): string {
    line[..IndexOf(line, ' ')]
  }

  lemma {:induction false} KeyLinesName(key: string, values: seq<string>)
    requires Name(key) && forall v <- values :: Clean(v, {'\n'})
    ensures forall l <- KeyLines(key, values) :: NameOn(l) == key
  {
    hide ConfigLine;
    if values == [] {
    } else {
      var n := |values| - 1;
      KeyLinesName(key, values[..n]);
      LineRoundTrip(key, values[n]);
    }
  }

  /** Names in ascending order, each as often as it has values. */
  ghost predicate Ascending(lines: seq<string>) {
    forall i, j :: 0 <= i < j < |lines| ==>
      NameOn(lines[i]) == NameOn(lines[j]) || Less(NameOn(lines[i]), NameOn(lines[j]))
  }

  lemma {:induction false} AllLinesAscend(m: Settings, keys: seq<string>)
    requires Elements(keys) <= m.Keys && WellFormed(m) && Sorted(keys)
    ensures Ascending(AllLines(m, keys)) && forall l <- AllLines(m, keys) :: NameOn(l) in keys
  {
    hide NameOn, KeyLines, Less;
    if keys == [] {
    } else {
      var last := |keys| - 1;
      FrontElements(keys);
      AllLinesAscend(m, keys[..last]);
      KeyLinesName(keys[last], Values(m[keys[last]]));
      assert forall k <- keys[..last] :: k in keys && Less(k, keys[last]);
    }
  }

  /** The lines of the rendered text stand in ascending order of their names. */
  lemma RenderedInOrder(m: Settings)
    requires WellFormed(m)
    ensures Ascending(SplitLines(Render(m)))
  {
    var keys := SortedKeys(m.Keys);
    AllLinesAscend(m, keys);
    AllLinesParse(m, keys);
    var lines := AllLines(m, keys);
    if lines == [] {
      FirstIs("\n", '\n', 0);
      assert Render(m) == "\n" && SplitLines("\n") == [""];
    } else {
      SplitJoin(lines);
    }
  }

  /** Settings that mean different things render differently. */
  lemma RenderIsInjective(a: Settings, b: Settings)
    requires WellFormed(a) && WellFormed(b) && Meaning(a) != Meaning(b)
    ensures Render(a) != Render(b)
  {
    RoundTrip(a);
    RoundTrip(b);
  }
}
