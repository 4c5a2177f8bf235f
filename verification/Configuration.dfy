/** configuration.py: the defaults, merging overrides onto them, and rendering valkey.conf. The dicts
    and the lists inside them are heap objects, so that sharing and mutation are visible. */
module Configuration {
  import opened ConfText

  // The defaults, in alphabetical runs; the only list stands apart.
  const DEFAULTS_1: Settings := map[
    "activerehashing" := Text("yes"),
    "aof-load-truncated" := Text("yes"),
    "aof-rewrite-incremental-fsync" := Text("yes"),
    "appendfilename" := Text("appendonly.aof"),
    "appendfsync" := Text("everysec"),
    "appendonly" := Text("no"),
    "auto-aof-rewrite-min-size" := Text("64mb"),
    "auto-aof-rewrite-percentage" := Text("100"),
    "bind" := Unset
  ]

  const DEFAULTS_2: Settings := map[
    "busy-reply-threshold" := Text("5000"),
    "daemonize" := Text("yes"),
    "databases" := Text("16"),
    "dbdir" := Text("./"),
    "dbfilename" := Text("valkey.db"),
    "hash-max-listpack-entries" := Text("512"),
    "hash-max-listpack-value" := Text("64"),
    "hll-sparse-max-bytes" := Text("3000"),
    "hz" := Text("10")
  ]

  const DEFAULTS_3: Settings := map[
    "latency-monitor-threshold" := Text("0"),
    "list-max-listpack-size" := Text("128"),
    "logfile" := Text("valkey.log"),
    "loglevel" := Text("notice"),
    "no-appendfsync-on-rewrite" := Text("no"),
    "notify-keyspace-events" := Text("\"\""),
    "pidfile" := Text("valkey.pid"),
    "port" := Text("0"),
    "rdbchecksum" := Text("yes")
  ]

  const DEFAULTS_4: Settings := map[
    "rdbcompression" := Text("yes"),
    "repl-disable-tcp-nodelay" := Text("no"),
    "replica-priority" := Text("100"),
    "replica-read-only" := Text("yes"),
    "replica-serve-stale-data" := Text("yes"),
    "set-max-intset-entries" := Text("512"),
    "slowlog-log-slower-than" := Text("10000"),
    "slowlog-max-len" := Text("128")
  ]

  const DEFAULTS_5: Settings := map[
    "stop-writes-on-bgsave-error" := Text("yes"),
    "tcp-backlog" := Text("511"),
    "tcp-keepalive" := Text("0"),
    "timeout" := Text("0"),
    "unixsocket" := Text("valkey.socket"),
    "unixsocketperm" := Text("700"),
    "zset-max-listpack-entries" := Text("128"),
    "zset-max-listpack-value" := Text("64")
  ]

  const DEFAULT_SAVE: Settings := map["save" := Lines(["900 1", "300 100", "60 200", "15 1000"])]

  const DEFAULTS: Settings := DEFAULTS_1 + DEFAULTS_2 + DEFAULTS_3 + DEFAULTS_4 + DEFAULTS_5 + DEFAULT_SAVE

  /** Well-formed settings without a `dir` key. */
  ghost predicate Plain(m: Settings) {
    WellFormed(m) && "dir" !in m
  }

  lemma Names1()
    ensures Name("activerehashing") && Name("aof-load-truncated") && Name("aof-rewrite-incremental-fsync")
            && Name("appendfilename") && Name("appendfsync") && Name("appendonly")
            && Name("auto-aof-rewrite-min-size") && Name("auto-aof-rewrite-percentage") && Name("bind")
  {
  }

  lemma NamesOf1()
    ensures forall k <- DEFAULTS_1 :: Name(k)
  {
    hide Name;
    Names1();
  }

  lemma ValuesOf1()
    ensures forall k <- DEFAULTS_1 :: DEFAULTS_1[k].Unset? || (DEFAULTS_1[k].Text? && Clean(DEFAULTS_1[k].s, {'\n'}))
  {
  }

  lemma PlainDefaults1()
    ensures Plain(DEFAULTS_1)
  {
    hide Name, Clean;
    NamesOf1();
    ValuesOf1();
    assert "dir" !in DEFAULTS_1;
  }

  lemma Names2()
    ensures Name("busy-reply-threshold") && Name("daemonize") && Name("databases") && Name("dbdir")
            && Name("dbfilename") && Name("hash-max-listpack-entries") && Name("hash-max-listpack-value")
            && Name("hll-sparse-max-bytes") && Name("hz")
  {
  }

  lemma NamesOf2()
    ensures forall k <- DEFAULTS_2 :: Name(k)
  {
    hide Name;
    Names2();
  }

  lemma ValuesOf2()
    ensures forall k <- DEFAULTS_2 :: DEFAULTS_2[k].Unset? || (DEFAULTS_2[k].Text? && Clean(DEFAULTS_2[k].s, {'\n'}))
  {
  }

  lemma PlainDefaults2()
    ensures Plain(DEFAULTS_2)
  {
    hide Name, Clean;
    NamesOf2();
    ValuesOf2();
    assert "dir" !in DEFAULTS_2;
  }

  lemma Names3()
    ensures Name("latency-monitor-threshold") && Name("list-max-listpack-size") && Name("logfile")
            && Name("loglevel") && Name("no-appendfsync-on-rewrite") && Name("notify-keyspace-events")
            && Name("pidfile") && Name("port") && Name("rdbchecksum")
  {
  }

  lemma NamesOf3()
    ensures forall k <- DEFAULTS_3 :: Name(k)
  {
    hide Name;
    Names3();
  }

  lemma ValuesOf3()
    ensures forall k <- DEFAULTS_3 :: DEFAULTS_3[k].Unset? || (DEFAULTS_3[k].Text? && Clean(DEFAULTS_3[k].s, {'\n'}))
  {
  }

  lemma PlainDefaults3()
    ensures Plain(DEFAULTS_3)
  {
    hide Name, Clean;
    NamesOf3();
    ValuesOf3();
    assert "dir" !in DEFAULTS_3;
  }

  lemma Names4()
    ensures Name("rdbcompression") && Name("repl-disable-tcp-nodelay") && Name("replica-priority")
            && Name("replica-read-only") && Name("replica-serve-stale-data")
            && Name("set-max-intset-entries") && Name("slowlog-log-slower-than") && Name("slowlog-max-len")
  {
  }

  lemma NamesOf4()
    ensures forall k <- DEFAULTS_4 :: Name(k)
  {
    hide Name;
    Names4();
  }

  lemma ValuesOf4()
    ensures forall k <- DEFAULTS_4 :: DEFAULTS_4[k].Unset? || (DEFAULTS_4[k].Text? && Clean(DEFAULTS_4[k].s, {'\n'}))
  {
  }

  lemma PlainDefaults4()
    ensures Plain(DEFAULTS_4)
  {
    hide Name, Clean;
    NamesOf4();
    ValuesOf4();
    assert "dir" !in DEFAULTS_4;
  }

  lemma Names5()
    ensures Name("stop-writes-on-bgsave-error") && Name("tcp-backlog") && Name("tcp-keepalive")
            && Name("timeout") && Name("unixsocket") && Name("unixsocketperm")
            && Name("zset-max-listpack-entries") && Name("zset-max-listpack-value")
  {
  }

  lemma NamesOf5()
    ensures forall k <- DEFAULTS_5 :: Name(k)
  {
    hide Name;
    Names5();
  }

  lemma ValuesOf5()
    ensures forall k <- DEFAULTS_5 :: DEFAULTS_5[k].Unset? || (DEFAULTS_5[k].Text? && Clean(DEFAULTS_5[k].s, {'\n'}))
  {
  }

  lemma PlainDefaults5()
    ensures Plain(DEFAULTS_5)
  {
    hide Name, Clean;
    NamesOf5();
    ValuesOf5();
    assert "dir" !in DEFAULTS_5;
  }

  lemma PlainSave()
    ensures Plain(DEFAULT_SAVE)
  {
    assert Name("save");
  }

  lemma PlainSum(a: Settings, b: Settings)
    requires Plain(a) && Plain(b)
    ensures Plain(a + b)
  {
  }

  /** The defaults are well formed and name the working directory `dbdir`, not `dir`. */
  lemma DefaultsAreWellFormed()
    ensures WellFormed(DEFAULTS)
    ensures "dir" !in DEFAULTS && "dbdir" in DEFAULTS
  {
    hide Plain;
    PlainDefaults1();
    PlainDefaults2();
    PlainDefaults3();
    PlainDefaults4();
    PlainDefaults5();
    PlainSum(DEFAULTS_1, DEFAULTS_2);
    PlainSum(DEFAULTS_1 + DEFAULTS_2, DEFAULTS_3);
    PlainSum(DEFAULTS_1 + DEFAULTS_2 + DEFAULTS_3, DEFAULTS_4);
    PlainSum(DEFAULTS_1 + DEFAULTS_2 + DEFAULTS_3 + DEFAULTS_4, DEFAULTS_5);
    PlainSave();
    PlainSum(DEFAULTS_1 + DEFAULTS_2 + DEFAULTS_3 + DEFAULTS_4 + DEFAULTS_5, DEFAULT_SAVE);
    PlainMeans(DEFAULTS);
  }

  lemma PlainMeans(m: Settings)
    requires Plain(m)
    ensures WellFormed(m) && "dir" !in m
  {
  }

  /** What is in play unless somebody says otherwise: no TCP port, a daemon, a private socket, four snapshot
      rules, no append-only file. */
  lemma DefaultsInPlay()
    ensures DEFAULTS.Keys >= {"appendonly", "appendfsync", "daemonize", "port", "unixsocketperm", "save"}
    ensures DEFAULTS["appendonly"] == Text("no") && DEFAULTS["appendfsync"] == Text("everysec")
    ensures DEFAULTS["daemonize"] == Text("yes") && DEFAULTS["port"] == Text("0")
    ensures DEFAULTS["unixsocketperm"] == Text("700")
    ensures DEFAULTS["save"] == Lines(["900 1", "300 100", "60 200", "15 1000"])
  {
    WhereTheyStand();
    hide DEFAULTS_1, DEFAULTS_2, DEFAULTS_3, DEFAULTS_4, DEFAULTS_5, DEFAULT_SAVE;
    WhereItDoesNot("appendonly");
    WhereItDoesNot("appendfsync");
    WhereItDoesNot("daemonize");
    WhereItDoesNot("port");
    WhereItDoesNot("unixsocketperm");
  }

  lemma WhereTheyStand()
    ensures DEFAULTS_1.Keys >= {"appendonly", "appendfsync"}
    ensures DEFAULTS_1["appendonly"] == Text("no") && DEFAULTS_1["appendfsync"] == Text("everysec")
    ensures "daemonize" in DEFAULTS_2 && DEFAULTS_2["daemonize"] == Text("yes")
    ensures "port" in DEFAULTS_3 && DEFAULTS_3["port"] == Text("0")
    ensures "unixsocketperm" in DEFAULTS_5 && DEFAULTS_5["unixsocketperm"] == Text("700")
    ensures DEFAULT_SAVE.Keys == {"save"}
    ensures DEFAULT_SAVE["save"] == Lines(["900 1", "300 100", "60 200", "15 1000"])
  {
  }

  lemma WhereItDoesNot(key: string)
    requires key in {"appendonly", "appendfsync", "daemonize", "port", "unixsocketperm"}
    ensures key != "save"
    ensures key in {"appendonly", "appendfsync"} ==> key !in DEFAULTS_2
    ensures key in {"appendonly", "appendfsync", "daemonize"} ==> key !in DEFAULTS_3
    ensures key != "unixsocketperm" ==> key !in DEFAULTS_4 && key !in DEFAULTS_5
  {
  }

  // ---- Merging, as functions ----

  /** Overrides onto a base: None removes, anything else replaces. */
  function Apply(base: Settings, overrides: Settings): Settings {
    map k | k in base.Keys + overrides.Keys && (k in overrides ==> !overrides[k].Unset?) ::
      if k in overrides then overrides[k] else base[k]
  }

  /** `dbdir` becomes `dir`, unless `dir` is there already. */
  function Placed(m: Settings): Settings {
    if "dir" in m then m - {"dbdir"}
    else if "dbdir" in m then (m - {"dbdir"})["dir" := m["dbdir"]]
    else m
  }

  /** The text that `config` returns. */
  ghost function ConfigText(base: Settings, overrides: Settings): string {
    Render(Placed(Apply(base, overrides)))
  }

  // ---- Python's mutable dicts and lists ----

  class StringList {
    var items: seq<string>

    constructor (items: seq<string>)
      ensures this.items == items
    {
      this.items := items;
    }
  }

  datatype Value = Null | Str(s: string) | ListOf(l: StringList)

  class Dict {
    var keys: seq<string>          // in insertion order
    var vals: map<string, Value>

    constructor ()
      ensures Valid() && vals == map[]
    {
      keys, vals := [], map[];
    }

    ghost predicate Valid()
      reads this
    {
      Elements(keys) == vals.Keys
    }

    function Lists(): set<StringList>
      reads this
    {
      set k | k in vals && vals[k].ListOf? :: vals[k].l
    }

    /** The settings this dict holds. */
    ghost function Pure(): Settings
      reads this, Lists()
    {
      map k | k in vals :: Purified(vals[k])
    }

    method Put(key: string, value: Value)
      requires Valid()
      modifies this
      ensures Valid() && vals == old(vals)[key := value]
      ensures Pure() == old(Pure())[key := Purified(value)]
    {
      if key !in vals {
        keys := keys + [key];
      }
      vals := vals[key := value];
    }

    /** dict.pop(key, None). */
    method Pop(key: string)
      requires Valid()
      modifies this
      ensures Valid() && vals == old(vals) - {key}
      ensures Pure() == old(Pure()) - {key}
    {
      keys := Others(keys, key);
      vals := vals - {key};
    }
  }

  /** All keys but one, in the same order. */
  function Others(keys: seq<string>, key: string): (r: seq<string>)
    ensures Elements(r) == Elements(keys) - {key}
  {
    if keys == [] then [] else
    assert keys == [keys[0]] + keys[1..];
    var r := Others(keys[1..], key);
    assert Elements([keys[0]] + r) == {keys[0]} + Elements(r);
    if keys[0] == key then r else [keys[0]] + r
  }

  function Purified(v: Value): Setting
    reads if v.ListOf? then {v.l} else {}
  {
    match v
    case Null => Unset
    case Str(s) => Text(s)
    case ListOf(l) => Lines(l.items)
  }

  /** The settings under the first keys. */
  function Front(m: Settings, keys: seq<string>, i: nat): Settings
    requires i <= |keys|
  {
    map k | k in m && k in Elements(keys[..i]) :: m[k]
  }

  lemma FrontEnds(m: Settings, keys: seq<string>)
    requires Elements(keys) == m.Keys
    ensures Front(m, keys, 0) == map[] && Front(m, keys, |keys|) == m
  {
    assert keys[..|keys|] == keys;
  }

  lemma FrontStep(m: Settings, keys: seq<string>, i: nat)
    requires Elements(keys) == m.Keys && i < |keys|
    ensures keys[i] in m
    ensures Front(m, keys, i + 1) == Front(m, keys, i)[keys[i] := m[keys[i]]]
  {
    assert keys[i] in Elements(keys);
    assert keys[..i + 1] == keys[..i] + [keys[i]];
  }

  /** copy.deepcopy: a new dict whose lists are new too. */
  method DeepCopy(d: Dict) returns (c: Dict)
    requires d.Valid()
    ensures c.Valid() && fresh(c)
    ensures forall k <- c.vals :: c.vals[k].ListOf? ==> fresh(c.vals[k].l)
    ensures c.Pure() == old(d.Pure())
  {
    hide Front, Elements;
    ghost var m := d.Pure();
    FrontEnds(m, d.keys);
    c := new Dict();
    for i := 0 to |d.keys|
      invariant c.Valid() && fresh(c) && d.Pure() == m
      invariant forall k <- c.vals :: c.vals[k].ListOf? ==> fresh(c.vals[k].l)
      invariant c.Pure() == Front(m, d.keys, i)
    {
      FrontStep(m, d.keys, i);
      PutCopy(c, d.keys[i], d.vals[d.keys[i]]);
    }
  }

  /** One entry of the copy; a list is copied too. */
  method PutCopy(c: Dict, key: string, v: Value)
    requires c.Valid()
    modifies c
    ensures c.Valid() && c.Pure() == old(c.Pure())[key := old(Purified(v))]
    ensures c.vals.Keys == old(c.vals.Keys) + {key}
    ensures forall k <- old(c.vals) :: k != key ==> c.vals[k] == old(c.vals[k])
    ensures c.vals[key].ListOf? ==> fresh(c.vals[key].l)
  {
    if v.ListOf? {
      var l := new StringList(v.l.items);
      c.Put(key, ListOf(l));
    } else {
      c.Put(key, v);
    }
  }

  /** `settings`: the overrides merged onto a deep copy of the defaults. Nothing that existed before is
      changed, and the result shares no list with the defaults; lists of the overrides are shared. */
  method Merge(defaults: Dict, overrides: Dict) returns (merged: Dict)
    requires defaults.Valid() && overrides.Valid()
    ensures merged.Valid() && fresh(merged)
    ensures merged.Pure() == Apply(old(defaults.Pure()), old(overrides.Pure()))
    ensures forall k <- merged.vals :: merged.vals[k].ListOf? ==>
              fresh(merged.vals[k].l) || (k in overrides.vals && merged.vals[k] == overrides.vals[k])
  {
    hide Front, Elements, Apply;
    ghost var base, m := defaults.Pure(), overrides.Pure();
    FrontEnds(m, overrides.keys);
    ApplyNothing(base);
    merged := DeepCopy(defaults);
    for i := 0 to |overrides.keys|
      invariant merged.Valid() && fresh(merged) && overrides.Pure() == m
      invariant forall k <- merged.vals :: merged.vals[k].ListOf? ==>
                  fresh(merged.vals[k].l) || (k in overrides.vals && merged.vals[k] == overrides.vals[k])
      invariant merged.Pure() == Apply(base, Front(m, overrides.keys, i))
    {
      MergeStep(base, m, overrides.keys, i);
      var key := overrides.keys[i];
      Override(merged, key, overrides.vals[key]);
    }
  }

  /** One more override. */
  lemma MergeStep(base: Settings, m: Settings, keys: seq<string>, i: nat)
    requires Elements(keys) == m.Keys && i < |keys|
    ensures keys[i] in m
    ensures var before := Apply(base, Front(m, keys, i));
            Apply(base, Front(m, keys, i + 1)) ==
              if m[keys[i]].Unset? then before - {keys[i]} else before[keys[i] := m[keys[i]]]
  {
    hide Apply, Front;
    FrontStep(m, keys, i);
    ApplyOneMore(base, Front(m, keys, i), keys[i], m[keys[i]]);
  }

  /** One override: None removes the directive. */
  method Override(merged: Dict, key: string, value: Value)
    requires merged.Valid()
    modifies merged
    ensures merged.Valid()
    ensures merged.vals == if value.Null? then old(merged.vals) - {key} else old(merged.vals)[key := value]
    ensures merged.Pure() == if Purified(value).Unset? then old(merged.Pure()) - {key}
                             else old(merged.Pure())[key := Purified(value)]
  {
    if value.Null? {
      merged.Pop(key);
    } else {
      merged.Put(key, value);
    }
  }

  lemma ApplyNothing(base: Settings)
    ensures Apply(base, map[]) == base
  {
  }

  lemma ApplyOneMore(base: Settings, overrides: Settings, key: string, v: Setting)
    ensures Apply(base, overrides[key := v])
            == if v.Unset? then Apply(base, overrides) - {key} else Apply(base, overrides)[key := v]
  {
  }

  /** `config`: the rendered text; the defaults, the overrides and every list stay as they are. */
  method Config(defaults: Dict, overrides: Dict) returns (text: string)
    requires defaults.Valid() && overrides.Valid()
    ensures text == ConfigText(old(defaults.Pure()), old(overrides.Pure()))
  {
    hide Apply, Placed, Render;
    var dict := Merge(defaults, overrides);
    PlaceDir(dict);
    text := RenderDict(dict);
  }

  /** An explicit `dir` wins; otherwise `dbdir` is mapped onto it. */
  method PlaceDir(dict: Dict)
    requires dict.Valid()
    modifies dict
    ensures dict.Valid() && dict.Pure() == Placed(old(dict.Pure()))
  {
    if "dir" in dict.vals {
      dict.Pop("dbdir");
    } else if "dbdir" in dict.vals {
      var dbdir := dict.vals["dbdir"];
      dict.Pop("dbdir");
      dict.Put("dir", dbdir);
    }
  }

  /** The sorted directive lines, one per list element; empty values are skipped. */
  method RenderDict(dict: Dict) returns (text: string)
    requires dict.Valid()
    ensures text == Render(old(dict.Pure()))
  {
    hide AllLines, Sorted, KeyLines, Render, Join;
    var keys := Sort(dict.keys);
    ghost var m := dict.Pure();
    var lines := [];
    assert lines == AllLines(m, keys[..0]) by {
      NoLines(m);
    }
    for i := 0 to |keys|
      invariant Elements(keys[..i]) <= m.Keys
      invariant lines == AllLines(m, keys[..i])
    {
      var key := keys[i];
      assert key in Elements(keys);
      LinesStep(m, keys, i);
      var more := RenderValue(key, dict.vals[key]);
      lines := lines + more;
    }
    assert keys[..|keys|] == keys;
    RenderedFrom(m, keys);
    text := Join(lines) + "\n";
  }

  /** Any sorted enumeration of the directives will do. */
  lemma RenderedFrom(m: Settings, keys: seq<string>)
    requires Sorted(keys) && Elements(keys) == m.Keys
    ensures Join(AllLines(m, keys)) + "\n" == Render(m)
  {
    SortedIsUnique(keys, SortedKeys(m.Keys));
  }

  lemma NoLines(m: Settings)
    ensures Elements([]) <= m.Keys && AllLines(m, []) == []
  {
  }

  lemma LinesStep(m: Settings, keys: seq<string>, i: nat)
    requires i < |keys| && Elements(keys) <= m.Keys
    ensures keys[i] in m && Elements(keys[..i]) <= m.Keys && Elements(keys[..i + 1]) <= m.Keys
    ensures AllLines(m, keys[..i + 1]) == AllLines(m, keys[..i]) + KeyLines(keys[i], Values(m[keys[i]]))
  {
    assert keys[i] in Elements(keys);
    assert Elements(keys[..i + 1]) <= Elements(keys) && Elements(keys[..i]) <= Elements(keys);
    assert keys[..i + 1][..i] == keys[..i];
  }

  method RenderValue(key: string, value: Value) returns (lines: seq<string>)
    ensures lines == KeyLines(key, Values(Purified(value)))
  {
    lines := [];
    match value {
      case Null =>
      case Str(s) =>
        if s != "" {
          lines := [ConfigLine(key, s)];
          assert [s][..0] == [];
        }
      case ListOf(l) =>
        for j := 0 to |l.items|
          invariant lines == KeyLines(key, l.items[..j])
        {
          lines := lines + [ConfigLine(key, l.items[j])];
          assert l.items[..j + 1][..j] == l.items[..j];
        }
        assert l.items[..|l.items|] == l.items;
    }
  }

  /** sorted(keys). */
  function Sort(keys: seq<string>): (r: seq<string>)
    ensures Sorted(r) && Elements(r) == Elements(keys)
  {
    if keys == [] then [] else
    assert keys == [keys[0]] + keys[1..];
    InsertSorted(keys[0], Sort(keys[1..]));
    Insert(keys[0], Sort(keys[1..]))
  }

  // ---- What the text says ----

  lemma PlacedIsWellFormed(base: Settings, overrides: Settings)
    requires WellFormed(base) && WellFormed(overrides)
    ensures WellFormed(Placed(Apply(base, overrides)))
  {
    assert Name("dir") by {
      assert |"dir"| == 3;
    }
  }

  /** The setting in force for a directive other than the working directory. */
  function InForce(base: Settings, overrides: Settings, key: string): Setting {
    if key in overrides then overrides[key] else if key in base then base[key] else Unset
  }

  /** The working directory in force: an explicit `dir` that is not None, else what `dbdir` says. */
  function DirInForce(base: Settings, overrides: Settings): Setting {
    if "dir" in overrides && !overrides["dir"].Unset? then overrides["dir"] else InForce(base, overrides, "dbdir")
  }

  lemma MeaningAt(m: Settings, key: string)
    ensures Found(Meaning(m), key) == if key in m then Values(m[key]) else []
  {
  }

  lemma PlacedAt(base: Settings, overrides: Settings, key: string)
    requires "dir" !in base
    ensures var m := Placed(Apply(base, overrides));
            var v := if key == "dbdir" then Unset else if key == "dir" then DirInForce(base, overrides)
                     else InForce(base, overrides, key);
            (if key in m then Values(m[key]) else []) == Values(v)
  {
    DirIsNotDbdir();
  }

  /** Reading the text back, directive by directive: an override counts if given, None or empty values
      remove the directive, otherwise the base counts; `dbdir` never appears but as `dir`, and an
      explicit `dir` wins over it. */
  lemma ConfigReadsBack(base: Settings, overrides: Settings, key: string)
    requires WellFormed(base) && WellFormed(overrides) && "dir" !in base
    ensures Found(Parse(ConfigText(base, overrides)), key)
            == Values(if key == "dbdir" then Unset else if key == "dir" then DirInForce(base, overrides)
                      else InForce(base, overrides, key))
  {
    hide WellFormed, Parse, Render, Placed, Apply, Meaning, DirInForce, InForce;
    var m := Placed(Apply(base, overrides));
    PlacedIsWellFormed(base, overrides);
    RoundTrip(m);
    MeaningAt(m, key);
    PlacedAt(base, overrides, key);
  }

  lemma DirIsNotDbdir()
    ensures "dir" != "dbdir"
  {
    assert |"dir"| != |"dbdir"|;
  }

  /** The text depends on the settings only, not on the order in which overrides were given. */
  lemma RenderIsCanonical(keys: seq<string>, other: seq<string>, m: Settings)
    requires Elements(keys) == Elements(other) == m.Keys
    ensures Sort(keys) == Sort(other) == SortedKeys(m.Keys)
    ensures Join(AllLines(m, Sort(keys))) + "\n" == Render(m)
  {
    SortedIsUnique(Sort(keys), SortedKeys(m.Keys));
    SortedIsUnique(Sort(other), SortedKeys(m.Keys));
    RenderedFrom(m, Sort(keys));
  }
}
