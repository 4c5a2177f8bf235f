/** patch.py: putting the embedded client under the two upstream names, taking it away again, and the
    class-level database location that both names share. */
module Patch {
  import opened Wrappers
  import opened Paths

  // ---- Database locations ----

  /** The three class attributes that decide where a client opened without a path keeps its data. */
  datatype Location = Location(dbdir: Option<string>, dbfilename: string, registry: Option<string>)

  const UNSET := Location(None, "valkey.db", None)

  const SUFFIX := ".settings"

  /** os.path.abspath keeps exactly two leading slashes. */
  function Lead(dbfile: string): string {
    if |dbfile| >= 2 && dbfile[..2] == "//" && !(|dbfile| > 2 && dbfile[2] == '/') then "/" else ""
  }

  /** os.path.abspath(dbfile) in the working directory cwd. */
  function AbsPath(cwd: Components, dbfile: string): string {
    Lead(dbfile) + Str(Target(cwd, dbfile))
  }

  function DirName(lead: string, cs: Components): string {
    lead + Str(if cs == [] then [] else cs[..|cs| - 1])
  }

  function BaseName(cs: Components): string {
    if cs == [] then "" else cs[|cs| - 1]
  }

  /** os.path.join of two texts, the second not absolute. */
  function Join(dir: string, name: string): string {
    if dir != "" && dir[|dir| - 1] == '/' then dir + name else dir + "/" + name
  }

  /** A file given as "./f" is f. */
  lemma DotSlashIsSameFile(cwd: Components, dbfile: string)
    requires dbfile != "" && dbfile[0] != '/'
    ensures AbsPath(cwd, "./" + dbfile) == AbsPath(cwd, dbfile) && Locate(cwd, "./" + dbfile) == Locate(cwd, dbfile)
  {
    DotSlashIsNothing(cwd, dbfile);
  }

  /** Where a database file lives, and the registry beside it. */
  function Locate(cwd: Components, dbfile: string): Location {
    var lead, cs := Lead(dbfile), Target(cwd, dbfile);
    var dir, file := DirName(lead, cs), BaseName(cs);
    Location(Some(dir), file, Some(Join(dir, file + SUFFIX)))
  }

  lemma {:induction false} BodySnoc(cs: Components, c: string)
    ensures Body(cs + [c]) == Body(cs) + "/" + c
    decreases |cs|
  {
    if cs == [] {
      assert [c][1..] == [];
    } else {
      assert (cs + [c])[1..] == cs[1..] + [c];
      BodySnoc(cs[1..], c);
    }
  }

  /** A normal path does not end in a slash unless it is the root. */
  lemma StrEnd(cs: Components)
    requires Normal(cs) && cs != []
    ensures Str(cs) != "" && Str(cs)[|Str(cs)| - 1] != '/'
  {
    var init, last := cs[..|cs| - 1], cs[|cs| - 1];
    assert last in cs && cs == init + [last];
    BodySnoc(init, last);
  }

  lemma JoinStr(lead: string, cs: Components, name: string)
    requires Normal(cs)
    ensures Join(lead + Str(cs), name) == lead + Body(cs + [name])
  {
    BodySnoc(cs, name);
    if cs == [] {
      JoinRoot(lead, name);
    } else {
      StrEnd(cs);
      hide Body;
      JoinBelow(lead, Str(cs), name);
      assert Str(cs) == Body(cs);
    }
  }

  lemma JoinRoot(lead: string, name: string)
    ensures Join(lead + "/", name) == lead + ("/" + name)
  {
    var dir := lead + "/";
    assert dir[|dir| - 1] == '/';
  }

  lemma JoinBelow(lead: string, path: string, name: string)
    requires path != "" && path[|path| - 1] != '/'
    ensures Join(lead + path, name) == lead + (path + "/" + name)
  {
    var dir := lead + path;
    assert dir[|dir| - 1] == path[|path| - 1];
  }

  /** Directory and file name put together again are the absolute path. */
  lemma LocateSplitsThePath(cwd: Components, dbfile: string)
    ensures Join(Locate(cwd, dbfile).dbdir.value, Locate(cwd, dbfile).dbfilename) == AbsPath(cwd, dbfile)
  {
    var cs := Target(cwd, dbfile);
    TargetIsNormal(cwd, dbfile);
    if cs != [] {
      var init := cs[..|cs| - 1];
      assert cs == init + [cs[|cs| - 1]];
      assert forall c <- init :: c in cs;
      JoinStr(Lead(dbfile), init, cs[|cs| - 1]);
    } else {
      JoinStr(Lead(dbfile), [], "");
    }
  }

  /** The path of the registry, as components. */
  function RegistryOf(cs: Components): Components {
    if cs == [] then [SUFFIX] else cs[..|cs| - 1] + [cs[|cs| - 1] + SUFFIX]
  }

  lemma RegistryOfIsNormal(cs: Components)
    requires Normal(cs)
    ensures Normal(RegistryOf(cs))
  {
    var x := BaseName(cs);
    assert cs != [] ==> x in cs;
    SuffixIsPlain(x);
    assert "" + SUFFIX == SUFFIX;
    hide Plain;
    forall c | c in RegistryOf(cs) ensures Plain(c) {
      assert c == x + SUFFIX || c in cs;
    }
  }

  lemma RegistryOfSplits(cs: Components)
    ensures var r := RegistryOf(cs);
            && r != [] && r[|r| - 1] == BaseName(cs) + SUFFIX
            && cs == if BaseName(cs) == "" && |r| == 1 && cs == [] then [] else r[..|r| - 1] + [BaseName(cs)]
  {
    assert "" + SUFFIX == SUFFIX;
  }

  lemma RegistryOfIsInjective(a: Components, b: Components)
    requires Normal(a) && Normal(b) && RegistryOf(a) == RegistryOf(b)
    ensures a == b
  {
    RegistryOfSplits(a);
    RegistryOfSplits(b);
    SuffixCut(BaseName(a), BaseName(b));
    assert a != [] ==> Plain(BaseName(a)) by { assert a != [] ==> BaseName(a) in a; }
    assert b != [] ==> Plain(BaseName(b)) by { assert b != [] ==> BaseName(b) in b; }
    hide RegistryOf;
  }

  lemma SuffixIsPlain(x: string)
    requires SlashFree(x)
    ensures Plain(x + SUFFIX)
  {
    assert SlashFree(SUFFIX);
  }

  lemma SuffixCut(x: string, y: string)
    ensures x + SUFFIX == y + SUFFIX ==> x == y
  {
    assert (x + SUFFIX)[..|x + SUFFIX| - |SUFFIX|] == x;
    assert (y + SUFFIX)[..|y + SUFFIX| - |SUFFIX|] == y;
  }

  lemma LocateRegistry(cwd: Components, dbfile: string)
    ensures Locate(cwd, dbfile).registry == Some(Lead(dbfile) + Body(RegistryOf(Target(cwd, dbfile))))
  {
    var cs := Target(cwd, dbfile);
    TargetIsNormal(cwd, dbfile);
    if cs != [] {
      var init := cs[..|cs| - 1];
      assert forall c <- init :: c in cs;
      JoinStr(Lead(dbfile), init, cs[|cs| - 1] + SUFFIX);
    } else {
      JoinStr(Lead(dbfile), [], SUFFIX);
      assert "" + SUFFIX == SUFFIX;
    }
  }

  /** The registry is the database file's absolute path with ".settings" behind it. */
  lemma RegistryIsPathWithSuffix(cwd: Components, dbfile: string)
    ensures Locate(cwd, dbfile).registry == Some(AbsPath(cwd, dbfile) + ".settings")
  {
    var lead, cs := Lead(dbfile), Target(cwd, dbfile);
    LocateRegistry(cwd, dbfile);
    hide Target, Lead, Locate;
    if cs == [] {
      assert Body([SUFFIX]) == "/" + SUFFIX;
      assert lead + ("/" + SUFFIX) == lead + "/" + SUFFIX;
    } else {
      var init, last := cs[..|cs| - 1], cs[|cs| - 1];
      assert cs == init + [last];
      BodySnoc(init, last);
      BodySnoc(init, last + SUFFIX);
      hide Body;
      assert lead + (Body(init) + "/" + (last + SUFFIX)) == lead + (Body(init) + "/" + last) + SUFFIX;
    }
  }

  /** A kept second slash cannot be mistaken for a component. */
  lemma LeadIsVisible(x: string, a: Components, y: string, b: Components)
    requires x in {"", "/"} && y in {"", "/"} && Normal(a) && Normal(b)
    requires x + Str(a) == y + Str(b)
    ensures x == y && Str(a) == Str(b)
  {
    assert a != [] ==> a[0] in a;
    assert b != [] ==> b[0] in b;
    var s := x + Str(a);
    assert x == "/" ==> |s| > 1 && s[1] == '/';
    assert x == "" ==> !(|s| > 1 && s[1] == '/');
    assert y == "/" ==> |s| > 1 && s[1] == '/';
    assert y == "" ==> !(|s| > 1 && s[1] == '/');
    assert Str(a) == s[|x|..] && Str(b) == s[|y|..];
  }

  lemma StrIsInjective(a: Components, b: Components)
    requires Normal(a) && Normal(b) && Str(a) == Str(b)
    ensures a == b
  {
    ResolveRoundTrip(a);
    ResolveRoundTrip(b);
  }

  /** Two database arguments, from any two working directories, meet at one registry file exactly when
      they name the same absolute path; then the whole location is the same. */
  lemma SameRegistryIffSamePath(cwd: Components, f: string, dir: Components, g: string)
    ensures Locate(cwd, f).registry == Locate(dir, g).registry <==> AbsPath(cwd, f) == AbsPath(dir, g)
    ensures Locate(cwd, f).registry == Locate(dir, g).registry <==> Locate(cwd, f) == Locate(dir, g)
  {
    hide Lead, Target, Locate, Str, Body;
    var a, b := Target(cwd, f), Target(dir, g);
    TargetIsNormal(cwd, f);
    TargetIsNormal(dir, g);
    LeadCases(f);
    LeadCases(g);
    LocateRegistry(cwd, f);
    LocateRegistry(dir, g);
    RegistryOfIsNormal(a);
    RegistryOfIsNormal(b);
    LocateDepends(cwd, f, dir, g);
    if AbsPath(cwd, f) == AbsPath(dir, g) {
      LeadIsVisible(Lead(f), a, Lead(g), b);
      StrIsInjective(a, b);
    }
    if Locate(cwd, f).registry == Locate(dir, g).registry {
      BodyIsStr(RegistryOf(a));
      BodyIsStr(RegistryOf(b));
      LeadIsVisible(Lead(f), RegistryOf(a), Lead(g), RegistryOf(b));
      StrIsInjective(RegistryOf(a), RegistryOf(b));
      RegistryOfIsInjective(a, b);
    }
  }

  lemma LeadCases(f: string)
    ensures Lead(f) in {"", "/"}
  {
  }

  lemma BodyIsStr(cs: Components)
    requires cs != []
    ensures Body(cs) == Str(cs)
  {
  }

  lemma LocateDepends(cwd: Components, f: string, dir: Components, g: string)
    ensures Lead(f) == Lead(g) && Target(cwd, f) == Target(dir, g) ==>
              Locate(cwd, f) == Locate(dir, g) && AbsPath(cwd, f) == AbsPath(dir, g)
  {
  }

  // ---- The two names ----

  /** A class object: the embedded client, or some other class. */
  datatype Class = Embedded | Upstream(id: nat)

  datatype Name = VALKEY | STRICT

  /** What patch.py knows about one name, and what the upstream module exports under it. */
  datatype Slot = Slot(original: Option<Class>, patched: bool, exported: Class)

  datatype State = State(valkey: Slot, strict: Slot, location: Location) {
    function At(name: Name): Slot {
      match name
      case VALKEY => valkey
      case STRICT => strict
    }

    function With(name: Name, slot: Slot): State {
      match name
      case VALKEY => this.(valkey := slot)
      case STRICT => this.(strict := slot)
    }
  }

  /** The six functions; `both` are the two that call the others in turn. */
  datatype Call =
    | PatchOne(name: Name, dbfile: Option<string>, cwd: Components)
    | UnpatchOne(name: Name)
    | PatchBoth(dbfile: Option<string>, cwd: Components)
    | UnpatchBoth

  /** None and "" leave the location alone. */
  predicate Truthy(dbfile: Option<string>) {
    dbfile.Some? && dbfile.value != ""
  }

  function Patched(s: State, name: Name, dbfile: Option<string>, cwd: Components): State {
    var slot := s.At(name);
    if slot.patched then s else
    s.With(name, Slot(Some(slot.exported), true, Embedded))
      .(location := if Truthy(dbfile) then Locate(cwd, dbfile.value) else s.location)
  }

  function Unpatched(s: State, name: Name): State {
    var slot := s.At(name);
    var exported := if slot.original.Some? then slot.original.value else slot.exported;
    s.With(name, Slot(None, false, exported))
  }

  function Apply(s: State, call: Call): State {
    match call
    case PatchOne(name, dbfile, cwd) => Patched(s, name, dbfile, cwd)
    case UnpatchOne(name) => Unpatched(s, name)
    case PatchBoth(dbfile, cwd) => Patched(Patched(s, VALKEY, dbfile, cwd), STRICT, dbfile, cwd)
    case UnpatchBoth => Unpatched(Unpatched(s, VALKEY), STRICT)
  }

  /** The module dicts, the two exported names and the class attributes of the embedded client. */
  class Patching {
    var originals: map<Name, Option<Class>>
    var patched: map<Name, bool>
    var exported: map<Name, Class>
    var dbdir: Option<string>
    var dbfilename: string
    var registry: Option<string>

    ghost predicate Valid()
      reads this
    {
      originals.Keys == patched.Keys == exported.Keys == {VALKEY, STRICT}
    }

    ghost function SlotNow(n: Name): Slot
      reads this
      requires Valid()
    {
      assert n.VALKEY? || n.STRICT?;
      Slot(originals[n], patched[n], exported[n])
    }

    ghost function Now(): State
      reads this
      requires Valid()
    {
      State(SlotNow(VALKEY), SlotNow(STRICT), Location(dbdir, dbfilename, registry))
    }

    constructor (valkey: Class, strict: Class)
      ensures Valid()
      ensures Now() == State(Slot(None, false, valkey), Slot(None, false, strict), UNSET)
    {
      originals := map[VALKEY := None, STRICT := None];
      patched := map[VALKEY := false, STRICT := false];
      exported := map[VALKEY := valkey, STRICT := strict];
      dbdir, dbfilename, registry := None, "valkey.db", None;
    }

    /** `_apply_dbfile`. */
    method ApplyDbfile(dbfile: string, cwd: Components)
      requires Valid()
      modifies this`dbdir, this`dbfilename, this`registry
      ensures Valid() && Now() == old(Now()).(location := Locate(cwd, dbfile))
    {
      var lead, cs := Lead(dbfile), Target(cwd, dbfile);
      var dir := DirName(lead, cs);
      dbdir := Some(dir);
      dbfilename := BaseName(cs);
      registry := Some(Join(dir, dbfilename + SUFFIX));
    }

    /** `patch_valkey_Valkey` and `patch_valkey_StrictValkey`. */
    method PatchName(name: Name, dbfile: Option<string>, cwd: Components)
      requires Valid()
      modifies this
      ensures Valid() && Now() == Patched(old(Now()), name, dbfile, cwd)
    {
      if patched[name] {
        return;
      }
      if Truthy(dbfile) {
        ApplyDbfile(dbfile.value, cwd);
      }
      originals := originals[name := Some(exported[name])];
      exported := exported[name := Embedded];
      patched := patched[name := true];
    }

    /** `unpatch_valkey_Valkey` and `unpatch_valkey_StrictValkey`. */
    method UnpatchName(name: Name)
      requires Valid()
      modifies this
      ensures Valid() && Now() == Unpatched(old(Now()), name)
    {
      if originals[name].Some? {
        exported := exported[name := originals[name].value];
        originals := originals[name := None];
      }
      patched := patched[name := false];
    }

    /** `patch_valkey`. */
    method PatchValkey(dbfile: Option<string>, cwd: Components)
      requires Valid()
      modifies this
      ensures Valid() && Now() == Apply(old(Now()), PatchBoth(dbfile, cwd))
    {
      PatchName(VALKEY, dbfile, cwd);
      PatchName(STRICT, dbfile, cwd);
    }

    /** `unpatch_valkey`. */
    method UnpatchValkey()
      requires Valid()
      modifies this
      ensures Valid() && Now() == Apply(old(Now()), UnpatchBoth)
    {
      UnpatchName(VALKEY);
      UnpatchName(STRICT);
    }
  }

  // ---- Whole runs ----

  function After(s: State, calls: seq<Call>): State {
    if calls == [] then s else Apply(After(s, calls[..|calls| - 1]), calls[|calls| - 1])
  }

  /** The state in which the module is imported. */
  predicate Fresh(s: State) {
    forall n: Name :: s.At(n).original.None? && !s.At(n).patched
  }

  predicate Patches(call: Call, name: Name) {
    call.PatchBoth? || (call.PatchOne? && call.name == name)
  }

  predicate Unpatches(call: Call, name: Name) {
    call.UnpatchBoth? || (call.UnpatchOne? && call.name == name)
  }

  /** The last call that concerns this name patches it. */
  predicate Marked(calls: seq<Call>, name: Name) {
    calls != [] &&
    var last := calls[|calls| - 1];
    Patches(last, name) || (!Unpatches(last, name) && Marked(calls[..|calls| - 1], name))
  }

  /** Call number i patches some name that was not marked, and gives a database file. */
  predicate Relocates(calls: seq<Call>, i: nat)
    requires i < |calls|
  {
    && (calls[i].PatchOne? || calls[i].PatchBoth?)
    && Truthy(calls[i].dbfile)
    && exists n: Name :: Patches(calls[i], n) && !Marked(calls[..i], n)
  }

  /** What each name must hold after the calls. */
  ghost predicate NamesAgree(s0: State, calls: seq<Call>, s: State)
  {
    forall n: Name :: s.At(n) ==
      if Marked(calls, n) then Slot(Some(s0.At(n).exported), true, Embedded)
      else Slot(None, false, s0.At(n).exported)
  }

  lemma {:induction false} NamesFollowMarks(s0: State, calls: seq<Call>)
    requires Fresh(s0)
    ensures NamesAgree(s0, calls, After(s0, calls))
    decreases |calls|
  {
    if calls == [] {
    } else {
      NamesFollowMarks(s0, calls[..|calls| - 1]);
    }
  }

  /** The location is the one given by call number i, and no later call relocates. */
  predicate LastRelocation(calls: seq<Call>, i: nat) {
    i < |calls| && Relocates(calls, i) && forall j: nat :: i < j < |calls| ==> !Relocates(calls, j)
  }

  predicate NoRelocation(calls: seq<Call>) {
    forall j: nat :: j < |calls| ==> !Relocates(calls, j)
  }

  lemma RelocatesInPrefix(calls: seq<Call>, i: nat)
    requires i + 1 < |calls|
    ensures Relocates(calls[..|calls| - 1], i) == Relocates(calls, i)
  {
    assert calls[..|calls| - 1][..i] == calls[..i];
  }

  /** One call changes the location exactly if it relocates. */
  lemma LocationStep(s0: State, calls: seq<Call>)
    requires Fresh(s0) && calls != []
    ensures After(s0, calls).location ==
              if Relocates(calls, |calls| - 1) then Locate(calls[|calls| - 1].cwd, calls[|calls| - 1].dbfile.value)
              else After(s0, calls[..|calls| - 1]).location
  {
    NamesFollowMarks(s0, calls[..|calls| - 1]);
    hide After, Locate;
    var last := calls[|calls| - 1];
    var s := After(s0, calls[..|calls| - 1]);
    AfterLast(s0, calls);
    assert forall n: Name :: s.At(n).patched == Marked(calls[..|calls| - 1], n);
    if last.PatchBoth? {
      assert Patches(last, VALKEY) && Patches(last, STRICT);
    } else if last.PatchOne? {
      assert Patches(last, last.name);
    }
  }

  lemma AfterLast(s0: State, calls: seq<Call>)
    requires calls != []
    ensures After(s0, calls) == Apply(After(s0, calls[..|calls| - 1]), calls[|calls| - 1])
  {
  }

  lemma {:induction false} LocationIsLastRelocation(s0: State, calls: seq<Call>)
    requires Fresh(s0)
    ensures NoRelocation(calls) ==> After(s0, calls).location == s0.location
    ensures forall i: nat :: LastRelocation(calls, i) ==>
              After(s0, calls).location == Locate(calls[i].cwd, calls[i].dbfile.value)
    decreases |calls|
  {
    if calls == [] {
      hide Locate, Relocates;
    } else {
      hide After, Locate, Relocates, LastRelocation, NoRelocation;
      LocationIsLastRelocation(s0, calls[..|calls| - 1]);
      LocationStep(s0, calls);
      OneMoreCall(calls);
    }
  }

  lemma OneMoreCall(calls: seq<Call>)
    requires calls != []
    ensures var init, n := calls[..|calls| - 1], |calls| - 1;
            && (NoRelocation(calls) <==> NoRelocation(init) && !Relocates(calls, n))
            && (forall i: nat :: LastRelocation(calls, i) <==>
                  if i == n then Relocates(calls, n) else LastRelocation(init, i) && !Relocates(calls, n))
            && (forall i: nat :: LastRelocation(init, i) ==> i < n && init[i] == calls[i])
  {
    var init := calls[..|calls| - 1];
    forall i: nat | i < |init| ensures Relocates(init, i) == Relocates(calls, i) {
      RelocatesInPrefix(calls, i);
    }
    hide Relocates;
  }

  /** Every run either never relocates or has exactly one last relocation. */
  lemma {:induction false} SomeLastRelocation(calls: seq<Call>, upTo: nat) returns (last: Option<nat>)
    requires upTo <= |calls|
    ensures last.None? ==> forall j: nat :: j < upTo ==> !Relocates(calls, j)
    ensures last.Some? ==> last.value < upTo && Relocates(calls, last.value)
                           && forall j: nat :: last.value < j < upTo ==> !Relocates(calls, j)
  {
    if upTo == 0 {
      last := None;
    } else if Relocates(calls, upTo - 1) {
      last := Some(upTo - 1);
    } else {
      last := SomeLastRelocation(calls, upTo - 1);
    }
  }

  /** After any sequence of the six calls: a name exports the embedded client if the last call that
      concerns it is a patch, and otherwise the very class it exported at first; the two private dicts
      say the same. The class-level location is that of the last call that patched a name not yet
      patched and gave a database file, through either name; no unpatching ever takes it back. */
  lemma EveryPatchRun(s0: State, calls: seq<Call>)
    requires Fresh(s0)
    ensures NamesAgree(s0, calls, After(s0, calls))
    ensures if NoRelocation(calls) then After(s0, calls).location == s0.location
            else exists i: nat :: LastRelocation(calls, i)
                   && After(s0, calls).location == Locate(calls[i].cwd, calls[i].dbfile.value)
  {
    NamesFollowMarks(s0, calls);
    LocationIsLastRelocation(s0, calls);
    var last := SomeLastRelocation(calls, |calls|);
    if last.Some? {
      assert LastRelocation(calls, last.value);
    }
  }

  /** `unpatch_valkey` after any run restores what both names exported at first. It restores the whole
      state exactly if no call of the run relocated. */
  lemma UnpatchRestores(s0: State, calls: seq<Call>)
    requires Fresh(s0) && s0.location == UNSET
    ensures After(s0, calls + [UnpatchBoth]).At(VALKEY) == s0.At(VALKEY)
    ensures After(s0, calls + [UnpatchBoth]).At(STRICT) == s0.At(STRICT)
    ensures After(s0, calls + [UnpatchBoth]) == s0 <==> NoRelocation(calls)
  {
    var all := calls + [UnpatchBoth];
    assert all[..|all| - 1] == calls;
    EveryPatchRun(s0, all);
    EveryPatchRun(s0, calls);
    LocationStep(s0, all);
  }

  // ---- What a client opened under a patched name gets ----

  /** How a constructor call turns out for its database: some other class handles it, a private server,
      or the shared server of a registry file. */
  datatype Opened = Elsewhere | Isolated | Shared(location: Location)

  /** `ValkeyMixin.__init__`, lines that resolve the persistence target: the argument, else the class
      attributes. */
  function Open(s: State, name: Name, arg: Option<string>, cwd: Components): Opened
  {
    if s.At(name).exported != Embedded then Elsewhere
    else if Truthy(arg) then Shared(Locate(cwd, arg.value))
    else if s.location.registry.None? then Isolated
    else Shared(s.location)
  }

  /** Opening without a path, after any run from a fresh import of an upstream that is not the embedded
      client: the embedded client answers exactly under a marked name, and its server is private
      exactly if no call of the whole run relocated. */
  lemma OpenWithoutPath(s0: State, calls: seq<Call>, name: Name, cwd: Components)
    requires Fresh(s0) && s0.location == UNSET && s0.At(name).exported != Embedded
    ensures Open(After(s0, calls), name, None, cwd).Elsewhere? <==> !Marked(calls, name)
    ensures Open(After(s0, calls), name, None, cwd).Isolated? <==> Marked(calls, name) && NoRelocation(calls)
  {
    EveryPatchRun(s0, calls);
  }

  /** A client opened under a patched name with a path gets the database of that path, wherever patching has
      put the class-level location; without a path, or with an empty one, it gets the file of the last call
      that moved that location. */
  lemma AnExplicitPathWins(s0: State, calls: seq<Call>, name: Name, arg: Option<string>, cwd: Components)
    requires Fresh(s0) && s0.location == UNSET && Marked(calls, name)
    ensures arg.Some? && arg.value != "" ==> Open(After(s0, calls), name, arg, cwd) == Shared(Locate(cwd, arg.value))
    ensures arg.None? || arg.value == "" ==>
              forall i: nat :: LastRelocation(calls, i) ==>
                Open(After(s0, calls), name, arg, cwd) == Shared(Locate(calls[i].cwd, calls[i].dbfile.value))
  {
    hide Locate;
    NamesFollowMarks(s0, calls);
    LocationIsLastRelocation(s0, calls);
    forall i: nat | LastRelocation(calls, i) ensures Locate(calls[i].cwd, calls[i].dbfile.value).registry.Some? {
      LocateHasRegistry(calls[i].cwd, calls[i].dbfile.value);
    }
  }

  /** Patching one name moves the database under the other, patched name exactly when the first was not
      patched yet and the file given is another one. */
  lemma PatchingOneNameMovesTheOther(s0: State, calls: seq<Call>, cwd: Components, name: Name, other: Name,
                                     dbfile: string)
    requires Fresh(s0) && s0.location == UNSET && name != other && Marked(calls, other) && dbfile != ""
    ensures var s, t := After(s0, calls), After(s0, calls + [PatchOne(name, Some(dbfile), cwd)]);
            Open(t, other, None, cwd) != Open(s, other, None, cwd) <==>
              !Marked(calls, name) && s.location.registry != Locate(cwd, dbfile).registry
  {
    hide Locate, LastRelocation, NoRelocation, Relocates;
    var all := calls + [PatchOne(name, Some(dbfile), cwd)];
    assert all[..|all| - 1] == calls;
    NamesFollowMarks(s0, calls);
    AfterLast(s0, all);
    hide After, Marked;
    LocatedByRegistry(s0, calls, cwd, dbfile);
    LocateHasRegistry(cwd, dbfile);
  }

  /** A location that was ever set is determined by its registry file. */
  lemma LocatedByRegistry(s0: State, calls: seq<Call>, cwd: Components, dbfile: string)
    requires Fresh(s0) && s0.location == UNSET
    ensures var l := After(s0, calls).location;
            l == UNSET || (l.registry == Locate(cwd, dbfile).registry ==> l == Locate(cwd, dbfile))
  {
    EveryPatchRun(s0, calls);
    hide After, Locate;
    var s := After(s0, calls);
    if !NoRelocation(calls) {
      var i: nat :| LastRelocation(calls, i) && s.location == Locate(calls[i].cwd, calls[i].dbfile.value);
      SameRegistryIffSamePath(calls[i].cwd, calls[i].dbfile.value, cwd, dbfile);
    }
  }

  lemma LocateHasRegistry(cwd: Components, dbfile: string)
    ensures Locate(cwd, dbfile).registry.Some?
  {
  }
}
