/** connect() and its durability presets, followed through `_start_server` into the generated
    valkey.conf. */
module Connecting {
  import opened Wrappers
  import opened ConfText
  import opened Configuration
  import opened HostWorld
  import opened Lifecycle
  import opened Guarantees

  /** The `durable` argument: falsy, True, "everysec", "always", or anything else. */
  datatype Durable = Off | On | Everysec | Always | Other

  datatype ConnectError = NeedsPath | BadDurable | DuplicateKey

  /** _DURABLE_PRESETS. */
  function Preset(d: Durable): Option<Settings> {
    match d
    case On => Some(map["appendonly" := Text("yes"), "appendfsync" := Text("everysec")])
    case Everysec => Some(map["appendonly" := Text("yes"), "appendfsync" := Text("everysec")])
    case Always => Some(map["appendonly" := Text("yes"), "appendfsync" := Text("always")])
    case _ => None
  }

  /** The serverconfig that connect passes on: the preset updated with the explicit one. */
  function ServerConfig(path: Option<string>, durable: Durable, explicit: Settings): Result<Settings, ConnectError> {
    if durable.Off? then Success(explicit)
    else if path.None? then Failure(NeedsPath)
    else match Preset(durable)
      case None => Failure(BadDurable)
      case Some(preset) => Success(preset + explicit)
  }

  /** The paths that `_start_server` passes as keyword arguments. */
  function InstanceKeys(dbdir: string, dbfilename: string, socket: string, pidfile: string, logfile: string): Settings {
    map["dbdir" := Text(dbdir), "dbfilename" := Text(dbfilename), "unixsocket" := Text(socket),
        "pidfile" := Text(pidfile), "logfile" := Text(logfile)]
  }

  const INSTANCE_KEYS := {"dbdir", "dbfilename", "unixsocket", "pidfile", "logfile"}

  /** Keyword arguments joined with the unpacked server config: a key given twice is a TypeError. */
  function StartOverrides(instance: Settings, server: Settings): Result<Settings, ConnectError> {
    if instance.Keys !! server.Keys then Success(instance + server) else Failure(DuplicateKey)
  }

  /** Which of the four sources settles a directive. */
  function Winner(instance: Settings, durable: Durable, explicit: Settings, key: string): Setting {
    if key in explicit then explicit[key]
    else if Preset(durable).Some? && key in Preset(durable).value then Preset(durable).value[key]
    else if key in instance then instance[key]
    else if key in DEFAULTS then DEFAULTS[key]
    else Unset
  }

  /** Precedence, end to end: for every durability that connect accepts and every explicit
      configuration that does not repeat an instance path, the generated file starts the server with
      each directive taken from the explicit configuration if it mentions it, else from the durability
      preset, else from the instance paths, else from the defaults; the working directory is an explicit
      `dir`, else the instance's database directory. Paths contain no newline. */
  lemma PrecedenceEndToEnd(path: Option<string>, durable: Durable, explicit: Settings, key: string,
                           dbdir: string, dbfilename: string, socket: string, pidfile: string, logfile: string)
    requires WellFormed(explicit) && explicit.Keys !! INSTANCE_KEYS && ServerConfig(path, durable, explicit).Success?
    requires forall p <- [dbdir, dbfilename, socket, pidfile, logfile] :: Clean(p, {'\n'})
    ensures var instance := InstanceKeys(dbdir, dbfilename, socket, pidfile, logfile);
            var started := StartOverrides(instance, ServerConfig(path, durable, explicit).value);
            && started.Success?
            && Found(Parse(ConfigText(DEFAULTS, started.value)), key)
               == Values(if key == "dbdir" then Unset
                         else if key == "dir" then
                           if "dir" in explicit && !explicit["dir"].Unset? then explicit["dir"] else Text(dbdir)
                         else Winner(instance, durable, explicit, key))
  {
    hide ConfigText, Parse, WellFormed, DEFAULTS, InstanceKeys;
    var instance := InstanceKeys(dbdir, dbfilename, socket, pidfile, logfile);
    InstanceIsWellFormed(dbdir, dbfilename, socket, pidfile, logfile);
    var server := ServerConfig(path, durable, explicit).value;
    ServerKeys(path, durable, explicit);
    ServerIsWellFormed(path, durable, explicit);
    DefaultsAreWellFormed();
    SumIsWellFormed(instance, server);
    ConfigReadsBack(DEFAULTS, instance + server, key);
    WinnerIsInForce(instance, path, durable, explicit, key);
    WinnerIsInForce(instance, path, durable, explicit, "dir");
  }

  lemma InstanceNames()
    ensures forall k <- INSTANCE_KEYS :: Name(k)
    ensures "dir" !in INSTANCE_KEYS && "appendonly" !in INSTANCE_KEYS && "appendfsync" !in INSTANCE_KEYS
  {
    assert |"dir"| == 3 && |"dbdir"| == 5 && |"dbfilename"| == 10 && |"unixsocket"| == 10 && |"pidfile"| == 7;
    assert |"appendonly"| == 10 && |"appendfsync"| == 11;
    assert "dbfilename"[0] == 'd' && "unixsocket"[0] == 'u' && "appendonly"[0] == 'a';
  }

  lemma InstanceIsWellFormed(dbdir: string, dbfilename: string, socket: string, pidfile: string, logfile: string)
    requires forall p <- [dbdir, dbfilename, socket, pidfile, logfile] :: Clean(p, {'\n'})
    ensures var instance := InstanceKeys(dbdir, dbfilename, socket, pidfile, logfile);
            && WellFormed(instance) && instance.Keys == INSTANCE_KEYS && instance["dbdir"] == Text(dbdir)
            && "dir" !in instance && "appendonly" !in instance && "appendfsync" !in instance
  {
    InstanceNames();
    hide Name, Clean;
    var ps := [dbdir, dbfilename, socket, pidfile, logfile];
    assert dbdir in ps && dbfilename in ps && socket in ps && pidfile in ps && logfile in ps;
    var instance := InstanceKeys(dbdir, dbfilename, socket, pidfile, logfile);
    assert instance.Keys == INSTANCE_KEYS;
    forall k <- instance ensures Name(k) && forall v <- Values(instance[k]) :: Clean(v, {'\n'}) {
      assert instance[k].Text? && instance[k].s in ps;
    }
  }

  lemma ServerKeys(path: Option<string>, durable: Durable, explicit: Settings)
    requires ServerConfig(path, durable, explicit).Success?
    ensures var server := ServerConfig(path, durable, explicit).value;
            && explicit.Keys <= server.Keys <= explicit.Keys + {"appendonly", "appendfsync"}
            && (forall k <- explicit :: server[k] == explicit[k])
    ensures "dir" !in {"appendonly", "appendfsync"} && "dbdir" !in {"appendonly", "appendfsync"}
  {
    PresetIsWellFormed(durable);
    assert |"appendonly"| == 10 && |"appendfsync"| == 11 && |"dir"| == 3 && |"dbdir"| == 5;
  }

  lemma WinnerIsInForce(instance: Settings, path: Option<string>, durable: Durable, explicit: Settings, key: string)
    requires ServerConfig(path, durable, explicit).Success?
    requires instance.Keys !! ServerConfig(path, durable, explicit).value.Keys
    ensures InForce(DEFAULTS, instance + ServerConfig(path, durable, explicit).value, key) ==
        Winner(instance, durable, explicit, key)
  {
    hide DEFAULTS;
  }

  lemma SumIsWellFormed(a: Settings, b: Settings)
    requires WellFormed(a) && WellFormed(b)
    ensures WellFormed(a + b)
  {
  }

  lemma PresetIsWellFormed(durable: Durable)
    ensures Preset(durable).Some? ==>
              var p := Preset(durable).value;
              WellFormed(p) && p.Keys == {"appendonly", "appendfsync"} && "dir" !in p && "dbdir" !in p
  {
    assert |"appendonly"| == 10 && |"appendfsync"| == 11 && |"dir"| == 3 && |"dbdir"| == 5;
    assert Name("appendonly") && Name("appendfsync");
  }

  lemma ServerIsWellFormed(path: Option<string>, durable: Durable, explicit: Settings)
    requires WellFormed(explicit) && ServerConfig(path, durable, explicit).Success?
    ensures WellFormed(ServerConfig(path, durable, explicit).value)
  {
    PresetIsWellFormed(durable);
    if Preset(durable).Some? {
      SumIsWellFormed(Preset(durable).value, explicit);
    }
  }

  /** connect refuses before anything is touched exactly if durability is asked for without a path, or, with a
      path, as something it does not know. */
  lemma WhatConnectRefuses(path: Option<string>, durable: Durable, explicit: Settings)
    ensures ServerConfig(path, durable, explicit) == Failure(NeedsPath) <==> !durable.Off? && path.None?
    ensures ServerConfig(path, durable, explicit) == Failure(BadDurable) <==> durable.Other? && path.Some?
  {
  }

  /** What the engine finds in the file that a start writes; nothing is written if connect or the start
      refuses. */
  ghost function FileWritten(path: Option<string>, durable: Durable, explicit: Settings, instance: Settings): Directives
  {
    match ServerConfig(path, durable, explicit)
    case Failure(_) => map[]
    case Success(server) =>
      match StartOverrides(instance, server)
      case Failure(_) => map[]
      case Success(overrides) => Parse(ConfigText(DEFAULTS, overrides))
  }

  /** What stands in the file unless the explicit configuration mentions it. */
  ghost predicate Standard(file: Directives, durable: Durable, explicit: Settings) {
    && ("port" !in explicit ==> Found(file, "port") == ["0"])
    && ("daemonize" !in explicit ==> Found(file, "daemonize") == ["yes"])
    && ("unixsocketperm" !in explicit ==> Found(file, "unixsocketperm") == ["700"])
    && ("save" !in explicit ==> Found(file, "save") == ["900 1", "300 100", "60 200", "15 1000"])
    && ("appendonly" !in explicit ==> Found(file, "appendonly") == [if durable.Off? then "no" else "yes"])
    && ("appendfsync" !in explicit ==>
          Found(file, "appendfsync") == [if durable.Always? then "always" else "everysec"])
  }

  /** What the explicit configuration says about a directive is what the file says. */
  predicate SaysAsMuch(v: Setting, found: seq<string>) {
    match v
    case Unset => found == []
    case Text(s) => found == if s == "" then [] else [s]
    case Lines(items) => found == items
  }

  /** The file says what it should, in its own words: the five paths under their own directives, no TCP
      port, a daemon with a private socket, the four snapshot rules, and an append-only file exactly if
      durability was asked for, flushed always or every second; what the explicit configuration mentions
      is as it says. */
  lemma WhatTheFileSays(path: Option<string>, durable: Durable, explicit: Settings,
                        dbdir: string, dbfilename: string, socket: string, pidfile: string, logfile: string)
    requires WellFormed(explicit) && explicit.Keys !! INSTANCE_KEYS && ServerConfig(path, durable, explicit).Success?
    requires forall p <- [dbdir, dbfilename, socket, pidfile, logfile] :: Clean(p, {'\n'}) && p != ""
    ensures var file := FileWritten(path, durable, explicit,
                                    InstanceKeys(dbdir, dbfilename, socket, pidfile, logfile));
            && Found(file, "dbfilename") == [dbfilename] && Found(file, "unixsocket") == [socket]
            && Found(file, "pidfile") == [pidfile] && Found(file, "logfile") == [logfile]
            && Found(file, "dbdir") == [] && ("dir" !in explicit ==> Found(file, "dir") == [dbdir])
            && Standard(file, durable, explicit)
            && forall key <- explicit :: key != "dir" ==> SaysAsMuch(explicit[key], Found(file, key))
  {
    hide WellFormed, DEFAULTS, InstanceKeys, ServerConfig, Winner, Found, FileWritten, Standard, Clean;
    var instance := InstanceKeys(dbdir, dbfilename, socket, pidfile, logfile);
    var file := FileWritten(path, durable, explicit, instance);
    InstancePaths(dbdir, dbfilename, socket, pidfile, logfile);
    WhoWins(path, instance, durable, explicit);
    forall key: string ensures Found(file, key) == Says(instance, durable, explicit, key, dbdir) {
      FoundInFile(path, durable, explicit, key, dbdir, dbfilename, socket, pidfile, logfile);
    }
    InstanceNames();
    StandardFollows(file, instance, durable, explicit, dbdir);
  }

  lemma StandardFollows(file: Directives, instance: Settings, durable: Durable, explicit: Settings, dbdir: string)
    requires forall key: string :: Found(file, key) == Says(instance, durable, explicit, key, dbdir)
    requires Wins(instance, durable, explicit)
    ensures Standard(file, durable, explicit)
  {
    hide DEFAULTS, Winner, Found;
    DefaultsInPlay();
    StandardNames();
  }

  lemma StandardNames()
    ensures forall k <- ["port", "daemonize", "unixsocketperm", "save", "appendonly", "appendfsync"] ::
              k != "dir" && k != "dbdir"
  {
  }

  /** Which value the file has for a directive. */
  function Says(instance: Settings, durable: Durable, explicit: Settings, key: string, dbdir: string): seq<string> {
    Values(if key == "dbdir" then Unset
           else if key == "dir" then
             if "dir" in explicit && !explicit["dir"].Unset? then explicit["dir"] else Text(dbdir)
           else Winner(instance, durable, explicit, key))
  }

  lemma FoundInFile(path: Option<string>, durable: Durable, explicit: Settings, key: string,
                    dbdir: string, dbfilename: string, socket: string, pidfile: string, logfile: string)
    requires WellFormed(explicit) && explicit.Keys !! INSTANCE_KEYS && ServerConfig(path, durable, explicit).Success?
    requires forall p <- [dbdir, dbfilename, socket, pidfile, logfile] :: Clean(p, {'\n'})
    ensures var instance := InstanceKeys(dbdir, dbfilename, socket, pidfile, logfile);
            Found(FileWritten(path, durable, explicit, instance), key) == Says(instance, durable, explicit, key, dbdir)
  {
    hide ConfigText, Parse, WellFormed, DEFAULTS, InstanceKeys, Winner, Found, ServerConfig;
    PrecedenceEndToEnd(path, durable, explicit, key, dbdir, dbfilename, socket, pidfile, logfile);
  }

  lemma InstancePaths(dbdir: string, dbfilename: string, socket: string, pidfile: string, logfile: string)
    requires forall p <- [dbdir, dbfilename, socket, pidfile, logfile] :: p != ""
    ensures var instance := InstanceKeys(dbdir, dbfilename, socket, pidfile, logfile);
            && instance.Keys == INSTANCE_KEYS
            && instance["dbfilename"] == Text(dbfilename) && instance["unixsocket"] == Text(socket)
            && instance["pidfile"] == Text(pidfile) && instance["logfile"] == Text(logfile)
            && dbdir != "" && dbfilename != "" && socket != "" && pidfile != "" && logfile != ""
  {
    var ps := [dbdir, dbfilename, socket, pidfile, logfile];
    assert dbdir in ps && dbfilename in ps && socket in ps && pidfile in ps && logfile in ps;
    InstanceNames();
  }

  /** Which of the sources wins for the directives that matter. */
  ghost predicate Wins(instance: Settings, durable: Durable, explicit: Settings) {
    && (forall key <- explicit :: Winner(instance, durable, explicit, key) == explicit[key])
    && (forall key <- instance :: Winner(instance, durable, explicit, key) == instance[key])
    && (forall key <- ["port", "daemonize", "unixsocketperm", "save"] ::
          key !in explicit && key in DEFAULTS ==> Winner(instance, durable, explicit, key) == DEFAULTS[key])
    && ("appendonly" !in explicit && "appendonly" in DEFAULTS ==>
          Winner(instance, durable, explicit, "appendonly") ==
            if durable.Off? then DEFAULTS["appendonly"] else Text("yes"))
    && ("appendfsync" !in explicit && "appendfsync" in DEFAULTS ==>
          Winner(instance, durable, explicit, "appendfsync") ==
            if durable.Off? then DEFAULTS["appendfsync"] else Text(if durable.Always? then "always" else "everysec"))
  }

  lemma WhoWins(path: Option<string>, instance: Settings, durable: Durable, explicit: Settings)
    requires instance.Keys == INSTANCE_KEYS && explicit.Keys !! INSTANCE_KEYS
    requires ServerConfig(path, durable, explicit).Success?
    ensures Wins(instance, durable, explicit)
  {
    hide DEFAULTS, INSTANCE_KEYS, Preset, ServerConfig;
    InstanceNames();
    PresetSays(path, durable, explicit);
    NotAnInstanceKey("port");
    NotAnInstanceKey("daemonize");
    NotAnInstanceKey("unixsocketperm");
    NotAnInstanceKey("save");
  }


  lemma NotAnInstanceKey(key: string)
    requires key in {"port", "daemonize", "unixsocketperm", "save"}
    ensures key !in INSTANCE_KEYS && key !in {"appendonly", "appendfsync"}
  {
  }

  lemma PresetSays(path: Option<string>, durable: Durable, explicit: Settings)
    requires ServerConfig(path, durable, explicit).Success?
    ensures Preset(durable).None? <==> durable.Off?
    ensures Preset(durable).Some? ==>
              var p := Preset(durable).value;
              && p.Keys == {"appendonly", "appendfsync"} && p["appendonly"] == Text("yes")
              && p["appendfsync"] == Text(if durable.Always? then "always" else "everysec")
  {
    assert |"appendonly"| == 10 && |"appendfsync"| == 11;
  }

  // ---- connect, down to the server ----

  /** A repeated key makes `_start_server` raise before it writes anything. It does so only if nothing
      failed earlier and there is no server to attach to. */
  function FaultWith(w: World, target: Option<Dir>, server: Settings, fault: Fault): Fault {
    if server.Keys !! INSTANCE_KEYS || Prepare(w, target, fault).client.None?
       || (target.Some? && !Load(w, target.value).Absent?)
    then fault else ConfFault(false)
  }

  /** The effect of `connect(path, durable=..., serverconfig=...)`. */
  function ConnectOpen(w: World, id: ClientId, path: Option<string>, attr: Option<string>, durable: Durable,
                       explicit: Settings, seen: OpenSeen): Result<Opened, ConnectError> {
    match ServerConfig(path, durable, explicit)
    case Failure(e) => Failure(e)
    case Success(server) =>
      var target := Resolve(path, attr);
      Success(Open(w, id, target, seen.(fault := FaultWith(w, target, server, seen.fault))))
  }

  /** When nothing else fails, a serverconfig that repeats one of the five instance keys keeps a server
      from being started, for every preset and every mode, and the failed attempt leaves no trace; no other
      serverconfig does. A client that attaches to a live server does not even look at it. */
  lemma DuplicatesAreRefused(s: System, id: ClientId, path: Option<string>, attr: Option<string>, durable: Durable,
                             explicit: Settings, seen: OpenSeen)
    requires Inv(s) && Unknown(s, id) && ServerConfig(path, durable, explicit).Success?
    requires seen.fault.NoFault? && seen.up && seen.ready
    ensures var target := Resolve(path, attr);
            var r := ConnectOpen(s.world, id, path, attr, durable, explicit, seen).value;
            && (r.client.Some? <==>
                  explicit.Keys !! INSTANCE_KEYS || (target.Some? && PidOf(s.world, target.value) != 0))
            && (r.client.None? ==> LeavesNoTrace(s.world, r.world, target, NoFault))
  {
    var server := ServerConfig(path, durable, explicit).value;
    ServerRepeats(path, durable, explicit);
    var target := Resolve(path, attr);
    var fault := FaultWith(s.world, target, server, NoFault);
    var seen1 := seen.(fault := fault);
    assert target.Some? ==> target.value.User?;
    hide ServerConfig, Resolve, Open;
    PrepareSucceeds(s.world, target);
    WorldOfInv(s);
    if target.Some? {
      LoadOutcome(s.world, target.value);
    }
    if target.Some? && PidOf(s.world, target.value) != 0 {
      SmoothAttach(s, id, target, seen);
    } else if explicit.Keys !! INSTANCE_KEYS {
      SmoothOpenStarts(s, id, target, seen);
    } else {
      RefusedStart(s, id, target, seen1);
      FailedOpenLeavesNoTrace(s, id, target, seen1);
      SameTrace(s.world, Open(s.world, id, target, seen1).world, target);
    }
  }

  lemma SameTrace(w: World, v: World, target: Option<Dir>)
    requires LeavesNoTrace(w, v, target, ConfFault(false))
    ensures LeavesNoTrace(w, v, target, NoFault)
  {
  }

  /** The presets repeat no instance key. */
  lemma ServerRepeats(path: Option<string>, durable: Durable, explicit: Settings)
    requires ServerConfig(path, durable, explicit).Success?
    ensures ServerConfig(path, durable, explicit).value.Keys !! INSTANCE_KEYS <==> explicit.Keys !! INSTANCE_KEYS
  {
    InstanceNames();
    ServerKeys(path, durable, explicit);
    hide ServerConfig;
    var server := ServerConfig(path, durable, explicit).value;
    assert server.Keys * INSTANCE_KEYS == explicit.Keys * INSTANCE_KEYS;
  }

  lemma SmoothOpenStarts(s: System, id: ClientId, target: Option<Dir>, seen: OpenSeen)
    requires Inv(s) && Unknown(s, id) && (target.Some? ==> target.value.User? && PidOf(s.world, target.value) == 0)
    requires seen.fault.NoFault? && seen.up && seen.ready
    ensures Open(s.world, id, target, seen).client.Some?
  {
    hide WorldInv, ClientOk, MayStart, Prepare, OwnSocket, StartAndConnect;
    var r := Prepare(s.world, target, NoFault);
    PrepareSucceeds(s.world, target);
    PreparedOk(s.world, id, target, NoFault);
    var c, v := r.client.value, r.world.(hooks := r.world.hooks + {id});
    HomeOfRegistry(v, c);
    if target.Some? {
      LoadOutcome(v, c.dbdir);
    }
    PidFacts(v, None);
    PidfileAtHome(v, c);
    SmoothStart(v, id, c, seen);
  }

  lemma PidfileAtHome(w: World, c: Client)
    requires ClientOk(w, c)
    ensures c.pidfile == c.dbdir
  {
  }

  lemma RefusedStart(s: System, id: ClientId, target: Option<Dir>, seen: OpenSeen)
    requires Inv(s) && Unknown(s, id) && (target.Some? ==> target.value.User? && PidOf(s.world, target.value) == 0)
    requires seen.fault == ConfFault(false)
    ensures Open(s.world, id, target, seen).client.None? && !Leaks(s.world, target, seen)
  {
    hide WorldInv, ClientOk, MayStart, Prepare, OwnSocket, Rollback;
    var r := Prepare(s.world, target, seen.fault);
    PreparedOk(s.world, id, target, seen.fault);
    if r.client.Some? {
      var c, v := r.client.value, r.world.(hooks := r.world.hooks + {id});
      HomeOfRegistry(v, c);
      if target.Some? {
        LoadOutcome(v, c.dbdir);
      }
    }
  }

  // ---- Durability ----

  /** Durability is meant to imply a kept database. The code only checks that a path was given, so the
      promise holds exactly when the path is not the empty string or a class-level location is set:
      connect("", durable=True) is accepted and, unless patching set a location, opens an isolated server
      whose directory is removed on close. */
  lemma DurableIsPersistentUnlessPathEmpty(path: Option<string>, attr: Option<string>, durable: Durable,
                                           explicit: Settings)
    requires !durable.Off? && ServerConfig(path, durable, explicit).Success?
    ensures path.Some? && (Resolve(path, attr).Some? <==> path.value != "" || attr.Some?)
  {
  }

  /** An example of the exception, and of what patching makes of it. */
  lemma EmptyPathIsDurableAndDisposable()
    ensures ServerConfig(Some(""), On, map[]).Success?
    ensures Resolve(Some(""), None) == None && Resolve(Some(""), Some("/x")) == Some(User("/x"))
  {
  }
}
