/** `ValkeyMixin` from client.py: an object whose methods update its own fields and the host's files,
    processes and hooks step by step. Each method is proved against the specification function of the
    same step in `HostWorld`; what those functions promise is proved about them elsewhere. */
module EmbeddedClient {
  import opened Wrappers
  import opened Processes
  import opened HostWorld

  /** The machine: files, daemons and hooks, beside the process table. */
  class Host {
    const procs: Table
    const tempLen: nat
    var dirs: set<Dir>
    var registry: map<Dir, Json>
    var pidfile: map<Dir, Pidfile>
    var sockets: map<Dir, nat>
    var conf: set<Dir>
    var rdb: map<Dir, Data>
    var daemons: map<nat, Daemon>
    var hooks: set<ClientId>
    var nextPid: nat
    var nextTemp: nat

    /** A machine with database files on disk and nothing running. */
    constructor (tempLen: nat, rdb: map<Dir, Data>)
      ensures Valid() && fresh(procs) && this.tempLen == tempLen
      ensures W() == World(rdb.Keys, map[], map[], map[], {}, rdb, {}, [], map[], {}, 1, 0, tempLen)
    {
      procs := new Table();
      this.tempLen := tempLen;
      dirs, registry, pidfile, sockets, conf := rdb.Keys, map[], map[], map[], {};
      this.rdb, daemons, hooks, nextPid, nextTemp := rdb, map[], {}, 1, 0;
    }

    ghost function W(): World
      reads this, procs
    {
      World(dirs, registry, pidfile, sockets, conf, rdb, procs.live, procs.signals, daemons, hooks,
            nextPid, nextTemp, tempLen)
    }

    ghost predicate Valid()
      reads this, procs
    {
      nextPid > 0 && 0 !in procs.live
    }

    method MkdTemp(socket: bool) returns (d: Dir)
      modifies this
      ensures d == if socket then SockTemp(old(nextTemp)) else Private(old(nextTemp))
      ensures W() == old(W()).(dirs := old(dirs) + {d}, nextTemp := old(nextTemp) + 1)
    {
      d := if socket then SockTemp(nextTemp) else Private(nextTemp);
      dirs, nextTemp := dirs + {d}, nextTemp + 1;
    }

    method Remove(d: Dir)
      modifies this
      ensures W() == RmTree(old(W()), d) && (old(Valid()) ==> Valid())
    {
      dirs, registry, pidfile := dirs - {d}, registry - {d}, pidfile - {d};
      sockets, conf, rdb := sockets - {d}, conf - {d}, rdb - {d};
    }

    /** The launched binary daemonizes: a new process, serving the RDB of its directory. */
    method Spawn(dir: Dir, sock: Dir)
      requires Valid()
      modifies this, procs
      ensures Valid() && W() == Launch(old(W()), dir, sock)
      ensures procs.now == old(procs.now) && procs.naps == old(procs.naps)
    {
      var data: Data := if dir in rdb then rdb[dir] else map[];
      procs.live := procs.live + {nextPid};
      daemons := daemons[nextPid := Daemon(dir, sock, data, multiset{})];
      pidfile, sockets := pidfile[dir := Pid(nextPid)], sockets[sock := nextPid];
      nextPid := nextPid + 1;
    }

    method Reached(sock: Dir) returns (pid: nat)
      ensures pid == Reach(W(), sock)
    {
      pid := if sock in sockets && sockets[sock] in daemons then sockets[sock] else 0;
    }

    /** An orderly stop of a serving daemon. */
    method Stop(pid: nat, save: bool)
      requires pid in daemons
      modifies this
      ensures W() == StopServing(old(W()), pid, save)
    {
      var d := daemons[pid];
      if save {
        rdb := rdb[d.dir := d.data];
      }
      daemons, pidfile, sockets := daemons - {pid}, pidfile - {d.dir}, sockets - {d.sock};
    }

    /** A process exits by itself. */
    method Vanish(pid: nat)
      requires Valid()
      modifies this`daemons, procs
      ensures Valid() && W() == Exit(old(W()), pid)
      ensures procs.now == old(procs.now) && procs.naps == old(procs.naps)
    {
      procs.live, daemons := procs.live - {pid}, daemons - {pid};
    }

    /** A client connects to the daemon behind a socket, unless it is connected already. */
    method Attach(id: ClientId, sock: Dir)
      modifies this
      ensures W() == Touch(old(W()), id, sock)
    {
      var pid := Reached(sock);
      if pid != 0 && id !in daemons[pid].conns {
        daemons := daemons[pid := daemons[pid].(conns := daemons[pid].conns + multiset{id})];
      }
    }

    /** Upstream `close()`: this client's connections go away. */
    method Release(id: ClientId)
      modifies this
      ensures W() == Disconnect(old(W()), id)
    {
      daemons := map p | p in daemons :: daemons[p].(conns := daemons[p].conns[id := 0]);
    }
  }

  /** What the outside is about to do while a client opens and while one closes. */
  datatype OpenPlan = OpenPlan(fault: Fault, up: bool, replies: nat -> Reply, behaviour: Behaviour, obstacle: Obstacle)

  datatype ClosePlan = ClosePlan(countRaises: bool, accepted: bool, behaviour: Behaviour, obstacle: Obstacle)

  /** The try block of `_cleanup` on values; the finally block makes a close of it. */
  function Elected(w: World, id: ClientId, c: Client, seen: CloseSeen): Closed {
    var w1 := if c.registry.Some? then Touch(w, id, c.socket) else w;
    if c.registry.Some? && seen.countRaises then Closed(w1, c, true) else
    var last := c.registry.None? || HostWorld.ConnectionCount(w1, c.socket) <= 1;
    if last && CleanupRaises(w1, c, seen) then Closed(Interrupted(w1, c, seen), c, true)
    else if last then Closed(HostWorld.StopServer(w1, c, seen), c.(sockDir := None), false)
    else Closed(w1, c, false)
  }

  /** Does the try block of `_cleanup` get as far as terminating a daemon? */
  predicate Escalates(w: World, id: ClientId, c: Client, countRaises: bool) {
    && (c.registry.None? || (!countRaises && HostWorld.ConnectionCount(Touch(w, id, c.socket), c.socket) <= 1))
    && PidOf(w, c.pidfile) != 0
  }

  /** The database an object is for: an explicit, non-empty path always wins; otherwise the class-level
      location; without either the server is private. */
  predicate Chosen(arg: Option<string>, attr: Option<string>, registry: Option<Dir>) {
    && (arg.Some? && arg.value != "" ==> registry == Some(User(arg.value)))
    && (!(arg.Some? && arg.value != "") && attr.Some? ==> registry == Some(User(attr.value)))
    && (!(arg.Some? && arg.value != "") && attr.None? ==> registry == None)
  }

  /** What a rollback that met a started daemon or not, `polls` polls long, did to it. */
  predicate RolledBack(took: real, plan: OpenPlan, seen: OpenSeen, polls: nat) {
    var existed := polls > 0 || seen.ending != Quiet || seen.undoRaises;
    Patient(existed, took, 10.0, plan.behaviour, plan.obstacle, seen.ending, polls, seen.undoRaises)
  }

  /** Where nothing is terminated no time need pass. */
  lemma NothingTerminated(timeout: real, b: Behaviour, o: Obstacle, naps: seq<real>)
    ensures Patient(false, 0.0, timeout, b, o, Quiet, 0, false)
    ensures naps + Pauses(0, 0.2, b, Quiet) == naps
  {
  }

  /** An escalation is a rollback's, whatever it met. */
  lemma AsRolledBack(existed: bool, took: real, plan: OpenPlan, ending: Ending, polls: nat, stopped: bool)
    requires Patient(existed, took, 10.0, plan.behaviour, plan.obstacle, ending, polls, stopped)
    ensures forall seen: OpenSeen :: seen.ending == ending && seen.undoRaises == stopped ==>
              RolledBack(took, plan, seen, polls)
  {
  }

  /** Before anything was started there is nothing to roll back, and later it is still so. */
  lemma RolledBackLater(took: real, later: real, plan: OpenPlan, seen: OpenSeen, polls: nat)
    requires later >= took
    ensures RolledBack(took, plan, seen, polls) ==> RolledBack(later, plan, seen, polls)
    ensures later >= 0.0 && polls == 0 && seen.ending == Quiet && !seen.undoRaises ==>
              RolledBack(later, plan, seen, polls)
  {
  }

  /** Choosing directories touches no registry and no process. */
  lemma LoadAfterPrepare(w: World, target: Option<Dir>, fault: Fault, id: ClientId, d: Dir)
    ensures var w1 := HostWorld.Prepare(w, target, fault).world;
            Load(w1.(hooks := w1.hooks + {id}), d) == Load(w, d)
  {
    hide Overflows, Load;
    var w1 := HostWorld.Prepare(w, target, fault).world;
    LoadReadsFilesAndPids(w, w1.(hooks := w1.hooks + {id}), d);
  }

  lemma LoadReadsFilesAndPids(w: World, v: World, d: Dir)
    requires w.registry == v.registry && w.pidfile == v.pidfile && w.live == v.live
    ensures Load(w, d) == Load(v, d)
  {
  }

  /** A readiness poll that failed was told something else than yes or no, or took the whole timeout. */
  ghost predicate GaveUp(took: real, timeout: real, replies: nat -> Reply) {
    took >= timeout || exists k: nat :: replies(k) == OtherError
  }

  lemma GaveUpLater(took: real, later: real, timeout: real, replies: nat -> Reply)
    requires later >= took
    ensures GaveUp(took, timeout, replies) ==> GaveUp(later, timeout, replies)
  {
  }

  class EmbeddedClient {
    const host: Host
    const id: ClientId
    const startTimeout: real
    var running: bool
    var registry: Option<Dir>
    var dbdir: Dir
    var pidfile: Dir
    var socketFile: Dir
    var socketDir: Option<Dir>
    var configFile: Option<Dir>

    constructor (host: Host, id: ClientId, startTimeout: real)
      ensures this.host == host && this.id == id && !running
    {
      this.host, this.id, this.startTimeout := host, id, startTimeout;
      running, registry, socketDir, configFile := false, None, None, None;
      dbdir, pidfile, socketFile := User(""), User(""), User("");
    }

    ghost function State(): Client
      reads this
    {
      Client(running, registry, dbdir, pidfile, socketFile, socketDir, configFile)
    }

    // ---- Startup ----

    /** `__init__`: resolve the mode, attach or start, connect, wait; on failure undo and re-raise. */
    method Init(arg: Option<string>, attr: Option<string>, plan: OpenPlan)
      returns (ok: bool, seen: OpenSeen, polls: nat)
      requires host.Valid()
      modifies this, host, host.procs
      ensures host.Valid()
      ensures seen.fault == plan.fault && seen.up == plan.up
      ensures var r := Open(old(host.W()), id, Resolve(arg, attr), seen);
              && host.W() == r.world
              && ok == r.client.Some?
              && (ok ==> State() == r.client.value)
      ensures !plan.fault.DirFault? ==> Chosen(arg, attr, registry)
      ensures ok ==> if registry.None? then dbdir == Private(old(host.nextTemp))
                     else dbdir == registry.value
                          || Load(old(host.W()), registry.value) == Attached(pidfile, socketFile, dbdir)
      ensures ok ==> seen.ready
      ensures seen.ready ==> exists k: nat :: plan.replies(k) == Pong
      ensures !ok && plan.fault.NoFault? ==>
                || GaveUp(host.procs.now - old(host.procs.now), startTimeout, plan.replies)
                || (registry.Some? && Load(old(host.W()), registry.value) == Raises)
      ensures polls <= 50 && RolledBack(host.procs.now - old(host.procs.now), plan, seen, polls)
    {
      hide HostWorld.Prepare, HostWorld.AttachOrStart, Load, Patient, Resolve, GaveUp, RolledBack, Chosen;
      ok, seen, polls := false, OpenSeen(plan.fault, plan.up, false, false, Quiet), 0;
      RolledBackLater(0.0, 0.0, plan, seen, polls);
      var raised := Prepare(arg, attr, plan.fault);
      if !raised {
        host.hooks := host.hooks + {id};
        if registry.Some? {
          LoadAfterPrepare(old(host.W()), Resolve(arg, attr), plan.fault, id, registry.value);
        }
        ok, seen, polls := AttachOrStart(plan);
      }
    }

    /** The part of `__init__` before the try block: db location, paths, socket placement. */
    method Prepare(arg: Option<string>, attr: Option<string>, fault: Fault) returns (raised: bool)
      requires host.Valid()
      modifies this, host
      ensures host.Valid()
      ensures var r := HostWorld.Prepare(old(host.W()), Resolve(arg, attr), fault);
              && host.W() == r.world
              && raised == r.client.None?
              && (!raised ==> State() == r.client.value)
      ensures !fault.DirFault? ==> Chosen(arg, attr, registry)
      ensures !raised ==> !running && dbdir == if registry.Some? then registry.value else Private(old(host.nextTemp))
      ensures raised ==> fault.DirFault? || fault.SocketDirFault?
    {
      hide PrepareDir, PrepareSocket, Resolve;
      raised := ChooseDir(arg, attr, fault.DirFault?);
      if !raised {
        raised := PlaceSocket(fault);
      }
    }

    /** The mode and the database directory: an explicit path, else the class-level one, else private. */
    method ChooseDir(arg: Option<string>, attr: Option<string>, fails: bool) returns (raised: bool)
      requires host.Valid()
      modifies this, host
      ensures host.Valid() && raised == fails
      ensures raised ==> host.W() == old(host.W())
      ensures !raised ==>
                && (host.W(), dbdir) == PrepareDir(old(host.W()), Resolve(arg, attr))
                && registry == Resolve(arg, attr) && pidfile == dbdir && !running && configFile.None? && socketDir.None?
                && Chosen(arg, attr, registry)
                && dbdir == if registry.Some? then registry.value else Private(old(host.nextTemp))
    {
      running, configFile, registry, socketDir := false, None, None, None;
      if fails {
        return true;
      }
      raised := false;
      if arg.Some? && arg.value != "" {
        dbdir := User(arg.value);
        registry := Some(dbdir);
        host.dirs := host.dirs + {dbdir};
      } else if attr.None? {
        dbdir := host.MkdTemp(false);
      } else {
        dbdir := User(attr.value);
        registry := Some(dbdir);
        host.dirs := host.dirs + {dbdir};
      }
      pidfile := dbdir;
    }

    /** The try block of `__init__`: attach to the recorded server or start one. */
    method AttachOrStart(plan: OpenPlan) returns (ok: bool, seen: OpenSeen, polls: nat)
      requires host.Valid() && !running
      modifies this, host, host.procs
      ensures host.Valid()
      ensures seen.fault == plan.fault && seen.up == plan.up
      ensures var r := HostWorld.AttachOrStart(old(host.W()), id, old(State()), seen);
              && host.W() == r.world
              && ok == r.client.Some?
              && (ok ==> State() == r.client.value)
      ensures registry == old(registry)
      ensures ok ==> seen.ready
      ensures ok && dbdir != old(dbdir) ==>
                registry.Some? && Load(old(host.W()), registry.value) == Attached(pidfile, socketFile, dbdir)
      ensures seen.ready ==> exists k: nat :: plan.replies(k) == Pong
      ensures !ok && plan.fault.NoFault? && !(registry.Some? && Load(old(host.W()), registry.value) == Raises) ==>
                GaveUp(host.procs.now - old(host.procs.now), startTimeout, plan.replies)
      ensures polls <= 50 && RolledBack(host.procs.now - old(host.procs.now), plan, seen, polls)
    {
      hide Connect, StartAndConnect, Load, Patient, GaveUp, RmTree;
      ok, seen, polls := false, OpenSeen(plan.fault, plan.up, false, false, Quiet), 0;
      var at := Absent;
      if registry.Some? {
        at := LoadSettingRegistry();
      }
      match at {
        case Raises =>
          var ending, stopped;
          ending, polls, stopped := UndoInit(false, plan);
          seen := seen.(undoRaises := stopped, ending := ending);
        case Attached(_, _, _) =>
          if socketDir.Some? {
            host.Remove(socketDir.value);
            socketDir := None;
          }
          ok, seen, polls := FinishInit(false, plan);
        case Absent =>
          ok, seen, polls := StartAndFinish(plan);
      }
    }

    /** The starting branch of `__init__`, up to its end. */
    method StartAndFinish(plan: OpenPlan) returns (ok: bool, seen: OpenSeen, polls: nat)
      requires host.Valid() && !running
      modifies this, host, host.procs
      ensures host.Valid()
      ensures seen.fault == plan.fault && seen.up == plan.up
      ensures var r := StartAndConnect(old(host.W()), id, old(State()), seen);
              && host.W() == r.world
              && ok == r.client.Some?
              && (ok ==> State() == r.client.value)
      ensures registry == old(registry) && (ok ==> seen.ready && dbdir == old(dbdir))
      ensures seen.ready ==> exists k: nat :: plan.replies(k) == Pong
      ensures !ok && plan.fault.NoFault? ==>
                GaveUp(host.procs.now - old(host.procs.now), startTimeout, plan.replies)
      ensures polls <= 50 && RolledBack(host.procs.now - old(host.procs.now), plan, seen, polls)
    {
      hide Connect, HostWorld.StartServer, SaveRegistry, Patient, RolledBack, GaveUp, Terminated, Halted, RmTree;
      RolledBackLater(0.0, 0.0, plan, OpenSeen(plan.fault, plan.up, false, false, Quiet), 0);
      seen, polls := OpenSeen(plan.fault, plan.up, false, false, Quiet), 0;
      ok := StartServer(plan.fault, plan.up);
      if ok && registry.Some? {
        var raised := SaveSettingRegistry(plan.fault);
        if raised {
          var ending, stopped;
          ending, polls, stopped := UndoInit(true, plan);
          return false, seen.(undoRaises := stopped, ending := ending), polls;
        }
      }
      if ok {
        ok, seen, polls := FinishInit(true, plan);
      } else {
        var ending, stopped;
        ending, polls, stopped := UndoInit(false, plan);
        seen := seen.(undoRaises := stopped, ending := ending);
      }
    }

    /** The end of `__init__`: construct the upstream client and wait until the server answers. */
    method FinishInit(started: bool, plan: OpenPlan) returns (ok: bool, seen: OpenSeen, polls: nat)
      requires host.Valid() && !running
      modifies this, host, host.procs
      ensures host.Valid()
      ensures seen.fault == plan.fault && seen.up == plan.up
      ensures var r := Connect(old(host.W()), id, old(State()), started, seen);
              && host.W() == r.world
              && ok == r.client.Some?
              && (ok ==> State() == r.client.value)
      ensures State() == old(State()).(running := running) && (ok ==> seen.ready)
      ensures seen.ready ==> exists k: nat :: plan.replies(k) == Pong
      ensures !ok && !plan.fault.ClientFault? ==>
                GaveUp(host.procs.now - old(host.procs.now), startTimeout, plan.replies)
      ensures polls <= 50 && RolledBack(host.procs.now - old(host.procs.now), plan, seen, polls)
    {
      hide Patient, RolledBack, GaveUp, Terminated, Halted, Rollback, Undo;
      ok, seen, polls := false, OpenSeen(plan.fault, plan.up, false, false, Quiet), 0;
      ghost var asked := host.procs.now;
      if !plan.fault.ClientFault? {
        var pings;
        ok, pings := WaitUntilReady(plan.replies);
        seen := seen.(ready := ok);
      }
      ghost var told := host.procs.now;
      if ok {
        running := true;
      } else {
        var ending, stopped;
        ending, polls, stopped := UndoInit(started, plan);
        seen := seen.(undoRaises := stopped, ending := ending);
        GaveUpLater(told - asked, host.procs.now - asked, startTimeout, plan.replies);
        RolledBackLater(host.procs.now - told, host.procs.now - asked, plan, seen, polls);
      }
      RolledBackLater(0.0, host.procs.now - asked, plan, seen, polls);
    }

    /** `_socket_path_for`: the socket lies under the database directory, or in a fresh short
        directory when that path would overflow sun_path. */
    method PlaceSocket(fault: Fault) returns (raised: bool)
      requires host.Valid()
      modifies this`socketFile, this`socketDir, host
      ensures host.Valid()
      ensures raised <==> fault.SocketDirFault? && Overflows(dbdir, old(host.W()).tempLen)
      ensures raised ==> host.W() == old(host.W())
      ensures !raised && old(socketDir).None? ==>
                (host.W(), socketFile, socketDir) == PrepareSocket(old(host.W()), dbdir)
      ensures !raised && dbdir.User? && dbdir.path != "" && dbdir.path[|dbdir.path| - 1] != '/' ==>
                (socketFile == dbdir <==> |dbdir.path| < 90)
    {
      if !Overflows(dbdir, host.tempLen) {
        socketFile := dbdir;
        return false;
      }
      if fault.SocketDirFault? {
        return true;
      }
      socketFile := host.MkdTemp(true);
      socketDir := Some(socketFile);
      raised := false;
    }

    /** `_load_setting_registry`. */
    method LoadSettingRegistry() returns (at: Loaded)
      requires registry.Some? && host.Valid()
      modifies this`pidfile, this`socketFile, this`dbdir
      ensures at == Load(host.W(), registry.value)
      ensures at.Attached? ==> pidfile == at.pidfile && socketFile == at.socket && dbdir == at.dbdir
      ensures at.Absent? ==> State() == old(State())
    {
      if registry.value !in host.registry {
        return Absent;
      }
      var data := host.registry[registry.value];
      if data.Unreadable? || data.NotJson? {
        return Absent;
      }
      if data.NonObject? || data.TooDeep? {
        return Raises;
      }
      match data.pidfile {
        case Missing => return Absent;
        case Mistyped => return Raises;
        case Is(d) =>
          if d !in host.pidfile || host.pidfile[d].Garbled? || host.pidfile[d].n !in host.procs.live {
            return Absent;
          }
          pidfile := d;
          if data.unixsocket.None? {
            return Raises;
          }
          socketFile := data.unixsocket.value;
          if data.dbdir.None? {
            return Raises;
          }
          dbdir := data.dbdir.value;
          if !data.dbfilename {
            return Raises;
          }
          return Attached(pidfile, socketFile, dbdir);
      }
    }

    /** `_start_server`. */
    method StartServer(fault: Fault, up: bool) returns (ok: bool)
      requires host.Valid()
      modifies this`configFile, host, host.procs
      ensures host.Valid()
      ensures Start(host.W(), ok) == HostWorld.StartServer(old(host.W()), old(State()), fault, up)
      ensures host.procs.now == old(host.procs.now) && host.procs.naps == old(host.procs.naps)
      ensures ok <==> !fault.ConfFault? && !fault.BinaryFault? && !fault.LaunchFault?
      ensures ok ==> configFile == Some(dbdir)
    {
      if fault.ConfFault? && !fault.created {
        return false;
      }
      configFile := Some(dbdir);
      host.conf := host.conf + {dbdir};
      if fault.ConfFault? || fault.BinaryFault? || fault.LaunchFault? {
        return false;
      }
      if up {
        host.Spawn(dbdir, socketFile);
      }
      ok := true;
    }

    /** `_wait_until_ready`: an unreachable server refuses every PING. */
    method WaitUntilReady(replies: nat -> Reply) returns (ready: bool, polls: nat)
      modifies host, host.procs`now, host.procs`naps
      ensures ready <==> Reach(old(host.W()), socketFile) != 0 && polls > 0 && replies(polls - 1) == Pong
      ensures Reach(old(host.W()), socketFile) != 0 ==> forall k: nat :: k < polls - 1 ==>
          replies(k) in {Falsy, Refused}
      ensures startTimeout <= 10.0 ==> polls <= 100
      ensures host.procs.now >= old(host.procs.now)
      ensures !ready ==> GaveUp(host.procs.now - old(host.procs.now), startTimeout, replies)
      ensures !ready && (polls == 0 || Reach(old(host.W()), socketFile) == 0 || replies(polls - 1) != OtherError) ==>
                && host.procs.now >= old(host.procs.now) + startTimeout
                && host.procs.naps == old(host.procs.naps) + Naps(polls, 0.1)
      ensures ready ==> host.procs.naps == old(host.procs.naps) + Naps(polls - 1, 0.1)
      ensures ready ==> host.W() == Touch(old(host.W()), id, socketFile)
      ensures !ready ==> host.W() == old(host.W())
    {
      var pid := host.Reached(socketFile);
      var r;
      var answers := (k: nat) => if pid == 0 then Refused else replies(k);
      r, polls := host.procs.WaitUntilReady(startTimeout, answers);
      forall k: nat | pid != 0 && k < polls - 1 ensures replies(k) in {Falsy, Refused} {
        assert answers(k) in {Falsy, Refused};
      }
      ready := r.Ready?;
      if startTimeout <= 10.0 {
        PollsAreBounded(polls, startTimeout, 0.1, 100);
      }
      if ready {
        host.Attach(id, socketFile);
      }
    }

    /** `_save_setting_registry`. */
    method SaveSettingRegistry(fault: Fault) returns (raised: bool)
      requires registry.Some?
      modifies host
      ensures Start(host.W(), !raised) == SaveRegistry(old(host.W()), State(), fault)
      ensures raised == fault.RegistryFault? && (old(host.Valid()) ==> host.Valid())
    {
      if fault.RegistryFault? {
        if fault.created {
          host.registry := host.registry[registry.value := NotJson];
        }
        return true;
      }
      host.registry := host.registry[registry.value := Object(Is(pidfile), Some(socketFile), Some(dbdir), true)];
      raised := false;
    }

    /** The except block of `__init__`: tear down only what this attempt created. Its first call may
        raise; then nothing else is torn down. */
    method UndoInit(started: bool, plan: OpenPlan) returns (ending: Ending, polls: nat, stopped: bool)
      requires host.Valid()
      modifies host, host.procs
      ensures host.Valid() && polls <= 50
      ensures Patient(started && PidOf(old(host.W()), pidfile) != 0, host.procs.now - old(host.procs.now), 10.0,
                      plan.behaviour, plan.obstacle, ending, polls, stopped)
      ensures host.procs.naps == old(host.procs.naps) + Pauses(polls, 0.2, plan.behaviour, ending)
      ensures host.procs.now >= old(host.procs.now)
      ensures forall seen: OpenSeen :: seen.ending == ending && seen.undoRaises == stopped ==>
                && host.W() == Undo(old(host.W()), id, old(State()), started, seen)
                && RolledBack(host.procs.now - old(host.procs.now), plan, seen, polls)
    {
      hide RolledBack, Terminated, Halted, RmTree, Patient, Pauses;
      NothingTerminated(10.0, plan.behaviour, plan.obstacle, host.procs.naps);
      ending, polls, stopped := Quiet, 0, false;
      if started {
        var pid := ReadPid();
        ending, polls, stopped := Terminate(pid, plan.behaviour, plan.obstacle);
        AsRolledBack(pid != 0, host.procs.now - old(host.procs.now), plan, ending, polls, stopped);
        if stopped {
          return;
        }
        if registry.Some? {
          host.registry := host.registry - {registry.value};
        }
      }
      AsRolledBack(started && PidOf(old(host.W()), pidfile) != 0, host.procs.now - old(host.procs.now), plan,
                   ending, polls, stopped);
      if registry.None? {
        host.Remove(dbdir);
      }
      if socketDir.Some? {
        host.Remove(socketDir.value);
      }
      host.hooks := host.hooks - {id};
    }

    // ---- Shutdown ----

    /** The `pid` property. */
    method ReadPid() returns (pid: nat)
      ensures pid == PidOf(host.W(), pidfile)
    {
      pid := if pidfile in host.pidfile && host.pidfile[pidfile].Pid? && host.pidfile[pidfile].n in host.procs.live
             then host.pidfile[pidfile].n else 0;
    }

    /** `_terminate`: at most 50 polls in 10 s, then SIGTERM, then SIGKILL, always to the captured pid. No
        signal goes out before the 10 s are over, and none to a process that a poll saw exit. */
    method Terminate(pid: nat, b: Behaviour, o: Obstacle) returns (ending: Ending, polls: nat, raised: bool)
      requires host.Valid()
      modifies host, host.procs
      ensures host.Valid()
      ensures raised ==> pid != 0 && !o.Clear?
      ensures host.W() == if raised then Halted(old(host.W()), pid, ending) else Terminated(old(host.W()), pid, ending)
      ensures polls <= 50
      ensures Patient(pid != 0 && pid in old(host.procs.live), host.procs.now - old(host.procs.now), 10.0, b, o,
                      ending, polls, raised)
      ensures host.procs.naps == old(host.procs.naps) + Pauses(polls, 0.2, b, ending)
    {
      var existed := pid in host.procs.live;
      ending, polls, raised := host.procs.Terminate(pid, 10.0, 0.2, b, o);
      PollsAreBounded(polls, 10.0, 0.2, 50);
      if existed && (!raised || ending.ByTerm?) {
        if ending.ByTerm? && pid in host.daemons {
          host.Stop(pid, ending.saves);
        }
        host.daemons := host.daemons - {pid};
      }
    }

    /** `_connection_count`: the length of CLIENT LIST, 0 if the server cannot be reached. */
    method ConnectionCount(raises: bool) returns (n: nat, raised: bool)
      modifies host
      ensures host.W() == Touch(old(host.W()), id, socketFile)
      ensures raised == raises
      ensures !raised ==> n == HostWorld.ConnectionCount(host.W(), socketFile)
    {
      host.Attach(id, socketFile);
      var pid := host.Reached(socketFile);
      n, raised := if pid == 0 then 0 else |host.daemons[pid].conns|, raises;
    }

    /** `_cleanup`, which `close()` delegates to: release the client; the last user stops the server.
        A raising ownership check or process cleanup leaves `running` and the hook for a retry; the upstream
        close happens on every path. */
    method Cleanup(plan: ClosePlan) returns (raised: bool, seen: CloseSeen, polls: nat)
      requires host.Valid()
      modifies this, host, host.procs
      ensures host.Valid() && polls <= 50
      ensures seen.countRaises == plan.countRaises && seen.accepted == plan.accepted
      ensures Patient(old(running) && Escalates(old(host.W()), id, old(State()), plan.countRaises),
                      host.procs.now - old(host.procs.now), 10.0, plan.behaviour, plan.obstacle,
                      seen.ending, polls, seen.cleanupRaises)
      ensures host.procs.naps == old(host.procs.naps) + Pauses(polls, 0.2, plan.behaviour, seen.ending)
      ensures var r := Close(old(host.W()), id, old(State()), seen);
              host.W() == r.world && State() == r.client && raised == r.raised
    {
      hide Patient, Pauses, Escalates, HostWorld.StopServer, Interrupted;
      NothingTerminated(10.0, plan.behaviour, plan.obstacle, host.procs.naps);
      seen, polls := CloseSeen(plan.countRaises, plan.accepted, false, Quiet), 0;
      if !running {
        host.Release(id);
        return false, seen, 0;
      }
      raised, seen, polls := ElectAndStop(plan);
      hide Touch;
      if !raised {
        running := false;
        host.hooks := host.hooks - {id};
      }
      host.Release(id);
    }

    /** The try block of `_cleanup`: count, and if nobody else is connected stop the server. */
    method ElectAndStop(plan: ClosePlan) returns (raised: bool, seen: CloseSeen, polls: nat)
      requires host.Valid() && running
      modifies this`socketDir, host, host.procs
      ensures host.Valid() && polls <= 50
      ensures seen.countRaises == plan.countRaises && seen.accepted == plan.accepted
      ensures Patient(Escalates(old(host.W()), id, old(State()), plan.countRaises),
                      host.procs.now - old(host.procs.now), 10.0, plan.behaviour, plan.obstacle,
                      seen.ending, polls, seen.cleanupRaises)
      ensures host.procs.naps == old(host.procs.naps) + Pauses(polls, 0.2, plan.behaviour, seen.ending)
      ensures Closed(host.W(), State(), raised) == Elected(old(host.W()), id, old(State()), seen)
    {
      hide Patient, Pauses, HostWorld.StopServer, Interrupted;
      NothingTerminated(10.0, plan.behaviour, plan.obstacle, host.procs.naps);
      seen := CloseSeen(plan.countRaises, plan.accepted, false, Quiet);
      raised, polls := false, 0;
      var last := true;
      if registry.Some? {
        var n;
        n, raised := ConnectionCount(plan.countRaises);
        last := n <= 1;
      }
      if !raised && last {
        var ending;
        ending, polls, raised := StopServer(plan);
        seen := seen.(cleanupRaises := raised, ending := ending);
      }
    }

    /** The last user's part of `_cleanup`. The pid is captured before SHUTDOWN clears the pidfile. */
    method StopServer(plan: ClosePlan) returns (ending: Ending, polls: nat, raised: bool)
      requires host.Valid()
      modifies this`socketDir, host, host.procs
      ensures host.Valid() && polls <= 50
      ensures Patient(PidOf(old(host.W()), pidfile) != 0, host.procs.now - old(host.procs.now), 10.0,
                      plan.behaviour, plan.obstacle, ending, polls, raised)
      ensures host.procs.naps == old(host.procs.naps) + Pauses(polls, 0.2, plan.behaviour, ending)
      ensures var seen := CloseSeen(plan.countRaises, plan.accepted, raised, ending);
              && raised == CleanupRaises(old(host.W()), old(State()), seen)
              && host.W() == if raised then Interrupted(old(host.W()), old(State()), seen)
                             else HostWorld.StopServer(old(host.W()), old(State()), seen)
      ensures socketDir == if raised then old(socketDir) else None
    {
      hide Halted, Terminated, HostWorld.RemoveFiles;
      var pid := ReadPid();
      var answering := host.Reached(socketFile);
      if plan.accepted && answering != 0 {
        host.Stop(answering, registry.Some?);
      }
      assert host.W() == Shutdown(old(host.W()), socketFile, registry.Some?, plan.accepted);
      ending, polls, raised := Terminate(pid, plan.behaviour, plan.obstacle);
      if raised {
        if pid !in host.daemons {
          host.Vanish(pid);
        }
      } else {
        RemoveFiles();
      }
    }

    /** `_remove_files`: keep the RDB of a persistent server; a private tree goes as a whole. */
    method RemoveFiles()
      requires host.Valid()
      modifies this`socketDir, host
      ensures host.Valid() && host.W() == HostWorld.RemoveFiles(old(host.W()), old(State()))
      ensures socketDir == None
    {
      if registry.Some? {
        host.registry := host.registry - {registry.value};
        host.pidfile := host.pidfile - {pidfile};
        host.sockets := host.sockets - {socketFile};
        if configFile.Some? {
          host.conf := host.conf - {configFile.value};
        }
      } else {
        host.Remove(dbdir);
      }
      if socketDir.Some? {
        host.Remove(socketDir.value);
        socketDir := None;
      }
    }
  }
}
