/** The outside world of the embedded client as one value, and what each step of client.py does to it.

    A persistent database is named by its directory (one db filename per directory), so the registry
    (`<db>.settings`), `valkey.pid`, `valkey.socket`, `valkey.conf` and the RDB file are each a map or a
    set indexed by directory. The only processes are daemons; pids are never reused. */
module HostWorld {
  import opened Wrappers
  import opened Processes

  type ClientId = nat

  type Data = map<string, string>

  /** A directory: the user's, a private one from `mkdtemp(prefix="valkey_embedded-")`, or a short
      one from `mkdtemp(prefix="vkey-sock-")`. Paths are their encoded bytes, one char each. */
  datatype Dir = User(path: string) | Private(serial: nat) | SockTemp(serial: nat)

  datatype Pidfile = Pid(n: nat) | Garbled

  /** One field of the registry's JSON object; opening a value of the wrong type raises TypeError. */
  datatype Field = Missing | Mistyped | Is(dir: Dir)

  /** What reading the registry file yields. Parsing one that is nested `TooDeep` raises
      RecursionError. `Object` lists the recorded pidfile, socket and db directory by the directory
      each lies in; `dbfilename` says whether that key is present. */
  datatype Json =
    | Unreadable
    | NotJson
    | NonObject
    | TooDeep
    | Object(pidfile: Field, unixsocket: Option<Dir>, dbdir: Option<Dir>, dbfilename: bool)

  /** A serving daemon: its working directory, the directory of its socket, its dataset in memory
      and the connections that CLIENT LIST would show. */
  datatype Daemon = Daemon(dir: Dir, sock: Dir, data: Data, conns: multiset<ClientId>)

  datatype World = World(
    dirs: set<Dir>,
    registry: map<Dir, Json>,
    pidfile: map<Dir, Pidfile>,
    sockets: map<Dir, nat>,        // which pid bound the socket file
    conf: set<Dir>,
    rdb: map<Dir, Data>,
    live: set<nat>,                // processes that exist
    signals: seq<Sent>,
    daemons: map<nat, Daemon>,     // processes that serve
    hooks: set<ClientId>,          // registered atexit hooks
    nextPid: nat,
    nextTemp: nat,
    tempLen: nat)                  // length of a mkdtemp path

  /** The fields of one client object. `registry` is None for an isolated client. */
  datatype Client = Client(
    running: bool,
    registry: Option<Dir>,
    dbdir: Dir,
    pidfile: Dir,
    socket: Dir,
    sockDir: Option<Dir>,
    conf: Option<Dir>)

  // ---- Reading the world ----

  const SUN_PATH_LIMIT := 104
  const SOCKET_NAME := "valkey.socket"

  /** Length of os.path.join(dir, "valkey.socket"). */
  function SocketPathLen(dir: Dir, tempLen: nat): nat {
    match dir
    case User(path) =>
      |path| + (if path == "" || path[|path| - 1] == '/' then 0 else 1) + |SOCKET_NAME|
    case _ => tempLen + 1 + |SOCKET_NAME|
  }

  predicate Overflows(dir: Dir, tempLen: nat) {
    SocketPathLen(dir, tempLen) >= SUN_PATH_LIMIT
  }

  /** An explicit database path wins over the class attribute set by patching; "" counts as absent. */
  function Resolve(arg: Option<string>, attr: Option<string>): Option<Dir> {
    match arg
    case Some(path) => if path != "" then Some(User(path)) else ResolveAttr(attr)
    case None => ResolveAttr(attr)
  }

  function ResolveAttr(attr: Option<string>): Option<Dir> {
    match attr
    case Some(path) => Some(User(path))
    case None => None
  }

  /** The daemon pid from a pidfile, or 0. */
  function PidOf(w: World, dir: Dir): nat {
    if dir in w.pidfile && w.pidfile[dir].Pid? && w.pidfile[dir].n in w.live then w.pidfile[dir].n else 0
  }

  /** The pid that answers on the socket in this directory, or 0. */
  function Reach(w: World, sock: Dir): nat {
    if sock in w.sockets && w.sockets[sock] in w.daemons then w.sockets[sock] else 0
  }

  datatype Loaded = Absent | Attached(pidfile: Dir, socket: Dir, dbdir: Dir) | Raises

  /** Try to attach through the registry. OSError, ValueError and KeyError while reading the two files
      mean "no server"; a TypeError, a RecursionError, and a KeyError after the pid check, escape. */
  function Load(w: World, dir: Dir): Loaded {
    if dir !in w.registry then Absent else
    match w.registry[dir]
    case Unreadable => Absent
    case NotJson => Absent
    case NonObject => Raises
    case TooDeep => Raises
    case Object(pidfile, unixsocket, dbdir, dbfilename) =>
      match pidfile
      case Missing => Absent
      case Mistyped => Raises
      case Is(d) =>
        if PidOf(w, d) == 0 then Absent
        else if unixsocket.None? || dbdir.None? || !dbfilename then Raises
        else Attached(d, unixsocket.value, dbdir.value)
  }

  // ---- Files and processes ----

  function RmTree(w: World, d: Dir): World {
    w.(dirs := w.dirs - {d}, registry := w.registry - {d}, pidfile := w.pidfile - {d},
       sockets := w.sockets - {d}, conf := w.conf - {d}, rdb := w.rdb - {d})
  }

  function RmTreeOpt(w: World, d: Option<Dir>): World {
    if d.Some? then RmTree(w, d.value) else w
  }

  /** What the RDB file of a directory holds. */
  function OnDisk(w: World, d: Dir): Data {
    if d in w.rdb then w.rdb[d] else map[]
  }

  /** A fresh daemon comes up: it loads the RDB, writes its pidfile and binds its socket. */
  function Launch(w: World, dir: Dir, sock: Dir): World {
    w.(live := w.live + {w.nextPid},
       daemons := w.daemons[w.nextPid := Daemon(dir, sock, OnDisk(w, dir), multiset{})],
       pidfile := w.pidfile[dir := Pid(w.nextPid)],
       sockets := w.sockets[sock := w.nextPid],
       nextPid := w.nextPid + 1)
  }

  /** A daemon stops serving in an orderly way: it may save, then removes its pidfile and socket. */
  function StopServing(w: World, pid: nat, save: bool): World
    requires pid in w.daemons
  {
    var d := w.daemons[pid];
    w.(daemons := w.daemons - {pid},
       rdb := if save then w.rdb[d.dir := d.data] else w.rdb,
       pidfile := w.pidfile - {d.dir},
       sockets := w.sockets - {d.sock})
  }

  /** A process is gone, whatever it was doing; its files stay. */
  function Exit(w: World, pid: nat): World {
    w.(live := w.live - {pid}, daemons := w.daemons - {pid})
  }

  /** SHUTDOWN on the socket: an accepted one makes the daemon stop serving; its process lingers. */
  function Shutdown(w: World, sock: Dir, save: bool, accepted: bool): World {
    if accepted && Reach(w, sock) != 0 then StopServing(w, Reach(w, sock), save) else w
  }

  /** `_terminate` of one pid: the process is gone, signals went out as the ending says, and a daemon
      that yielded to SIGTERM stopped in an orderly way. */
  function Terminated(w: World, pid: nat, ending: Ending): World {
    if pid !in w.live then w else
    var w1 := w.(signals := w.signals + Delivered(ending, pid));
    var w2 := if ending.ByTerm? && pid in w.daemons then StopServing(w1, pid, ending.saves) else w1;
    Exit(w2, pid)
  }

  /** `_terminate` of one pid that raises on the way: before any signal, after a SIGTERM that ended the
      process, or after a SIGTERM that it resisted. */
  function Halted(w: World, pid: nat, ending: Ending): World {
    if pid !in w.live then w else
    var w1 := w.(signals := w.signals + if ending.Quiet? then [] else [Sent(TERM, pid)]);
    if !ending.ByTerm? then w1
    else Exit(if pid in w.daemons then StopServing(w1, pid, ending.saves) else w1, pid)
  }

  /** A client that talks to its daemon holds at least one connection. */
  function Touch(w: World, id: ClientId, sock: Dir): World {
    var pid := Reach(w, sock);
    if pid == 0 || id in w.daemons[pid].conns then w else
    w.(daemons := w.daemons[pid := w.daemons[pid].(conns := w.daemons[pid].conns + multiset{id})])
  }

  /** A daemon without the connections of one client. */
  function Parted(d: Daemon, id: ClientId): Daemon {
    d.(conns := d.conns[id := 0])
  }

  /** Upstream close: every connection of this client goes away. */
  function Disconnect(w: World, id: ClientId): World {
    w.(daemons := map p | p in w.daemons :: Parted(w.daemons[p], id))
  }

  // ---- Opening a client ----

  /** A failure injected into opening, in the order in which opening meets them. `created` says whether
      the file had been created (and truncated) before the write failed. */
  datatype Fault =
    | NoFault
    | DirFault
    | SocketDirFault
    | ConfFault(created: bool)
    | BinaryFault
    | LaunchFault
    | RegistryFault(created: bool)
    | ClientFault

  /** What the outside did while a client opened: the injected fault, whether the launched daemon came
      up, whether PING was answered in time, whether terminating a daemon during the rollback raised, and
      how that daemon ended, or how far the escalation got. */
  datatype OpenSeen = OpenSeen(fault: Fault, up: bool, ready: bool, undoRaises: bool, ending: Ending)

  datatype Opened = Opened(world: World, client: Option<Client>)

  /** Directories: create the user's or a private one. */
  function PrepareDir(w: World, target: Option<Dir>): (World, Dir) {
    match target
    case Some(d) => (w.(dirs := w.dirs + {d}), d)
    case None =>
      var d := Private(w.nextTemp);
      (w.(dirs := w.dirs + {d}, nextTemp := w.nextTemp + 1), d)
  }

  /** Where the socket goes: under the directory, or in a fresh short one if the path is too long. */
  function PrepareSocket(w: World, dir: Dir): (World, Dir, Option<Dir>) {
    if Overflows(dir, w.tempLen) then
      var s := SockTemp(w.nextTemp);
      (w.(dirs := w.dirs + {s}, nextTemp := w.nextTemp + 1), s, Some(s))
    else (w, dir, None)
  }

  datatype Start = Start(world: World, ok: bool)

  /** `_start_server`: write valkey.conf, find the binary, launch. */
  function StartServer(w: World, c: Client, fault: Fault, up: bool): Start {
    match fault
    case ConfFault(created) =>
      Start(if created then w.(conf := w.conf + {c.dbdir}) else w, false)
    case BinaryFault => Start(w.(conf := w.conf + {c.dbdir}), false)
    case LaunchFault => Start(w.(conf := w.conf + {c.dbdir}), false)
    case _ =>
      var w1 := w.(conf := w.conf + {c.dbdir});
      Start(if up then Launch(w1, c.dbdir, c.socket) else w1, true)
  }

  /** `_save_setting_registry`. */
  function SaveRegistry(w: World, c: Client, fault: Fault): Start
    requires c.registry.Some?
  {
    if fault.RegistryFault? then
      Start(if fault.created then w.(registry := w.registry[c.registry.value := NotJson]) else w, false)
    else
      var entry := Object(Is(c.pidfile), Some(c.socket), Some(c.dbdir), true);
      Start(w.(registry := w.registry[c.registry.value := entry]), true)
  }

  /** The whole except block of `__init__`. */
  function Rollback(w: World, id: ClientId, c: Client, started: bool, ending: Ending): World {
    var w1 := if started then Terminated(w, PidOf(w, c.pidfile), ending) else w;
    var w2 := if started && c.registry.Some? then w1.(registry := w1.registry - {c.registry.value}) else w1;
    var w3 := if c.registry.None? then RmTree(w2, c.dbdir) else w2;
    var w4 := RmTreeOpt(w3, c.sockDir);
    w4.(hooks := w4.hooks - {id})
  }

  /** The except block as it happens: if its first call, which terminates a started daemon, raises, the
      rest is skipped. */
  function Undo(w: World, id: ClientId, c: Client, started: bool, seen: OpenSeen): World {
    if started && seen.undoRaises && PidOf(w, c.pidfile) != 0 then Halted(w, PidOf(w, c.pidfile), seen.ending)
    else Rollback(w, id, c, started, seen.ending)
  }

  /** Client construction and the readiness poll, after attaching or starting. */
  function Connect(w: World, id: ClientId, c: Client, started: bool, seen: OpenSeen): Opened {
    if !seen.fault.ClientFault? && seen.ready && Reach(w, c.socket) != 0 then
      Opened(Touch(w, id, c.socket), Some(c.(running := true)))
    else
      Opened(Undo(w, id, c, started, seen), None)
  }

  /** The attached branch: adopt the recorded paths and drop the unused fallback directory. */
  function Adopt(w: World, c: Client, at: Loaded): (World, Client)
    requires at.Attached?
  {
    (RmTreeOpt(w, c.sockDir),
     c.(pidfile := at.pidfile, socket := at.socket, dbdir := at.dbdir, sockDir := None))
  }

  /** The starting branch. */
  function StartAndConnect(w: World, id: ClientId, c: Client, seen: OpenSeen): Opened {
    var s := StartServer(w, c, seen.fault, seen.up);
    if !s.ok then Opened(Rollback(s.world, id, c, false, seen.ending), None) else
    var c1 := c.(conf := Some(c.dbdir));
    if c.registry.None? then Connect(s.world, id, c1, true, seen) else
    var r := SaveRegistry(s.world, c1, seen.fault);
    if !r.ok then Opened(Undo(r.world, id, c1, true, seen), None)
    else Connect(r.world, id, c1, true, seen)
  }

  /** Everything before the try block except the hook: directories, paths, socket placement. */
  function Prepare(w: World, target: Option<Dir>, fault: Fault): Opened {
    if fault.DirFault? then Opened(w, None) else
    var (w1, dir) := PrepareDir(w, target);
    if fault.SocketDirFault? && Overflows(dir, w1.tempLen) then Opened(w1, None) else
    var (w2, sock, sockDir) := PrepareSocket(w1, dir);
    Opened(w2, Some(Client(false, target, dir, dir, sock, sockDir, None)))
  }

  /** The try block: attach or start, then connect. */
  function AttachOrStart(w: World, id: ClientId, c: Client, seen: OpenSeen): Opened {
    var at := if c.registry.Some? then Load(w, c.registry.value) else Absent;
    match at
    case Raises => Opened(Rollback(w, id, c, false, seen.ending), None)
    case Attached(_, _, _) =>
      var (w1, c1) := Adopt(w, c, at);
      Connect(w1, id, c1, false, seen)
    case Absent => StartAndConnect(w, id, c, seen)
  }

  /** An attempt that launched a daemon, failed afterwards, and raised again while terminating it. */
  predicate UndoStops(w: World, target: Option<Dir>, seen: OpenSeen) {
    && Prepare(w, target, seen.fault).client.Some?
    && (target.Some? ==> Load(w, target.value).Absent?)
    && StopsAfterStart(target, seen)
  }

  predicate StopsAfterStart(registry: Option<Dir>, seen: OpenSeen) {
    && seen.up && seen.undoRaises
    && !seen.fault.ConfFault? && !seen.fault.BinaryFault? && !seen.fault.LaunchFault?
    && ((registry.Some? && seen.fault.RegistryFault?) || seen.fault.ClientFault? || !seen.ready)
  }

  /** Such an attempt whose registry was not written, and whose daemon lives on: nothing names it. */
  predicate LosesServer(w: World, target: Option<Dir>, seen: OpenSeen) {
    UndoStops(w, target, seen) && target.Some? && seen.fault.RegistryFault? && !seen.ending.ByTerm?
  }

  /** The failures that leave something behind: the private directory of an isolated client, if its socket
      directory cannot be made; everything, if the rollback itself raises. */
  predicate Leaks(w: World, target: Option<Dir>, seen: OpenSeen) {
    || (target.None? && seen.fault.SocketDirFault? && Overflows(Private(w.nextTemp), w.tempLen))
    || UndoStops(w, target, seen)
  }

  /** `ValkeyMixin.__init__` for one fresh client. */
  function Open(w: World, id: ClientId, target: Option<Dir>, seen: OpenSeen): Opened {
    var p := Prepare(w, target, seen.fault);
    if p.client.None? then p else
    AttachOrStart(p.world.(hooks := p.world.hooks + {id}), id, p.client.value, seen)
  }

  // ---- Closing a client ----

  /** What the outside did while a client closed: whether CLIENT LIST raised something other than
      ConnectionError, whether SHUTDOWN was accepted, whether looking at or signalling the daemon's
      process raised something other than NoSuchProcess, and how the process ended otherwise. */
  datatype CloseSeen = CloseSeen(countRaises: bool, accepted: bool, cleanupRaises: bool, ending: Ending)

  datatype Closed = Closed(world: World, client: Client, raised: bool)

  /** `_connection_count` once the asking client is connected. */
  function ConnectionCount(w: World, sock: Dir): nat {
    var pid := Reach(w, sock);
    if pid == 0 then 0 else |w.daemons[pid].conns|
  }

  /** `_remove_files`. */
  function RemoveFiles(w: World, c: Client): World {
    var w1 :=
      if c.registry.Some? then
        w.(registry := w.registry - {c.registry.value}, pidfile := w.pidfile - {c.pidfile},
           sockets := w.sockets - {c.socket},
           conf := if c.conf.Some? then w.conf - {c.conf.value} else w.conf)
      else RmTree(w, c.dbdir);
    RmTreeOpt(w1, c.sockDir)
  }

  /** The last user's part of `_cleanup`: shut the daemon down and remove its files. */
  function StopServer(w: World, c: Client, seen: CloseSeen): World {
    var pid := PidOf(w, c.pidfile);
    var w1 := Shutdown(w, c.socket, c.registry.Some?, seen.accepted);
    RemoveFiles(Terminated(w1, pid, seen.ending), c)
  }

  /** `_terminate` of the captured pid raises; pid 0 is not looked at. */
  predicate CleanupRaises(w: World, c: Client, seen: CloseSeen) {
    seen.cleanupRaises && PidOf(w, c.pidfile) != 0
  }

  /** The last user's part of `_cleanup` when it raises: SHUTDOWN went out, the escalation got as far as
      the ending says, no file was removed. A daemon that accepted SHUTDOWN exits by itself. */
  function Interrupted(w: World, c: Client, seen: CloseSeen): World {
    var pid := PidOf(w, c.pidfile);
    var w1 := Halted(Shutdown(w, c.socket, c.registry.Some?, seen.accepted), pid, seen.ending);
    if pid in w1.daemons then w1 else Exit(w1, pid)
  }

  /** `_cleanup`. */
  function Close(w: World, id: ClientId, c: Client, seen: CloseSeen): Closed {
    if !c.running then Closed(Disconnect(w, id), c, false) else
    var w1 := if c.registry.Some? then Touch(w, id, c.socket) else w;
    if c.registry.Some? && seen.countRaises then Closed(Disconnect(w1, id), c, true) else
    var last := c.registry.None? || ConnectionCount(w1, c.socket) <= 1;
    if last && CleanupRaises(w1, c, seen) then Closed(Disconnect(Interrupted(w1, c, seen), id), c, true) else
    var w2 := if last then StopServer(w1, c, seen) else w1;
    var c2 := if last then c.(sockDir := None) else c;
    Closed(Disconnect(w2.(hooks := w2.hooks - {id}), id), c2.(running := false), false)
  }
}
