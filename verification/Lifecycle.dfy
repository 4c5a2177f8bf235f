/** Runs of any number of clients, and the invariant that every run keeps: whatever fails, crashes or
    loses its connections, the files, the daemons, the hooks and the clients agree. */
module Lifecycle {
  import opened Wrappers
  import opened Processes
  import opened HostWorld

  // ---- The machine with its clients ----

  datatype System = System(world: World, clients: map<ClientId, Client>)

  /** One step of a run. Opens and closes of different clients are atomic. The last five are done by
      the outside: connections opened or dropped behind the package's back, connections of programs
      that are not embedded clients, background saves, crashed daemons, killed client processes. */
  datatype Event =
    | OpenClient(id: ClientId, target: Option<Dir>, openSeen: OpenSeen)
    | CloseClient(id: ClientId, closeSeen: CloseSeen)
    | SetKey(id: ClientId, key: string, value: string)
    | GetKey(id: ClientId, key: string)
    | MoreConnections(id: ClientId)
    | DropConnections(id: ClientId)
    | ForeignConnection(id: ClientId, pid: nat)
    | BackgroundSave(pid: nat)
    | DaemonCrash(pid: nat)
    | ClientKilled(id: ClientId)

  predicate Running(s: System, id: ClientId) {
    id in s.clients && s.clients[id].running
  }

  /** An identity nobody uses yet. */
  predicate Unknown(s: System, id: ClientId) {
    && id !in s.clients && id !in s.world.hooks
    && forall p <- s.world.daemons :: id !in s.world.daemons[p].conns
  }

  predicate Openable(s: System, id: ClientId, target: Option<Dir>) {
    Unknown(s, id) && (target.Some? ==> target.value.User?)
  }

  /** Any step but an open that leaves a live daemon nothing names. */
  predicate Enabled(s: System, e: Event) {
    match e
    case OpenClient(id, target, seen) => Openable(s, id, target) && !LosesServer(s.world, target, seen)
    case CloseClient(id, _) => id in s.clients
    case SetKey(id, _, _) => Running(s, id)
    case GetKey(id, _) => Running(s, id)
    case MoreConnections(id) => Running(s, id)
    case DropConnections(_) => true
    case ForeignConnection(id, pid) => Unknown(s, id) && pid in s.world.daemons
    case BackgroundSave(pid) => pid in s.world.daemons
    case DaemonCrash(pid) => pid in s.world.daemons
    case ClientKilled(id) => Running(s, id)
  }

  /** One more connection to a serving daemon. */
  function AddConnection(w: World, id: ClientId, pid: nat): World
    requires pid in w.daemons
  {
    w.(daemons := w.daemons[pid := w.daemons[pid].(conns := w.daemons[pid].conns + multiset{id})])
  }

  /** SET on the daemon behind a socket; nothing happens if none answers. */
  function Write(w: World, sock: Dir, key: string, value: string): World {
    var pid := Reach(w, sock);
    if pid == 0 then w else
    w.(daemons := w.daemons[pid := w.daemons[pid].(data := w.daemons[pid].data[key := value])])
  }

  function Step(s: System, e: Event): System
    requires Enabled(s, e)
  {
    var w := s.world;
    match e
    case OpenClient(id, target, seen) =>
      var r := Open(w, id, target, seen);
      System(r.world, if r.client.Some? then s.clients[id := r.client.value] else s.clients)
    case CloseClient(id, seen) =>
      var r := Close(w, id, s.clients[id], seen);
      System(r.world, s.clients[id := r.client])
    case SetKey(id, key, value) =>
      var sock := s.clients[id].socket;
      s.(world := Write(Touch(w, id, sock), sock, key, value))
    case GetKey(id, _) => s.(world := Touch(w, id, s.clients[id].socket))
    case MoreConnections(id) =>
      var pid := Reach(w, s.clients[id].socket);
      if pid == 0 then s else s.(world := AddConnection(w, id, pid))
    case DropConnections(id) => s.(world := Disconnect(w, id))
    case ForeignConnection(id, pid) => s.(world := AddConnection(w, id, pid))
    case BackgroundSave(pid) => s.(world := w.(rdb := w.rdb[w.daemons[pid].dir := w.daemons[pid].data]))
    case DaemonCrash(pid) => s.(world := Exit(w, pid))
    case ClientKilled(id) =>
      System(Disconnect(w.(hooks := w.hooks - {id}), id), s.clients - {id})
  }

  /** This close raises: its ownership check or its process cleanup did. */
  predicate CloseRaises(s: System, id: ClientId, seen: CloseSeen)
    requires id in s.clients
  {
    Close(s.world, id, s.clients[id], seen).raised
  }

  type Closing = (ClientId, CloseSeen)

  /** A sequence of closes none of which raises. */
  predicate AllFinish(s: System, cs: seq<Closing>)
    decreases |cs|
  {
    cs == [] || (cs[0].0 in s.clients && !CloseRaises(s, cs[0].0, cs[0].1)
                 && AllFinish(Step(s, CloseClient(cs[0].0, cs[0].1)), cs[1..]))
  }

  function CloseAll(s: System, cs: seq<Closing>): System
    requires AllFinish(s, cs)
    decreases |cs|
  {
    if cs == [] then s else CloseAll(Step(s, CloseClient(cs[0].0, cs[0].1)), cs[1..])
  }

  function Closers(cs: seq<Closing>): set<ClientId> {
    set c | c in cs :: c.0
  }

  predicate EnabledRun(s: System, es: seq<Event>)
    decreases |es|
  {
    es == [] || (Enabled(s, es[0]) && EnabledRun(Step(s, es[0]), es[1..]))
  }

  function Run(s: System, es: seq<Event>): System
    requires EnabledRun(s, es)
    decreases |es|
  {
    if es == [] then s else Run(Step(s, es[0]), es[1..])
  }

  // ---- The invariant ----

  /** What the package writes into a registry. */
  function Entry(dir: Dir, sock: Dir): Json {
    Object(Is(dir), Some(sock), Some(dir), true)
  }

  /** Temp directories not handed out yet. */
  predicate Fresh(w: World, d: Dir) {
    (d.Private? || d.SockTemp?) && d.serial >= w.nextTemp
  }

  predicate Unused(w: World, d: Dir) {
    d !in w.dirs && d !in w.registry && d !in w.pidfile && d !in w.sockets && d !in w.conf && d !in w.rdb
  }

  /** A serving daemon owns its pidfile and socket; a shared one is named by its registry, except in a
      directory `x` whose registry is about to be written. */
  predicate DaemonOk(w: World, p: nat, x: Option<Dir>)
    requires p in w.daemons
  {
    var d := w.daemons[p];
    && d.dir in w.pidfile && w.pidfile[d.dir] == Pid(p)
    && d.sock in w.sockets && w.sockets[d.sock] == p
    && d.dir in w.dirs && d.sock in w.dirs && !d.dir.SockTemp?
    && (if Overflows(d.dir, w.tempLen) then d.sock.SockTemp? else d.sock == d.dir)
    && (d.dir.User? && x != Some(d.dir) ==> d.dir in w.registry && w.registry[d.dir] == Entry(d.dir, d.sock))
  }

  /** A registry is one the package wrote, or does not parse. */
  predicate RegistryOk(j: Json, d: Dir) {
    !j.NonObject? && !j.TooDeep? && (j.Object? ==> j.unixsocket.Some? && j == Entry(d, j.unixsocket.value))
  }

  /** The files agree with the processes. */
  ghost predicate WorldInv(w: World, x: Option<Dir>) {
    && 0 < w.nextPid && w.live == w.daemons.Keys
    && (forall p <- w.daemons :: 0 < p < w.nextPid && DaemonOk(w, p, x))
    && (forall d <- w.rdb :: !d.SockTemp?)
    && (forall d <- w.pidfile :: !d.SockTemp?)
    && (forall d <- w.pidfile :: w.pidfile[d].Pid? ==>
          w.pidfile[d].n < w.nextPid && (w.pidfile[d].n in w.daemons ==> w.daemons[w.pidfile[d].n].dir == d))
    && (forall d <- w.sockets ::
          w.sockets[d] < w.nextPid && (w.sockets[d] in w.daemons ==> w.daemons[w.sockets[d]].sock == d))
    && (forall d <- w.registry :: d.User? && RegistryOk(w.registry[d], d))
    && (forall d :: Fresh(w, d) ==> Unused(w, d))
  }

  /** A daemon answering on this client's socket serves this client's directory. */
  ghost predicate OwnSocket(w: World, c: Client) {
    forall p <- w.daemons :: w.daemons[p].sock == c.socket ==> w.daemons[p].dir == c.dbdir
  }

  ghost predicate ClientOk(w: World, c: Client) {
    && c.pidfile == c.dbdir && c.dbdir in w.dirs && !Fresh(w, c.socket)
    && (if c.registry.Some? then c.registry == Some(c.dbdir) && c.dbdir.User? else c.dbdir.Private?)
    && (if Overflows(c.dbdir, w.tempLen) then c.socket.SockTemp? else c.socket == c.dbdir)
    && (c.sockDir.Some? ==> c.sockDir == Some(c.socket) && c.socket.SockTemp?)
    && (c.registry.None? && c.socket.SockTemp? ==> c.sockDir.Some?)
    && (c.conf.Some? ==> c.conf == Some(c.dbdir))
    && OwnSocket(w, c)
  }

  function RunningIds(s: System): set<ClientId> {
    set id | id in s.clients && s.clients[id].running
  }

  /** Hooks that belong to no running client: an attempt whose rollback raised left them. */
  function Strays(s: System): set<ClientId> {
    s.world.hooks - RunningIds(s)
  }

  ghost predicate Distinct(s: System) {
    forall i, j :: Running(s, i) && Running(s, j) && i != j && s.clients[i].registry.None? ==>
      s.clients[i].dbdir != s.clients[j].dbdir
  }

  /** Connections of embedded clients go to the daemon of their socket. */
  ghost predicate ConnectionsOk(s: System) {
    forall p <- s.world.daemons, id <- s.world.daemons[p].conns ::
      id in s.clients ==> Running(s, id) && s.clients[id].socket == s.world.daemons[p].sock
  }

  ghost predicate Inv(s: System) {
    && WorldInv(s.world, None)
    && RunningIds(s) <= s.world.hooks && Strays(s) !! s.clients.Keys
    && (forall id :: Running(s, id) ==> ClientOk(s.world, s.clients[id]))
    && Distinct(s)
    && ConnectionsOk(s)
  }

  /** The machine before any client: database files, possibly stale files of earlier crashes. */
  ghost predicate Initial(s: System) {
    && s.clients == map[] && s.world.hooks == {} && s.world.daemons == map[]
    && WorldInv(s.world, None)
  }

  lemma InitialInv(s: System)
    requires Initial(s)
    ensures Inv(s)
  {
  }

  // ---- World steps keep the world part ----

  lemma RmTreeKeeps(w: World, d: Dir, x: Option<Dir>)
    requires WorldInv(w, x)
    requires forall p <- w.daemons :: w.daemons[p].dir != d && w.daemons[p].sock != d
    ensures WorldInv(RmTree(w, d), x)
  {
    var v := RmTree(w, d);
    forall p <- v.daemons ensures DaemonOk(v, p, x) {
      assert DaemonOk(w, p, x);
    }
    forall f | Fresh(v, f) ensures Unused(v, f) {
      assert Fresh(w, f);
    }
  }

  /** A daemon that went down, orderly or not, with or without saving. */
  function Down(w: World, p: nat, saved: bool, tidy: bool, signals: seq<Sent>): World
    requires p in w.daemons
  {
    var d := w.daemons[p];
    w.(live := w.live - {p}, daemons := w.daemons - {p}, signals := signals,
       rdb := if saved then w.rdb[d.dir := d.data] else w.rdb,
       pidfile := if tidy then w.pidfile - {d.dir} else w.pidfile,
       sockets := if tidy then w.sockets - {d.sock} else w.sockets)
  }

  lemma DownKeeps(w: World, p: nat, saved: bool, tidy: bool, signals: seq<Sent>, x: Option<Dir>)
    requires WorldInv(w, x) && p in w.daemons && (x.Some? ==> x.value == w.daemons[p].dir)
    ensures WorldInv(Down(w, p, saved, tidy, signals), None)
  {
    var v := Down(w, p, saved, tidy, signals);
    assert DaemonOk(w, p, x);
    forall q <- v.daemons ensures DaemonOk(v, q, None) {
      assert DaemonOk(w, q, x);
    }
    forall f | Fresh(v, f) ensures Unused(v, f) {
      assert Fresh(w, f) && w.daemons[p].dir in w.dirs;
    }
  }

  /** A directory has a serving daemon exactly when its pidfile names one. */
  lemma ServedIffPid(w: World, d: Dir, x: Option<Dir>)
    requires WorldInv(w, x)
    ensures PidOf(w, d) == 0 <==> forall p <- w.daemons :: w.daemons[p].dir != d
  {
    forall p <- w.daemons ensures w.daemons[p].dir == d ==> PidOf(w, d) == p {
      assert DaemonOk(w, p, x);
    }
  }

  /** More directories and fewer unused temp names change nothing else. */
  lemma MoreDirsKeep(w: World, dirs: set<Dir>, nextTemp: nat, x: Option<Dir>)
    requires WorldInv(w, x) && w.dirs <= dirs && w.nextTemp <= nextTemp
    requires forall d <- dirs :: d in w.dirs || !Fresh(w.(nextTemp := nextTemp), d)
    ensures WorldInv(w.(dirs := dirs, nextTemp := nextTemp), x)
  {
    var v := w.(dirs := dirs, nextTemp := nextTemp);
    forall p <- v.daemons ensures DaemonOk(v, p, x) {
      assert DaemonOk(w, p, x);
    }
    forall f | Fresh(v, f) ensures Unused(v, f) {
      assert Fresh(w, f);
    }
  }

  /** No daemon touches a directory that is still unused. */
  lemma NoDaemonIfFresh(w: World, d: Dir, x: Option<Dir>)
    requires WorldInv(w, x) && Fresh(w, d)
    ensures d !in w.dirs
    ensures forall p <- w.daemons :: w.daemons[p].dir != d && w.daemons[p].sock != d
  {
    assert Unused(w, d);
    forall p <- w.daemons ensures w.daemons[p].dir != d && w.daemons[p].sock != d {
      assert DaemonOk(w, p, x);
    }
  }

  /** A socket that lies in a database directory is that directory's own. */
  lemma SocketInPlace(w: World, d: Dir, x: Option<Dir>)
    requires WorldInv(w, x) && !d.SockTemp?
    ensures forall p <- w.daemons :: w.daemons[p].sock == d ==> w.daemons[p].dir == d
  {
    forall p <- w.daemons ensures w.daemons[p].sock == d ==> w.daemons[p].dir == d {
      assert DaemonOk(w, p, x);
    }
  }

  lemma PrepareKeeps(w: World, target: Option<Dir>, fault: Fault)
    requires WorldInv(w, None) && (target.Some? ==> target.value.User?)
    ensures var r := Prepare(w, target, fault);
            && WorldInv(r.world, None)
            && w.dirs <= r.world.dirs && w.nextTemp <= r.world.nextTemp
            && r.world == w.(dirs := r.world.dirs, nextTemp := r.world.nextTemp)
            && (forall d <- r.world.dirs - w.dirs :: d.User? || Fresh(w, d))
    ensures var r := Prepare(w, target, fault);
            r.client.Some? ==>
              var c := r.client.value;
              && ClientOk(r.world, c) && c.registry == target && c.socket in r.world.dirs
              && (target.None? ==> Fresh(w, c.dbdir))
              && (if c.sockDir.Some? then Fresh(w, c.socket) else c.socket == c.dbdir)
  {
    hide WorldInv, ClientOk, PrepareDir, PrepareSocket;
    if fault.DirFault? {
      return;
    }
    PrepareDirKeeps(w, target);
    var (w1, dir) := PrepareDir(w, target);
    PrepareSocketKeeps(w1, dir, target);
    var r := Prepare(w, target, fault);
    forall d | d in r.world.dirs - w.dirs ensures d.User? || Fresh(w, d) {
      assert d == dir || d in r.world.dirs - w1.dirs;
    }
  }

  lemma PrepareDirKeeps(w: World, target: Option<Dir>)
    requires WorldInv(w, None) && (target.Some? ==> target.value.User?)
    ensures var (w1, dir) := PrepareDir(w, target);
            && WorldInv(w1, None) && w1.dirs == w.dirs + {dir} && w.nextTemp <= w1.nextTemp
            && w1 == w.(dirs := w1.dirs, nextTemp := w1.nextTemp)
            && (target.Some? ==> dir == target.value)
            && (target.None? ==> dir.Private? && Fresh(w, dir) && dir.serial < w1.nextTemp && Unserved(w1, dir))
  {
    hide WorldInv;
    var (w1, dir) := PrepareDir(w, target);
    MoreDirsKeep(w, w1.dirs, w1.nextTemp, None);
    if target.None? {
      NoDaemonIfFresh(w, dir, None);
    }
  }

  /** No daemon has this directory as its own or as its socket's. */
  ghost predicate Unserved(w: World, d: Dir) {
    forall p <- w.daemons :: w.daemons[p].dir != d && w.daemons[p].sock != d
  }

  lemma PrepareSocketKeeps(w: World, dir: Dir, target: Option<Dir>)
    requires WorldInv(w, None) && dir in w.dirs
    requires target.Some? ==> dir == target.value && dir.User?
    requires target.None? ==> dir.Private? && dir.serial < w.nextTemp && Unserved(w, dir)
    ensures var (v, sock, sockDir) := PrepareSocket(w, dir);
            && WorldInv(v, None) && w.dirs <= v.dirs && w.nextTemp <= v.nextTemp
            && v == w.(dirs := v.dirs, nextTemp := v.nextTemp)
            && (forall d <- v.dirs - w.dirs :: Fresh(w, d)) && sock in v.dirs
            && (if sockDir.Some? then Fresh(w, sock) else sock == dir)
            && ClientOk(v, Client(false, target, dir, dir, sock, sockDir, None))
  {
    hide WorldInv, ClientOk;
    var (v, sock, sockDir) := PrepareSocket(w, dir);
    MoreDirsKeep(w, v.dirs, v.nextTemp, None);
    if sockDir.Some? {
      NoDaemonIfFresh(w, sock, None);
    } else {
      SocketInPlace(w, dir, None);
      DirIsKnown(w, dir, target);
    }
    PreparedClientOk(w, v, dir, target, sock, sockDir);
  }

  lemma DirIsKnown(w: World, dir: Dir, target: Option<Dir>)
    requires if target.Some? then dir == target.value && dir.User? else dir.Private? && dir.serial < w.nextTemp
    ensures !Fresh(w, dir)
  {
  }

  lemma PreparedClientOk(w: World, v: World, dir: Dir, target: Option<Dir>, sock: Dir, sockDir: Option<Dir>)
    requires if target.Some? then dir == target.value && dir.User? else dir.Private?
    requires dir in w.dirs && (v, sock, sockDir) == PrepareSocket(w, dir)
    requires if sockDir.Some? then Unserved(w, sock)
             else !Fresh(w, dir) && forall p <- w.daemons :: w.daemons[p].sock == dir ==> w.daemons[p].dir == dir
    ensures ClientOk(v, Client(false, target, dir, dir, sock, sockDir, None))
  {
  }

  /** Datasets and connections may change; directories and sockets of daemons may not. */
  ghost predicate SameShape(w: World, v: World) {
    && v == w.(daemons := v.daemons) && v.daemons.Keys == w.daemons.Keys
    && forall p <- w.daemons :: v.daemons[p].dir == w.daemons[p].dir && v.daemons[p].sock == w.daemons[p].sock
  }

  lemma ShapeKeeps(w: World, v: World, x: Option<Dir>)
    requires WorldInv(w, x) && SameShape(w, v)
    ensures WorldInv(v, x)
  {
    forall p <- v.daemons ensures DaemonOk(v, p, x) {
      assert DaemonOk(w, p, x);
    }
    forall f | Fresh(v, f) ensures Unused(v, f) {
      assert Fresh(w, f);
    }
  }

  lemma TouchShape(w: World, id: ClientId, sock: Dir)
    ensures SameShape(w, Touch(w, id, sock))
  {
  }

  lemma DisconnectShape(w: World, id: ClientId)
    ensures SameShape(w, Disconnect(w, id))
  {
    assert Disconnect(w, id).daemons.Keys == w.daemons.Keys;
  }

  lemma WriteShape(w: World, sock: Dir, key: string, value: string)
    ensures SameShape(w, Write(w, sock, key, value))
  {
  }

  lemma ConfKeeps(w: World, d: Dir, x: Option<Dir>)
    requires WorldInv(w, x) && d in w.dirs
    ensures WorldInv(w.(conf := w.conf + {d}), x)
  {
    var v := w.(conf := w.conf + {d});
    forall p <- v.daemons ensures DaemonOk(v, p, x) {
      assert DaemonOk(w, p, x);
    }
    forall f | Fresh(v, f) ensures Unused(v, f) {
      assert Fresh(w, f);
    }
  }

  /** Hooks and signals are nothing to the files. */
  lemma HooksKeep(w: World, hooks: set<ClientId>, x: Option<Dir>)
    requires WorldInv(w, x)
    ensures WorldInv(w.(hooks := hooks), x)
  {
    var v := w.(hooks := hooks);
    forall p <- v.daemons ensures DaemonOk(v, p, x) {
      assert DaemonOk(w, p, x);
    }
    forall f | Fresh(v, f) ensures Unused(v, f) {
      assert Fresh(w, f);
    }
  }

  lemma LaunchKeeps(w: World, dir: Dir, sock: Dir)
    requires WorldInv(w, None) && dir in w.dirs && sock in w.dirs && !dir.SockTemp?
    requires if Overflows(dir, w.tempLen) then sock.SockTemp? else sock == dir
    requires forall p <- w.daemons :: w.daemons[p].dir != dir && w.daemons[p].sock != sock
    ensures WorldInv(Launch(w, dir, sock), Some(dir))
  {
    var v := Launch(w, dir, sock);
    PidFacts(w, None);
    forall p <- v.daemons ensures 0 < p < v.nextPid && DaemonOk(v, p, Some(dir)) {
      LaunchDaemons(w, dir, sock, p);
    }
    forall f | Fresh(v, f) ensures Unused(v, f) {
      LaunchUnused(w, dir, sock, f);
    }
    hide DaemonOk, Unused, RegistryOk;
  }

  lemma LaunchUnused(w: World, dir: Dir, sock: Dir, f: Dir)
    requires WorldInv(w, None) && dir in w.dirs && sock in w.dirs && Fresh(Launch(w, dir, sock), f)
    ensures Unused(Launch(w, dir, sock), f)
  {
    assert Fresh(w, f);
  }

  lemma LaunchDaemons(w: World, dir: Dir, sock: Dir, p: nat)
    requires WorldInv(w, None) && dir in w.dirs && sock in w.dirs && !dir.SockTemp?
    requires if Overflows(dir, w.tempLen) then sock.SockTemp? else sock == dir
    requires forall p <- w.daemons :: w.daemons[p].dir != dir && w.daemons[p].sock != sock
    requires p in Launch(w, dir, sock).daemons
    ensures 0 < p < Launch(w, dir, sock).nextPid && DaemonOk(Launch(w, dir, sock), p, Some(dir))
  {
    if p in w.daemons {
      assert DaemonOk(w, p, None);
    }
  }

  /** Writing or removing one directory's registry. */
  lemma RegistryKeeps(w: World, d: Dir, j: Option<Json>, y: Option<Dir>)
    requires WorldInv(w, Some(d)) && d.User? && d in w.dirs && (j.Some? ==> RegistryOk(j.value, d))
    requires y == Some(d) || (y == None && forall p <- w.daemons :: w.daemons[p].dir == d ==>
        j == Some(Entry(d, w.daemons[p].sock)))
    ensures WorldInv(w.(registry := if j.Some? then w.registry[d := j.value] else w.registry - {d}), y)
  {
    var v := w.(registry := if j.Some? then w.registry[d := j.value] else w.registry - {d});
    forall p <- v.daemons ensures DaemonOk(v, p, y) {
      assert DaemonOk(w, p, Some(d));
    }
    forall f | Fresh(v, f) ensures Unused(v, f) {
      assert Fresh(w, f);
    }
  }

  lemma WeakenInv(w: World, x: Option<Dir>)
    requires WorldInv(w, None)
    ensures WorldInv(w, x)
  {
    forall p <- w.daemons ensures DaemonOk(w, p, x) {
      assert DaemonOk(w, p, None);
    }
  }

  // ---- Opening ----

  /** What a client needs before it starts a server: nothing serves its directory or its socket. */
  ghost predicate MayStart(w: World, c: Client) {
    && ClientOk(w, c) && c.socket in w.dirs && !c.dbdir.SockTemp?
    && (if c.sockDir.None? then c.socket == c.dbdir else
        c.socket !in w.registry && c.socket !in w.pidfile && c.socket !in w.conf && c.socket !in w.rdb)
    && forall p <- w.daemons :: w.daemons[p].dir != c.dbdir && w.daemons[p].sock != c.socket
  }

  /** Nothing but this attempt's own stale files differs: its registry, conf file, pidfile, socket and
      the RDB of its own directory. */
  ghost predicate Nearly(w: World, u: World, c: Client) {
    && u.daemons == w.daemons && u.live == w.live && u.dirs == w.dirs && u.hooks == w.hooks
    && u.nextTemp == w.nextTemp && u.tempLen == w.tempLen && w.nextPid <= u.nextPid
    && (u.registry == w.registry || u.registry == w.registry - {c.dbdir})
    && u.pidfile - {c.dbdir} == w.pidfile - {c.dbdir}
    && u.sockets - {c.dbdir, c.socket} == w.sockets - {c.dbdir, c.socket}
    && u.rdb - {c.dbdir} == w.rdb - {c.dbdir} && w.rdb.Keys <= u.rdb.Keys
    && u.conf - {c.dbdir} == w.conf - {c.dbdir}
    && OnDisk(u, c.dbdir) == OnDisk(w, c.dbdir)
    && w.signals <= u.signals && (forall i :: |w.signals| <= i < |u.signals| ==> u.signals[i].pid == w.nextPid)
  }

  /** A failed attempt put everything back: same daemons, no hook, no new directory of its own, and at
      most a stale registry, conf file and pidfile changed in its own directory. */
  ghost predicate Undone(w: World, v: World, id: ClientId, c: Client) {
    && WorldInv(v, None)
    && exists u :: Nearly(w, u, c) && v == CleanedUp(u, id, c)
  }

  /** The private directory of an isolated client. */
  function PrivateDir(c: Client): set<Dir> {
    if c.registry.None? then {c.dbdir} else {}
  }

  /** The fallback socket directory it created. */
  function OwnSockDir(c: Client): set<Dir> {
    if c.sockDir.Some? then {c.socket} else {}
  }

  /** What the last lines of the except block leave. */
  function CleanedUp(w: World, id: ClientId, c: Client): World {
    w.(dirs := w.dirs - PrivateDir(c) - OwnSockDir(c), pidfile := w.pidfile - PrivateDir(c),
       sockets := w.sockets - PrivateDir(c) - OwnSockDir(c), conf := w.conf - PrivateDir(c),
       rdb := w.rdb - PrivateDir(c), hooks := w.hooks - {id})
  }

  lemma RmTreeIs(w: World, d: Dir)
    requires d !in w.registry
    ensures RmTree(w, d) == w.(dirs := w.dirs - {d}, pidfile := w.pidfile - {d}, sockets := w.sockets - {d},
                               conf := w.conf - {d}, rdb := w.rdb - {d})
  {
    assert w.registry - {d} == w.registry;
  }

  lemma RmSockTreeIs(w: World, d: Dir)
    requires d !in w.registry && d !in w.pidfile && d !in w.conf && d !in w.rdb
    ensures RmTree(w, d) == w.(dirs := w.dirs - {d}, sockets := w.sockets - {d})
  {
    assert w.registry - {d} == w.registry && w.pidfile - {d} == w.pidfile;
    assert w.conf - {d} == w.conf && w.rdb - {d} == w.rdb;
  }

  lemma RemoveNothing(w: World)
    ensures w.dirs - {} == w.dirs && w.pidfile - {} == w.pidfile && w.sockets - {} == w.sockets
    ensures w.conf - {} == w.conf && w.rdb - {} == w.rdb
  {
  }

  /** The last lines of the except block, once no daemon of this attempt is left. */
  lemma CleanUpIs(w: World, id: ClientId, c: Client)
    requires c.registry.None? ==> c.dbdir !in w.registry
    requires c.sockDir.Some? ==> c.sockDir.value == c.socket && c.socket !in w.registry
    requires c.sockDir.Some? ==> c.socket !in w.pidfile && c.socket !in w.conf && c.socket !in w.rdb
    ensures Rollback(w, id, c, false, Quiet) == CleanedUp(w, id, c)
  {
    var w3 := if c.registry.None? then RmTree(w, c.dbdir) else w;
    RemoveNothing(w);
    if c.registry.None? {
      RmTreeIs(w, c.dbdir);
    }
    RemoveNothing(w3);
    if c.sockDir.Some? {
      RmSockTreeIs(w3, c.socket);
    }
  }

  lemma CleanUpKeeps(w: World, id: ClientId, c: Client)
    requires WorldInv(w, None) && MayStart(w, c)
    ensures WorldInv(CleanedUp(w, id, c), None)
    ensures Rollback(w, id, c, false, Quiet) == CleanedUp(w, id, c)
  {
    hide WorldInv;
    RegistriesAreUsers(w, c.dbdir);
    CleanUpIs(w, id, c);
    var w3 := if c.registry.None? then RmTree(w, c.dbdir) else w;
    if c.registry.None? {
      SocketInPlace(w, c.dbdir, None);
      RmTreeKeeps(w, c.dbdir, None);
    }
    var w4 := RmTreeOpt(w3, c.sockDir);
    if c.sockDir.Some? {
      NotASocketDir(w3, c.socket);
      RmTreeKeeps(w3, c.socket, None);
    }
    HooksKeep(w4, w4.hooks - {id}, None);
  }

  lemma RegistriesAreUsers(w: World, d: Dir)
    requires WorldInv(w, None)
    ensures !d.User? ==> d !in w.registry
  {
  }

  lemma NotASocketDir(w: World, d: Dir)
    requires WorldInv(w, None) && d.SockTemp?
    ensures forall p <- w.daemons :: w.daemons[p].dir != d
  {
    forall p <- w.daemons ensures w.daemons[p].dir != d {
      assert DaemonOk(w, p, None);
    }
  }

  lemma EndingIsIgnored(w: World, id: ClientId, c: Client, ending: Ending)
    ensures Rollback(w, id, c, false, ending) == Rollback(w, id, c, false, Quiet)
  {
  }

  lemma FailBeforeStart(w: World, id: ClientId, c: Client, conf: set<Dir>, ending: Ending)
    requires WorldInv(w, None) && MayStart(w, c) && (conf == w.conf || conf == w.conf + {c.dbdir})
    ensures Undone(w, Rollback(w.(conf := conf), id, c, false, ending), id, c)
  {
    hide WorldInv, Rollback, CleanedUp;
    ConfKeeps(w, c.dbdir, None);
    var w1 := w.(conf := conf);
    assert Nearly(w, w1, c);
    CleanUpKeeps(w1, id, c);
    EndingIsIgnored(w1, id, c, ending);
  }

  /** What is left of a start once its daemon, if any, is gone and its registry removed. */
  function Ended(w: World, c: Client, up: bool, ending: Ending): World {
    var tidy := ending.ByTerm?;
    var w1 := w.(conf := w.conf + {c.dbdir},
                 registry := if c.registry.Some? then w.registry - {c.dbdir} else w.registry);
    if !up then w1 else
    w1.(signals := w.signals + Delivered(ending, w.nextPid), nextPid := w.nextPid + 1,
        pidfile := if tidy then w.pidfile - {c.dbdir} else w.pidfile[c.dbdir := Pid(w.nextPid)],
        sockets := if tidy then w.sockets - {c.socket} else w.sockets[c.socket := w.nextPid],
        rdb := if tidy && ending.saves then w.rdb[c.dbdir := OnDisk(w, c.dbdir)] else w.rdb)
  }

  /** It is what the end of the launched daemon leaves. */
  lemma EndedIsDown(w: World, c: Client, ending: Ending)
    requires w.nextPid !in w.live && w.nextPid !in w.daemons
    ensures var w1 := Ended(w, c, false, ending);
            Ended(w, c, true, ending)
            == Down(Launch(w1, c.dbdir, c.socket), w.nextPid, ending.ByTerm? && ending.saves, ending.ByTerm?,
                    w.signals + Delivered(ending, w.nextPid))
  {
    var w2 := Launch(Ended(w, c, false, ending), c.dbdir, c.socket);
    assert w2.live - {w.nextPid} == w.live && w2.daemons - {w.nextPid} == w.daemons;
    assert w2.pidfile - {c.dbdir} == w.pidfile - {c.dbdir};
    assert w2.sockets - {c.socket} == w.sockets - {c.socket};
  }

  lemma EndedKeeps(w: World, c: Client, up: bool, ending: Ending)
    requires WorldInv(w, None) && MayStart(w, c)
    ensures WorldInv(Ended(w, c, up, ending), None)
  {
    hide WorldInv;
    PidFacts(w, None);
    var w1 := w.(conf := w.conf + {c.dbdir});
    ConfKeeps(w, c.dbdir, None);
    if c.registry.Some? {
      WeakenInv(w1, Some(c.dbdir));
      RegistryKeeps(w1, c.dbdir, None, None);
    }
    if up {
      LaunchKeeps(Ended(w, c, false, ending), c.dbdir, c.socket);
      DownKeeps(Launch(Ended(w, c, false, ending), c.dbdir, c.socket), w.nextPid, ending.ByTerm? && ending.saves,
                ending.ByTerm?, w.signals + Delivered(ending, w.nextPid), Some(c.dbdir));
      EndedIsDown(w, c, ending);
    }
  }

  lemma EndedIsNearly(w: World, c: Client, up: bool, ending: Ending)
    ensures Nearly(w, Ended(w, c, up, ending), c)
  {
    DeliveredIsEscalation(ending, w.nextPid);
  }

  /** The world at the moment of a failure after the launch step. */
  function AfterStart(w: World, c: Client, up: bool, registry: map<Dir, Json>): World {
    var w1 := w.(conf := w.conf + {c.dbdir});
    (if up then Launch(w1, c.dbdir, c.socket) else w1).(registry := registry)
  }

  /** Terminating what was launched leaves the ended start, up to its registry. */
  lemma TerminatedIsEnded(w: World, c: Client, up: bool, registry: map<Dir, Json>, ending: Ending)
    requires w.nextPid !in w.live && w.nextPid !in w.daemons && 0 !in w.live && PidOf(w, c.dbdir) == 0
    requires 0 < w.nextPid
    ensures var w3 := AfterStart(w, c, up, registry);
            Terminated(w3, PidOf(w3, c.dbdir), ending) == Ended(w, c, up, ending).(registry := registry)
  {
    var w3 := AfterStart(w, c, up, registry);
    if up {
      assert PidOf(w3, c.dbdir) == w.nextPid;
      assert w3.live - {w.nextPid} == w.live && w3.daemons - {w.nextPid} == w.daemons;
      assert w3.pidfile - {c.dbdir} == w.pidfile - {c.dbdir};
      assert w3.sockets - {c.socket} == w.sockets - {c.socket};
    } else {
      assert PidOf(w3, c.dbdir) == 0;
    }
  }

  /** Rolling back a start amounts to ending it and cleaning up. */
  lemma RollbackIsEnded(w: World, id: ClientId, c: Client, up: bool, registry: map<Dir, Json>, ending: Ending)
    requires WorldInv(w, None) && MayStart(w, c)
    requires registry - {c.dbdir} == w.registry - {c.dbdir} && (c.registry.None? ==> registry == w.registry)
    ensures Rollback(AfterStart(w, c, up, registry), id, c, true, ending)
            == Rollback(Ended(w, c, up, ending), id, c, false, Quiet)
  {
    hide WorldInv, OwnSocket, RmTree, AfterStart, Terminated, Ended;
    PidFacts(w, None);
    ServedIffPid(w, c.dbdir, None);
    TerminatedIsEnded(w, c, up, registry, ending);
    EndedRegistry(w, c, up, ending);
  }

  lemma EndedRegistry(w: World, c: Client, up: bool, ending: Ending)
    ensures Ended(w, c, up, ending).registry == if c.registry.Some? then w.registry - {c.dbdir} else w.registry
  {
  }

  /** Failure after the launch step, whether or not the daemon came up and whatever the registry says. */
  lemma FailAfterStart(w: World, id: ClientId, c: Client, up: bool, registry: map<Dir, Json>, ending: Ending)
    requires WorldInv(w, None) && MayStart(w, c)
    requires registry - {c.dbdir} == w.registry - {c.dbdir} && (c.registry.None? ==> registry == w.registry)
    ensures Undone(w, Rollback(AfterStart(w, c, up, registry), id, c, true, ending), id, c)
  {
    hide WorldInv, Rollback, CleanedUp, OwnSocket, Nearly, Ended;
    var u := Ended(w, c, up, ending);
    EndedKeeps(w, c, up, ending);
    EndedIsNearly(w, c, up, ending);
    RollbackIsEnded(w, id, c, up, registry, ending);
    EndedMayStart(w, c, up, ending);
    CleanUpKeeps(u, id, c);
  }

  lemma EndedMayStart(w: World, c: Client, up: bool, ending: Ending)
    requires MayStart(w, c)
    ensures MayStart(Ended(w, c, up, ending), c)
  {
  }

  lemma PidFacts(w: World, x: Option<Dir>)
    requires WorldInv(w, x)
    ensures 0 < w.nextPid && w.nextPid !in w.live && 0 !in w.live && w.live == w.daemons.Keys
  {
  }

  /** The world after a successful start: one fresh daemon that serves the stored data. */
  function Started(w: World, id: ClientId, c: Client): World {
    var p := w.nextPid;
    w.(conf := w.conf + {c.dbdir}, live := w.live + {p},
       daemons := w.daemons[p := Daemon(c.dbdir, c.socket, OnDisk(w, c.dbdir), multiset{id})],
       pidfile := w.pidfile[c.dbdir := Pid(p)], sockets := w.sockets[c.socket := p], nextPid := p + 1,
       registry := if c.registry.Some? then w.registry[c.dbdir := Entry(c.dbdir, c.socket)] else w.registry)
  }

  lemma StartedKeeps(w: World, id: ClientId, c: Client)
    requires WorldInv(w, None) && MayStart(w, c)
    ensures WorldInv(Started(w, id, c), None)
  {
    hide WorldInv, Started;
    PidFacts(w, None);
    var w1 := w.(conf := w.conf + {c.dbdir});
    ConfKeeps(w, c.dbdir, None);
    var w2 := Launch(w1, c.dbdir, c.socket);
    LaunchKeeps(w1, c.dbdir, c.socket);
    StartedIsLaunch(w, id, c);
    if c.registry.Some? {
      RegistryKeeps(w2, c.dbdir, Some(Entry(c.dbdir, c.socket)), None);
      ShapeKeeps(w2.(registry := w2.registry[c.dbdir := Entry(c.dbdir, c.socket)]), Started(w, id, c), None);
    } else {
      NoExemption(w2, c.dbdir);
      ShapeKeeps(w2, Started(w, id, c), None);
    }
  }

  lemma StartedIsLaunch(w: World, id: ClientId, c: Client)
    ensures var w2 := Launch(w.(conf := w.conf + {c.dbdir}), c.dbdir, c.socket);
            SameShape(if c.registry.Some? then
                w2.(registry := w2.registry[c.dbdir := Entry(c.dbdir, c.socket)]) else w2,
                      Started(w, id, c))
  {
  }

  /** The exemption means something for user directories only. */
  lemma NoExemption(w: World, d: Dir)
    requires WorldInv(w, Some(d)) && !d.User?
    ensures WorldInv(w, None)
  {
    forall p <- w.daemons ensures DaemonOk(w, p, None) {
      assert DaemonOk(w, p, Some(d));
    }
  }

  lemma Unreached(w: World, sock: Dir)
    requires WorldInv(w, None) && forall p <- w.daemons :: w.daemons[p].sock != sock
    ensures Reach(w, sock) == 0
  {
  }

  /** What a registry holds when an attempt fails after the launch step. */
  function RegistryLeft(w: World, c: Client, fault: Fault): map<Dir, Json> {
    if c.registry.None? then w.registry
    else if !fault.RegistryFault? then w.registry[c.dbdir := Entry(c.dbdir, c.socket)]
    else if fault.created then w.registry[c.dbdir := NotJson]
    else w.registry
  }

  /** The world after an attempt whose rollback raised: the launched daemon, or what SIGTERM left of it,
      with everything that was prepared for it. */
  function Stuck(w: World, c: Client, seen: OpenSeen): World {
    Halted(AfterStart(w, c, true, RegistryLeft(w, c, seen.fault)), w.nextPid, seen.ending)
  }

  /** After the launch step, the client connects to the new daemon, or the attempt is undone, or stuck. */
  lemma ConnectAfterStart(w: World, id: ClientId, c: Client, seen: OpenSeen)
    requires WorldInv(w, None) && MayStart(w, c) && (c.registry.Some? ==> !seen.fault.RegistryFault?)
    ensures var c1 := c.(conf := Some(c.dbdir));
            var registry := RegistryLeft(w, c, seen.fault);
            var r := Connect(AfterStart(w, c, seen.up, registry), id, c1, true, seen);
            if r.client.Some? then
              r.world == Started(w, id, c).(registry := registry) && r.client.value == c1.(running := true)
            else if seen.up && seen.undoRaises then r.world == Stuck(w, c, seen)
            else Undone(w, r.world, id, c)
    ensures var v := AfterStart(w, c, seen.up, RegistryLeft(w, c, seen.fault));
            var r := Connect(v, id, c.(conf := Some(c.dbdir)), true, seen);
            r.client.None? && seen.up ==> seen.fault.ClientFault? || !seen.ready
  {
    hide WorldInv, Rollback, Undone, OwnSocket, Halted;
    var c1 := c.(conf := Some(c.dbdir));
    var registry := RegistryLeft(w, c, seen.fault);
    var v := AfterStart(w, c, seen.up, registry);
    RegistryLeftIsOwn(w, c, seen.fault);
    ConfIsIgnored(v, id, c, c1, true, seen.ending);
    FailAfterStart(w, id, c, seen.up, registry, seen.ending);
    AfterStartPid(w, c, seen.up, registry);
    Unreached(w, c.socket);
    PidFacts(w, None);
    if seen.up {
      FirstTouch(w, id, c, registry);
    }
  }

  lemma RegistryLeftIsOwn(w: World, c: Client, fault: Fault)
    ensures var r := RegistryLeft(w, c, fault);
            r - {c.dbdir} == w.registry - {c.dbdir} && (c.registry.None? ==> r == w.registry)
  {
  }

  /** The pidfile names the launched daemon, or nobody. */
  lemma AfterStartPid(w: World, c: Client, up: bool, registry: map<Dir, Json>)
    requires WorldInv(w, None) && MayStart(w, c)
    ensures PidOf(AfterStart(w, c, up, registry), c.pidfile) == if up then w.nextPid else 0
    ensures w.nextPid != 0
  {
    PidFacts(w, None);
    ServedIffPid(w, c.dbdir, None);
    hide WorldInv, OwnSocket;
  }

  lemma FirstTouch(w: World, id: ClientId, c: Client, registry: map<Dir, Json>)
    requires 0 < w.nextPid
    ensures Touch(AfterStart(w, c, true, registry), id, c.socket) == Started(w, id, c).(registry := registry)
  {
    var v := AfterStart(w, c, true, registry);
    assert multiset{} + multiset{id} == multiset{id};
    assert Touch(v, id, c.socket).daemons == Started(w, id, c).daemons;
  }

  /** Starting either brings up exactly one daemon for a client, or fails without a trace, or, if the
      rollback raises, leaves the daemon stuck. */
  lemma StartOutcome(w: World, id: ClientId, c: Client, seen: OpenSeen)
    requires WorldInv(w, None) && MayStart(w, c)
    ensures var r := StartAndConnect(w, id, c, seen);
            if r.client.Some? then r.world == Started(w, id, c) && r.client.value ==
                c.(running := true, conf := Some(c.dbdir))
            else if StopsAfterStart(c.registry, seen) then r.world == Stuck(w, c, seen)
            else Undone(w, r.world, id, c)
    ensures StopsAfterStart(c.registry, seen) ==> StartAndConnect(w, id, c, seen).client.None?
  {
    hide WorldInv, Rollback, Undone, OwnSocket, Connect, Stuck;
    var s := StartServer(w, c, seen.fault, seen.up);
    if !s.ok {
      FailBeforeStart(w, id, c, s.world.conf, seen.ending);
    } else {
      assert s.world == AfterStart(w, c, seen.up, w.registry);
      if c.registry.Some? {
        SharedStartOutcome(w, id, c, seen);
      } else {
        ConnectAfterStart(w, id, c, seen);
        ConnectFails(s.world, id, c.(conf := Some(c.dbdir)), seen);
      }
    }
  }

  lemma SharedStartOutcome(w: World, id: ClientId, c: Client, seen: OpenSeen)
    requires WorldInv(w, None) && MayStart(w, c) && c.registry.Some?
    requires StartServer(w, c, seen.fault, seen.up).ok
    ensures var r := StartAndConnect(w, id, c, seen);
            if r.client.Some? then r.world == Started(w, id, c) && r.client.value ==
                c.(running := true, conf := Some(c.dbdir))
            else if StopsAfterStart(c.registry, seen) then r.world == Stuck(w, c, seen)
            else Undone(w, r.world, id, c)
    ensures StopsAfterStart(c.registry, seen) ==> StartAndConnect(w, id, c, seen).client.None?
  {
    hide WorldInv, Rollback, Undone, OwnSocket, Connect, AfterStart, Halted;
    var s := StartServer(w, c, seen.fault, seen.up);
    var c1 := c.(conf := Some(c.dbdir));
    AfterStartIs(w, c, seen, w.registry);
    var r := SaveRegistry(s.world, c1, seen.fault);
    var registry := r.world.registry;
    AfterStartIs(w, c, seen, registry);
    if r.ok {
      ConnectAfterStart(w, id, c, seen);
      ConnectFails(r.world, id, c1, seen);
    } else {
      ConfIsIgnored(r.world, id, c, c1, true, seen.ending);
      RegistryLeftIsOwn(w, c, seen.fault);
      AfterStartPid(w, c, seen.up, registry);
      FailAfterStart(w, id, c, seen.up, registry, seen.ending);
    }
  }

  lemma ConnectFails(w: World, id: ClientId, c: Client, seen: OpenSeen)
    ensures seen.fault.ClientFault? || !seen.ready ==> Connect(w, id, c, true, seen).client.None?
  {
  }

  lemma AfterStartIs(w: World, c: Client, seen: OpenSeen, registry: map<Dir, Json>)
    requires StartServer(w, c, seen.fault, seen.up).ok
    ensures StartServer(w, c, seen.fault, seen.up).world.(registry := registry) == AfterStart(w, c, seen.up, registry)
    ensures AfterStart(w, c, seen.up, registry).registry == registry
    ensures StartServer(w, c, seen.fault, seen.up).world.registry == w.registry
  {
  }

  lemma ConfIsIgnored(w: World, id: ClientId, c: Client, c1: Client, started: bool, ending: Ending)
    requires c1 == c.(conf := c1.conf)
    ensures Rollback(w, id, c1, started, ending) == Rollback(w, id, c, started, ending)
  {
    hide Terminated, RmTree, PidOf;
  }

  /** What the registry says about a directory: the serving daemon if there is one, else nothing. */
  lemma LoadOutcome(w: World, d: Dir)
    requires WorldInv(w, None) && d.User?
    ensures var p := PidOf(w, d);
            if p == 0 then Load(w, d) == Absent
            else && p in w.daemons && w.daemons[p].dir == d
                 && Load(w, d) == Attached(d, w.daemons[p].sock, d) && Reach(w, w.daemons[p].sock) == p
  {
    if PidOf(w, d) != 0 {
      assert DaemonOk(w, PidOf(w, d), None);
    }
  }

  /** The try block: with no daemon in the directory it starts one, or leaves no trace, or is stuck in its
      rollback; with one it attaches, or leaves everything but its own hook and socket directory as it
      was. */
  lemma AttachOrStartOutcome(w: World, id: ClientId, c: Client, seen: OpenSeen)
    requires WorldInv(w, None) && ClientOk(w, c) && c.socket in w.dirs
    requires PidOf(w, c.dbdir) == 0 ==> MayStart(w, c)
    requires PidOf(w, c.dbdir) != 0 ==> c.registry.Some?
    ensures var r := AttachOrStart(w, id, c, seen);
            var p := PidOf(w, c.dbdir);
            if p == 0 then
              if r.client.Some? then r.world == Started(w, id, c) && r.client.value ==
                  c.(running := true, conf := Some(c.dbdir))
              else if StopsAfterStart(c.registry, seen) then r.world == Stuck(w, c, seen)
              else Undone(w, r.world, id, c)
            else
              var v := RmTreeOpt(w, c.sockDir);
              if r.client.None? then r.world == v.(hooks := w.hooks - {id})
              else && p in w.daemons && r.world == Touch(v, id, w.daemons[p].sock)
                   && r.client.value == c.(running := true, socket := w.daemons[p].sock, sockDir := None)
    ensures PidOf(w, c.dbdir) == 0 && StopsAfterStart(c.registry, seen) ==> AttachOrStart(w, id, c, seen).client.None?
  {
    hide WorldInv, Undone, OwnSocket, StartAndConnect, MayStart, Stuck, StopsAfterStart;
    if c.registry.Some? {
      LoadOutcome(w, c.dbdir);
    }
    if PidOf(w, c.dbdir) == 0 {
      StartOutcome(w, id, c, seen);
    }
  }

  // ---- A rollback that raised ----

  lemma SignalsKeep(w: World, signals: seq<Sent>, x: Option<Dir>)
    requires WorldInv(w, x)
    ensures WorldInv(w.(signals := signals), x)
  {
    var v := w.(signals := signals);
    forall p <- v.daemons ensures DaemonOk(v, p, x) {
      assert DaemonOk(w, p, x);
    }
    forall f | Fresh(v, f) ensures Unused(v, f) {
      assert Fresh(w, f);
    }
  }

  /** A halted termination leaves a serving daemon alone, or takes it down as SIGTERM does. */
  lemma HaltedIs(w: World, p: nat, ending: Ending)
    requires p in w.daemons && p in w.live
    ensures Halted(w, p, ending) ==
              if ending.ByTerm? then Down(w, p, ending.saves, true, w.signals + [Sent(TERM, p)])
              else w.(signals := w.signals + PartlyDelivered(ending, p))
  {
    assert w.daemons - {p} - {p} == w.daemons - {p};
  }

  /** The launched daemon, at the moment of the failure. */
  lemma AfterStartKeeps(w: World, c: Client, fault: Fault)
    requires WorldInv(w, None) && MayStart(w, c)
    ensures var u := AfterStart(w, c, true, RegistryLeft(w, c, fault));
            && WorldInv(u, if c.registry.Some? && fault.RegistryFault? then Some(c.dbdir) else None)
            && w.nextPid in u.daemons && w.nextPid in u.live && u.daemons[w.nextPid].dir == c.dbdir
  {
    hide WorldInv, Launch, Started;
    PidFacts(w, None);
    var w1 := w.(conf := w.conf + {c.dbdir});
    ConfKeeps(w, c.dbdir, None);
    LaunchKeeps(w1, c.dbdir, c.socket);
    LaunchFacts(w1, c.dbdir, c.socket);
    var w2 := Launch(w1, c.dbdir, c.socket);
    if c.registry.None? {
      NoExemption(w2, c.dbdir);
    } else if !fault.RegistryFault? {
      RegistryKeeps(w2, c.dbdir, Some(Entry(c.dbdir, c.socket)), None);
    } else if fault.created {
      RegistryKeeps(w2, c.dbdir, Some(NotJson), Some(c.dbdir));
    }
  }

  lemma LaunchFacts(w: World, dir: Dir, sock: Dir)
    ensures var v := Launch(w, dir, sock);
            && w.nextPid in v.daemons && w.nextPid in v.live
            && v.daemons[w.nextPid] == Daemon(dir, sock, OnDisk(w, dir), multiset{})
            && v.daemons.Keys == w.daemons.Keys + {w.nextPid}
            && (forall p <- w.daemons :: p != w.nextPid ==> v.daemons[p] == w.daemons[p])
            && v.registry == w.registry && v.dirs == w.dirs
  {
  }

  lemma StuckKeeps(w: World, c: Client, seen: OpenSeen)
    requires WorldInv(w, None) && MayStart(w, c)
    requires c.registry.Some? && seen.fault.RegistryFault? ==> seen.ending.ByTerm?
    ensures WorldInv(Stuck(w, c, seen), None)
  {
    hide WorldInv, AfterStart, Halted, Down;
    AfterStartKeeps(w, c, seen.fault);
    var u := AfterStart(w, c, true, RegistryLeft(w, c, seen.fault));
    HaltedIs(u, w.nextPid, seen.ending);
    if seen.ending.ByTerm? {
      DownKeeps(u, w.nextPid, seen.ending.saves, true, u.signals + [Sent(TERM, w.nextPid)],
                if c.registry.Some? && seen.fault.RegistryFault? then Some(c.dbdir) else None);
    } else {
      SignalsKeep(u, u.signals + PartlyDelivered(seen.ending, w.nextPid), None);
    }
  }

  /** What everybody else sees of it: perhaps one more daemon, without connections. */
  lemma StuckFields(w: World, c: Client, seen: OpenSeen)
    requires w.nextPid !in w.daemons
    ensures var t := Stuck(w, c, seen);
            && t.hooks == w.hooks && t.dirs == w.dirs && t.nextTemp == w.nextTemp && t.tempLen == w.tempLen
            && t.daemons == (if seen.ending.ByTerm? then w.daemons
                             else w.daemons[w.nextPid := Daemon(c.dbdir, c.socket, OnDisk(w, c.dbdir), multiset{})])
            && t.registry - {c.dbdir} == w.registry - {c.dbdir}
            && w.rdb.Keys <= t.rdb.Keys && t.rdb - {c.dbdir} == w.rdb - {c.dbdir}
            && OnDisk(t, c.dbdir) == OnDisk(w, c.dbdir)
  {
    hide AfterStart, Halted, RegistryLeft;
    var u := AfterStart(w, c, true, RegistryLeft(w, c, seen.fault));
    AfterStartFields(w, c, RegistryLeft(w, c, seen.fault));
    RegistryLeftIsOwn(w, c, seen.fault);
    HaltedIs(u, w.nextPid, seen.ending);
    assert u.daemons - {w.nextPid} == w.daemons;
    assert w.rdb[c.dbdir := OnDisk(w, c.dbdir)] - {c.dbdir} == w.rdb - {c.dbdir};
  }

  lemma AfterStartFields(w: World, c: Client, registry: map<Dir, Json>)
    requires w.nextPid !in w.daemons
    ensures var t := AfterStart(w, c, true, registry);
            && t.hooks == w.hooks && t.dirs == w.dirs && t.nextTemp == w.nextTemp && t.tempLen == w.tempLen
            && t.daemons == w.daemons[w.nextPid := Daemon(c.dbdir, c.socket, OnDisk(w, c.dbdir), multiset{})]
            && t.registry == registry && t.rdb == w.rdb && w.nextPid in t.live
  {
  }

  // ---- Closing ----

  lemma SharedFilesKeep(w: World, c: Client)
    requires WorldInv(w, None) && ClientOk(w, c) && c.registry.Some?
    requires forall p <- w.daemons :: w.daemons[p].dir != c.dbdir
    ensures WorldInv(RemoveFiles(w, c.(sockDir := None)), None)
  {
    var v := RemoveFiles(w, c.(sockDir := None));
    forall p <- v.daemons ensures DaemonOk(v, p, None) {
      assert DaemonOk(w, p, None);
    }
    forall f | Fresh(v, f) ensures Unused(v, f) {
      assert Fresh(w, f);
    }
  }

  lemma RemoveFilesKeeps(w: World, c: Client)
    requires WorldInv(w, None) && ClientOk(w, c)
    requires forall p <- w.daemons :: w.daemons[p].dir != c.dbdir
    ensures WorldInv(RemoveFiles(w, c), None)
  {
    hide WorldInv;
    var w1 := RemoveFiles(w, c.(sockDir := None));
    if c.registry.Some? {
      SharedFilesKeep(w, c);
    } else {
      SocketInPlace(w, c.dbdir, None);
      RmTreeKeeps(w, c.dbdir, None);
    }
    if c.sockDir.Some? {
      NotASocketDir(w1, c.socket);
      RmTreeKeeps(w1, c.socket, None);
    }
  }

  /** What stopping a directory's daemon, if it has one, leaves before the files are removed. */
  function Stopped(w: World, c: Client, seen: CloseSeen): World {
    var p := PidOf(w, c.dbdir);
    if p == 0 || p !in w.daemons then w else
    var orderly := seen.accepted && Reach(w, c.socket) != 0;
    Down(w, p, if orderly then c.registry.Some? else seen.ending.ByTerm? && seen.ending.saves,
         orderly || seen.ending.ByTerm?, w.signals + Delivered(seen.ending, p))
  }

  /** Shutdown and termination together take down the directory's own daemon and no other. */
  lemma StopIsDown(w: World, c: Client, seen: CloseSeen)
    requires WorldInv(w, None) && ClientOk(w, c)
    ensures StopServer(w, c, seen) == RemoveFiles(Stopped(w, c, seen), c)
    ensures PidOf(w, c.dbdir) != 0 ==> PidOf(w, c.dbdir) in w.daemons && w.daemons[PidOf(w, c.dbdir)].dir == c.dbdir
  {
    hide RemoveFiles;
    var p, q := PidOf(w, c.dbdir), Reach(w, c.socket);
    ServedIffPid(w, c.dbdir, None);
    if q != 0 {
      assert w.daemons[q].sock == c.socket;
      assert DaemonOk(w, q, None);
      assert p == q;
      OrderlyIsDown(w, q, c.registry.Some?, seen.ending);
    }
    if p != 0 {
      assert DaemonOk(w, p, None);
      SignalledIsDown(w, p, seen.ending);
    }
  }

  /** A daemon that accepted SHUTDOWN, and whose process is then waited for. */
  lemma OrderlyIsDown(w: World, p: nat, save: bool, ending: Ending)
    requires p in w.daemons && p in w.live
    ensures Terminated(StopServing(w, p, save), p, ending)
            == Down(w, p, save, true, w.signals + Delivered(ending, p))
  {
    assert w.daemons - {p} - {p} == w.daemons - {p};
  }

  /** A daemon that refused SHUTDOWN. */
  lemma SignalledIsDown(w: World, p: nat, ending: Ending)
    requires p in w.daemons && p in w.live
    ensures Terminated(w, p, ending)
            == Down(w, p, ending.ByTerm? && ending.saves, ending.ByTerm?, w.signals + Delivered(ending, p))
  {
    assert w.daemons - {p} - {p} == w.daemons - {p};
  }

  lemma StopServerKeeps(w: World, c: Client, seen: CloseSeen)
    requires WorldInv(w, None) && ClientOk(w, c)
    ensures WorldInv(StopServer(w, c, seen), None)
    ensures StopServer(w, c, seen).daemons == w.daemons - {PidOf(w, c.dbdir)}
    ensures StopServer(w, c, seen).dirs == w.dirs - PrivateDir(c) - OwnSockDir(c)
    ensures var v := StopServer(w, c, seen); v.nextTemp == w.nextTemp && v.tempLen == w.tempLen && v.hooks == w.hooks
  {
    hide WorldInv, StopServer;
    StopIsDown(w, c, seen);
    ServedIffPid(w, c.dbdir, None);
    PidFacts(w, None);
    var u := Stopped(w, c, seen);
    if PidOf(w, c.dbdir) != 0 {
      var p := PidOf(w, c.dbdir);
      var orderly := seen.accepted && Reach(w, c.socket) != 0;
      DownKeeps(w, p, if orderly then c.registry.Some? else seen.ending.ByTerm? && seen.ending.saves,
                orderly || seen.ending.ByTerm?, w.signals + Delivered(seen.ending, p), None);
      OneDaemonPerDir(w, p);
    } else {
      assert w.daemons - {0} == w.daemons;
    }
    RemoveFilesKeeps(u, c);
  }

  /** At most one live daemon per directory. */
  lemma OneDaemonPerDir(w: World, p: nat)
    requires WorldInv(w, None) && p in w.daemons
    ensures forall q <- w.daemons :: w.daemons[q].dir == w.daemons[p].dir ==> q == p
  {
    assert DaemonOk(w, p, None);
    forall q <- w.daemons ensures w.daemons[q].dir == w.daemons[p].dir ==> q == p {
      assert DaemonOk(w, q, None);
    }
  }

  lemma TouchConnections(s: System, id: ClientId)
    requires WorldInv(s.world, None) && ConnectionsOk(s) && Running(s, id)
    ensures ConnectionsOk(s.(world := Touch(s.world, id, s.clients[id].socket)))
  {
  }

  /** Daemons may go and others stay as they are; directories go only if they were client `c`'s own. */
  ghost predicate Fewer(w: World, v: World, c: Client) {
    && v.daemons.Keys <= w.daemons.Keys && v.tempLen == w.tempLen && w.nextTemp <= v.nextTemp
    && (forall p <- v.daemons :: v.daemons[p].dir == w.daemons[p].dir && v.daemons[p].sock == w.daemons[p].sock)
    && w.dirs - PrivateDir(c) - OwnSockDir(c) <= v.dirs
  }

  /** What one client's departure takes away, no other client needs. */
  lemma OthersStayOk(w: World, v: World, c: Client, other: Client)
    requires ClientOk(w, c) && ClientOk(w, other) && Fewer(w, v, c)
    requires c.registry.None? ==> c.dbdir != other.dbdir
    ensures ClientOk(v, other)
  {
  }

  /** Once a client is disconnected, the remaining connections are in order. */
  lemma DisconnectConnections(s: System, v: System, w2: World, id: ClientId)
    requires ConnectionsOk(s) && v.world == Disconnect(w2, id)
    requires w2.daemons.Keys <= s.world.daemons.Keys
    requires forall p <- w2.daemons :: w2.daemons[p].sock == s.world.daemons[p].sock
    requires forall p <- w2.daemons :: w2.daemons[p].conns == s.world.daemons[p].conns
    requires v.clients.Keys <= s.clients.Keys && forall i <- s.clients :: i != id ==>
        i in v.clients && v.clients[i] == s.clients[i]
    ensures ConnectionsOk(v)
  {
    forall p <- v.world.daemons, i <- v.world.daemons[p].conns
      ensures i in v.clients ==> Running(v, i) && v.clients[i].socket == v.world.daemons[p].sock
    {
      assert i != id && i in s.world.daemons[p].conns;
    }
  }

  /** A client retires: its hook goes, it no longer runs, everybody else is as before. */
  lemma RetireInv(s: System, v: System, w2: World, id: ClientId)
    requires Inv(s) && Running(s, id) && WorldInv(v.world, None)
    requires v.world == Disconnect(w2, id) && v.world.hooks == s.world.hooks - {id}
    requires Fewer(s.world, v.world, s.clients[id])
    requires w2.daemons.Keys <= s.world.daemons.Keys
    requires forall p <- w2.daemons :: w2.daemons[p].sock == s.world.daemons[p].sock
    requires forall p <- w2.daemons :: w2.daemons[p].conns == s.world.daemons[p].conns
    requires v.clients.Keys <= s.clients.Keys && !Running(v, id)
    requires forall i <- s.clients :: i != id ==> i in v.clients && v.clients[i] == s.clients[i]
    ensures Inv(v)
  {
    hide WorldInv, Disconnect, ClientOk, Fewer;
    DisconnectConnections(s, v, w2, id);
    assert forall i :: Running(v, i) ==> Running(s, i) && i != id && v.clients[i] == s.clients[i];
    forall i | Running(v, i) ensures ClientOk(v.world, v.clients[i]) {
      OthersStayOk(s.world, v.world, s.clients[id], s.clients[i]);
    }
    assert RunningIds(v) == RunningIds(s) - {id};
  }

  /** Connections and data change, no client starts or stops running. */
  lemma SameClientsInv(s: System, v: System)
    requires Inv(s) && SameShape(s.world, v.world) && v.clients == s.clients && ConnectionsOk(v)
    ensures Inv(v)
  {
    hide WorldInv;
    ShapeKeeps(s.world, v.world, None);
    assert RunningIds(v) == RunningIds(s);
    assert forall i :: Running(v, i) <==> Running(s, i);
  }

  lemma CloseInv(s: System, id: ClientId, seen: CloseSeen)
    requires Inv(s) && id in s.clients
    ensures Inv(Step(s, CloseClient(id, seen)))
  {
    hide WorldInv, StopServer, ClientOk, ConnectionsOk, Touch, Disconnect, Interrupted;
    var w, c := s.world, s.clients[id];
    var v := Step(s, CloseClient(id, seen));
    assert s.clients[id := c] == s.clients;
    if !c.running {
      DisconnectInv(s, id);
    } else {
      var w1 := if c.registry.Some? then Touch(w, id, c.socket) else w;
      var s1 := s.(world := w1);
      TouchShape(w, id, c.socket);
      TouchConnections(s, id);
      SameClientsInv(s, s1);
      if c.registry.Some? && seen.countRaises {
        DisconnectInv(s1, id);
      } else {
        var last := c.registry.None? || ConnectionCount(w1, c.socket) <= 1;
        if last && CleanupRaises(w1, c, seen) {
          InterruptedInv(s1, id, seen);
          DisconnectInv(s1.(world := Interrupted(w1, c, seen)), id);
          return;
        }
        if last {
          StopServerKeeps(w1, c, seen);
        }
        LeaveInv(s1, id, if last then StopServer(w1, c, seen) else w1, v.clients[id]);
      }
    }
  }

  lemma DisconnectInv(s: System, id: ClientId)
    requires Inv(s)
    ensures Inv(s.(world := Disconnect(s.world, id)))
  {
    hide WorldInv;
    DisconnectShape(s.world, id);
    var v := s.(world := Disconnect(s.world, id));
    DisconnectConnections(s, v, s.world, id);
    SameClientsInv(s, v);
  }

  /** A daemon went down, however it did: the clients are as before. */
  lemma DownInv(s: System, pid: nat, saved: bool, tidy: bool, signals: seq<Sent>)
    requires Inv(s) && pid in s.world.daemons
    ensures Inv(s.(world := Down(s.world, pid, saved, tidy, signals)))
  {
    hide WorldInv;
    var v := s.(world := Down(s.world, pid, saved, tidy, signals));
    DownKeeps(s.world, pid, saved, tidy, signals, None);
    assert RunningIds(v) == RunningIds(s);
    assert forall i :: Running(v, i) <==> Running(s, i);
  }

  /** What a stop saves if it takes the daemon down: an accepted SHUTDOWN does for a shared database;
      otherwise it depends on how the daemon meets SIGTERM. */
  predicate StopSaves(w: World, c: Client, seen: CloseSeen) {
    if seen.accepted && Reach(w, c.socket) != 0 then c.registry.Some? else seen.ending == ByTerm(true)
  }

  /** A stop that raises takes the daemon down all the same if SHUTDOWN or SIGTERM got through. */
  predicate GoesDown(w: World, c: Client, seen: CloseSeen) {
    PidOf(w, c.dbdir) != 0 && ((seen.accepted && Reach(w, c.socket) != 0) || seen.ending.ByTerm?)
  }

  /** A raising process cleanup leaves the daemon of the client's own directory alone or lets it go down in
      an orderly way. */
  lemma InterruptedIs(w: World, c: Client, seen: CloseSeen)
    requires WorldInv(w, None) && ClientOk(w, c)
    ensures var p := PidOf(w, c.dbdir);
            if p == 0 then Interrupted(w, c, seen) == w
            else && p in w.daemons && w.daemons[p].dir == c.dbdir
                 && (Reach(w, c.socket) != 0 ==> Reach(w, c.socket) == p)
                 && Interrupted(w, c, seen) ==
                      var signals := w.signals + PartlyDelivered(seen.ending, p);
                      if GoesDown(w, c, seen) then Down(w, p, StopSaves(w, c, seen), true, signals)
                      else w.(signals := signals)
    ensures PidOf(w, c.dbdir) == 0 ==> Reach(w, c.socket) == 0
  {
    var p, q := PidOf(w, c.dbdir), Reach(w, c.socket);
    ServedIffPid(w, c.dbdir, None);
    PidFacts(w, None);
    if q != 0 {
      assert w.daemons[q].sock == c.socket;
      assert DaemonOk(w, q, None);
      assert p == q;
    }
    HomePidfile(w, c);
    hide WorldInv, ClientOk;
    if p == 0 {
      assert w.live - {0} == w.live && w.daemons - {0} == w.daemons;
    } else if seen.accepted && q != 0 {
      AcceptedThenHalted(w, p, c.registry.Some?, seen.ending);
    } else {
      HaltedIs(w, p, seen.ending);
    }
  }

  lemma HomePidfile(w: World, c: Client)
    requires WorldInv(w, None) && ClientOk(w, c)
    ensures c.pidfile == c.dbdir
    ensures PidOf(w, c.dbdir) != 0 ==> PidOf(w, c.dbdir) in w.daemons && w.daemons[PidOf(w, c.dbdir)].dir == c.dbdir
  {
  }

  /** A daemon that accepted SHUTDOWN, and whose process is then looked at in vain. */
  lemma AcceptedThenHalted(w: World, p: nat, save: bool, ending: Ending)
    requires p in w.daemons && p in w.live
    ensures var w1 := Halted(StopServing(w, p, save), p, ending);
            p !in w1.daemons && Exit(w1, p) == Down(w, p, save, true, w.signals + PartlyDelivered(ending, p))
  {
    assert w.daemons - {p} - {p} == w.daemons - {p};
    assert w.live - {p} - {p} == w.live - {p};
  }

  lemma SignalsInv(s: System, signals: seq<Sent>)
    requires Inv(s)
    ensures Inv(s.(world := s.world.(signals := signals)))
  {
    hide WorldInv;
    SignalsKeep(s.world, signals, None);
    assert RunningIds(s.(world := s.world.(signals := signals))) == RunningIds(s);
    assert forall i :: Running(s.(world := s.world.(signals := signals)), i) <==> Running(s, i);
  }

  lemma InterruptedInv(s: System, id: ClientId, seen: CloseSeen)
    requires Inv(s) && Running(s, id)
    ensures Inv(s.(world := Interrupted(s.world, s.clients[id], seen)))
  {
    hide WorldInv, ClientOk, ConnectionsOk, Interrupted, Down;
    var c := s.clients[id];
    var p := PidOf(s.world, c.dbdir);
    var signals := s.world.signals + PartlyDelivered(seen.ending, p);
    InterruptedIs(s.world, c, seen);
    if GoesDown(s.world, c, seen) {
      DownInv(s, p, StopSaves(s.world, c, seen), true, signals);
    } else {
      SignalsInv(s, signals);
    }
  }

  /** The end of a complete close. */
  lemma LeaveInv(s: System, id: ClientId, w2: World, c2: Client)
    requires Inv(s) && Running(s, id) && WorldInv(w2, None) && !c2.running
    requires w2.hooks == s.world.hooks && Fewer(s.world, w2, s.clients[id])
    requires forall p <- w2.daemons :: w2.daemons[p] == s.world.daemons[p]
    ensures Inv(System(Disconnect(w2.(hooks := w2.hooks - {id}), id), s.clients[id := c2]))
  {
    hide WorldInv, ClientOk, ConnectionsOk;
    var w3 := w2.(hooks := w2.hooks - {id});
    HooksKeep(w2, w3.hooks, None);
    DisconnectShape(w3, id);
    var v := System(Disconnect(w3, id), s.clients[id := c2]);
    ShapeKeeps(w3, v.world, None);
    RetireInv(s, v, w3, id);
  }

  // ---- Every step keeps the invariant ----

  /** A failed open: the daemons and hooks are as before. */
  lemma IdleInv(s: System, v: World)
    requires Inv(s) && WorldInv(v, None) && v.daemons == s.world.daemons && v.hooks == s.world.hooks
    requires s.world.dirs <= v.dirs && s.world.nextTemp <= v.nextTemp && v.tempLen == s.world.tempLen
    ensures Inv(s.(world := v))
  {
    hide WorldInv;
    var u := s.(world := v);
    assert RunningIds(u) == RunningIds(s);
    assert forall i :: Running(u, i) <==> Running(s, i);
  }

  /** The daemons after a client joined: the old ones, with at most its connection added, and perhaps
      a new one of its own whose socket nobody else uses. */
  ghost predicate Joined(w: World, v: World, id: ClientId, c: Client) {
    && (forall p <- w.daemons :: p in v.daemons)
    && (forall p <- v.daemons :: p in w.daemons ==>
          && v.daemons[p].dir == w.daemons[p].dir && v.daemons[p].sock == w.daemons[p].sock
          && forall i <- v.daemons[p].conns :: i in w.daemons[p].conns || (i == id && v.daemons[p].sock == c.socket))
    && (forall p <- v.daemons :: p !in w.daemons ==>
          && v.daemons[p].dir == c.dbdir && v.daemons[p].sock == c.socket
          && (Fresh(w, c.socket) || c.socket == c.dbdir)
          && forall i <- v.daemons[p].conns :: i == id)
  }

  lemma JoinInv(s: System, v: World, id: ClientId, c: Client)
    requires Inv(s) && Unknown(s, id) && WorldInv(v, None) && ClientOk(v, c) && c.running
    requires v.hooks == s.world.hooks + {id} && Joined(s.world, v, id, c)
    requires s.world.dirs <= v.dirs && s.world.nextTemp <= v.nextTemp && v.tempLen == s.world.tempLen
    requires c.registry.None? ==> c.dbdir !in s.world.dirs
    ensures Inv(System(v, s.clients[id := c]))
  {
    hide WorldInv;
    var u := System(v, s.clients[id := c]);
    assert RunningIds(u) == RunningIds(s) + {id};
    assert forall i :: Running(u, i) <==> Running(s, i) || i == id;
    forall i | Running(u, i) ensures ClientOk(v, u.clients[i]) {
      if i != id {
        OtherJoins(s.world, v, id, c, s.clients[i]);
      }
    }
  }

  lemma OtherJoins(w: World, v: World, id: ClientId, c: Client, other: Client)
    requires ClientOk(w, other) && Joined(w, v, id, c) && ClientOk(v, c)
    requires w.dirs <= v.dirs && w.nextTemp <= v.nextTemp && v.tempLen == w.tempLen
    ensures ClientOk(v, other)
  {
  }

  /** What holds just before the try block. */
  lemma PreparedOk(w: World, id: ClientId, target: Option<Dir>, fault: Fault)
    requires WorldInv(w, None) && (target.Some? ==> target.value.User?)
    ensures var r := Prepare(w, target, fault);
            r.client.Some? ==>
              var c, v := r.client.value, r.world.(hooks := r.world.hooks + {id});
              && WorldInv(v, None) && ClientOk(v, c) && c.registry == target && c.socket in v.dirs
              && PidOf(v, c.dbdir) == PidOf(w, c.dbdir)
              && (PidOf(w, c.dbdir) == 0 ==> MayStart(v, c))
              && (PidOf(w, c.dbdir) != 0 ==> c.registry.Some?)
              && (if c.sockDir.Some? then c.sockDir == Some(c.socket) && Fresh(w, c.socket) else c.socket == c.dbdir)
              && (c.registry.None? ==> Fresh(w, c.dbdir))
              && w.dirs <= v.dirs - PrivateDir(c) - OwnSockDir(c)
              && (forall d <- v.dirs :: d.Private? ==> d in w.dirs || PrivateDir(c) == {d})
              && v == w.(dirs := v.dirs, nextTemp := v.nextTemp, hooks := w.hooks + {id})
              && (c.sockDir.Some? ==> forall p <- v.daemons ::
                  v.daemons[p].dir != c.socket && v.daemons[p].sock != c.socket)
  {
    hide WorldInv;
    var r := Prepare(w, target, fault);
    PrepareKeeps(w, target, fault);
    if r.client.Some? {
      var c, v := r.client.value, r.world.(hooks := r.world.hooks + {id});
      HooksKeep(r.world, v.hooks, None);
      ServedIffPid(w, c.dbdir, None);
      SocketInPlace(w, c.dbdir, None);
      if c.sockDir.Some? {
        NoDaemonIfFresh(w, c.socket, None);
        FreshIsUnused(w, c.socket);
      }
      if c.registry.None? {
        NoDaemonIfFresh(w, c.dbdir, None);
      }
    }
  }

  lemma FreshIsUnused(w: World, d: Dir)
    requires WorldInv(w, None) && Fresh(w, d)
    ensures Unused(w, d)
  {
  }

  lemma OpenInv(s: System, id: ClientId, target: Option<Dir>, seen: OpenSeen)
    requires Inv(s) && Enabled(s, OpenClient(id, target, seen))
    ensures Inv(Step(s, OpenClient(id, target, seen)))
  {
    hide WorldInv, ClientOk, MayStart, AttachOrStart, Prepare, Joined, Touch, ConnectionsOk, Started, CleanedUp;
    var w := s.world;
    var p := Prepare(w, target, seen.fault);
    PrepareKeeps(w, target, seen.fault);
    if p.client.None? {
      IdleInv(s, p.world);
    } else {
      PreparedOk(w, id, target, seen.fault);
      var c, v := p.client.value, p.world.(hooks := p.world.hooks + {id});
      AttachOrStartOutcome(v, id, c, seen);
      var r := AttachOrStart(v, id, c, seen);
      if PidOf(w, c.dbdir) == 0 {
        if r.client.None? && StopsAfterStart(c.registry, seen) {
          UndoStopsIff(w, target, seen);
          StuckInv(s, v, id, c, seen);
        } else if r.client.None? {
          UndoneIdle(v, r.world, id, c);
          assert v.hooks - {id} == w.hooks;
          IdleInv(s, r.world);
        } else {
          StartedKeeps(v, id, c);
          StartedJoins(w, v, id, c, r.client.value);
          JoinInv(s, r.world, id, r.client.value);
        }
      } else {
        AttachInv(s, v, id, c, seen);
      }
    }
  }

  lemma HomeRegistry(w: World, c: Client)
    requires ClientOk(w, c)
    ensures c.registry.Some? ==> c.registry.value == c.dbdir && c.dbdir.User?
  {
  }

  /** Under the invariant, an attempt is stuck exactly if its directory has no daemon and it fails and
      raises again after the launch. */
  lemma UndoStopsIff(w: World, target: Option<Dir>, seen: OpenSeen)
    requires WorldInv(w, None) && (target.Some? ==> target.value.User?)
    ensures var r := Prepare(w, target, seen.fault);
            UndoStops(w, target, seen) <==>
              r.client.Some? && PidOf(w, r.client.value.dbdir) == 0 && StopsAfterStart(r.client.value.registry, seen)
  {
    hide WorldInv, ClientOk, StopsAfterStart, Load;
    PrepareKeeps(w, target, seen.fault);
    var r := Prepare(w, target, seen.fault);
    if r.client.Some? {
      HomeRegistry(r.world, r.client.value);
      if target.Some? {
        LoadOutcome(w, target.value);
      } else {
        NoDaemonIfFresh(w, r.client.value.dbdir, None);
        ServedIffPid(w, r.client.value.dbdir, None);
      }
    }
  }

  /** An attempt stuck in its rollback: no client joined, but its hook stays, and perhaps its daemon. */
  lemma StuckInv(s: System, v: World, id: ClientId, c: Client, seen: OpenSeen)
    requires Inv(s) && Unknown(s, id) && WorldInv(v, None) && MayStart(v, c)
    requires v == s.world.(dirs := v.dirs, nextTemp := v.nextTemp, hooks := s.world.hooks + {id})
    requires s.world.dirs <= v.dirs && s.world.nextTemp <= v.nextTemp
    requires if c.sockDir.Some? then Fresh(s.world, c.socket) else c.socket == c.dbdir
    requires c.registry.Some? && seen.fault.RegistryFault? ==> seen.ending.ByTerm?
    ensures Inv(System(Stuck(v, c, seen), s.clients))
  {
    hide WorldInv, ClientOk, ConnectionsOk, Stuck, Started;
    var t := Stuck(v, c, seen);
    PidFacts(v, None);
    StuckKeeps(v, c, seen);
    StuckFields(v, c, seen);
    StartedJoins(s.world, v, id, c, c.(running := true, conf := Some(c.dbdir)));
    StuckJoins(s.world, v, t, id, c, seen);
    var u := System(t, s.clients);
    assert RunningIds(u) == RunningIds(s);
    assert forall i :: Running(u, i) <==> Running(s, i);
    forall i | Running(u, i) ensures ClientOk(t, u.clients[i]) {
      OtherJoins(s.world, t, id, c.(running := true, conf := Some(c.dbdir)), s.clients[i]);
    }
    StuckConnections(s, t, id, c.(running := true, conf := Some(c.dbdir)));
  }

  lemma StuckJoins(w: World, v: World, t: World, id: ClientId, c: Client, seen: OpenSeen)
    requires WorldInv(v, None) && MayStart(v, c) && v.daemons == w.daemons
    requires if c.sockDir.Some? then Fresh(w, c.socket) else c.socket == c.dbdir
    requires t.daemons == (if seen.ending.ByTerm? then v.daemons
                           else v.daemons[v.nextPid := Daemon(c.dbdir, c.socket, OnDisk(v, c.dbdir), multiset{})])
    requires t.dirs == v.dirs && t.nextTemp == v.nextTemp && t.tempLen == v.tempLen
    ensures var c1 := c.(running := true, conf := Some(c.dbdir)); Joined(w, t, id, c1) && ClientOk(t, c1)
  {
    PidFacts(v, None);
    hide WorldInv;
    var c1 := c.(running := true, conf := Some(c.dbdir));
    StuckClientOk(v, t, c, seen);
    hide ClientOk, MayStart;
  }

  lemma StuckClientOk(v: World, t: World, c: Client, seen: OpenSeen)
    requires MayStart(v, c)
    requires t.daemons == (if seen.ending.ByTerm? then v.daemons
                           else v.daemons[v.nextPid := Daemon(c.dbdir, c.socket, OnDisk(v, c.dbdir), multiset{})])
    requires t.dirs == v.dirs && t.nextTemp == v.nextTemp && t.tempLen == v.tempLen
    ensures ClientOk(t, c.(running := true, conf := Some(c.dbdir)))
  {
  }

  lemma StuckConnections(s: System, t: World, id: ClientId, c: Client)
    requires Inv(s) && id !in s.clients && Joined(s.world, t, id, c)
    ensures ConnectionsOk(System(t, s.clients)) && Distinct(System(t, s.clients))
  {
    hide WorldInv, ClientOk;
    var u := System(t, s.clients);
    assert forall i :: Running(u, i) <==> Running(s, i);
  }

  lemma UndoneIdle(w: World, v: World, id: ClientId, c: Client)
    requires Undone(w, v, id, c)
    ensures WorldInv(v, None) && v.daemons == w.daemons && v.hooks == w.hooks - {id}
    ensures v.dirs == w.dirs - PrivateDir(c) - OwnSockDir(c) && v.nextTemp == w.nextTemp && v.tempLen == w.tempLen
  {
  }

  lemma StartedJoins(w: World, v: World, id: ClientId, c: Client, c1: Client)
    requires WorldInv(v, None) && MayStart(v, c) && v.daemons == w.daemons
    requires c1 == c.(running := true, conf := Some(c.dbdir))
    requires if c.sockDir.Some? then Fresh(w, c.socket) else c.socket == c.dbdir
    ensures Joined(w, Started(v, id, c), id, c1) && ClientOk(Started(v, id, c), c1)
    ensures var u := Started(v, id, c);
            u.hooks == v.hooks && u.dirs == v.dirs && u.nextTemp == v.nextTemp && u.tempLen == v.tempLen
  {
    PidFacts(v, None);
  }

  /** Joining a daemon that already serves, or failing to. */
  lemma AttachInv(s: System, v: World, id: ClientId, c: Client, seen: OpenSeen)
    requires Inv(s) && Unknown(s, id) && WorldInv(v, None) && ClientOk(v, c) && c.socket in v.dirs
    requires v == s.world.(dirs := v.dirs, nextTemp := v.nextTemp, hooks := s.world.hooks + {id})
    requires PidOf(s.world, c.dbdir) != 0 && c.registry.Some? && s.world.nextTemp <= v.nextTemp
    requires s.world.dirs <= v.dirs - PrivateDir(c) - OwnSockDir(c)
    requires c.sockDir.Some? ==> forall p <- v.daemons :: v.daemons[p].dir != c.socket && v.daemons[p].sock != c.socket
    ensures var r := AttachOrStart(v, id, c, seen);
            Inv(System(r.world, if r.client.Some? then s.clients[id := r.client.value] else s.clients))
  {
    hide WorldInv, MayStart, AttachOrStart, ConnectionsOk;
    var w := s.world;
    AttachOrStartOutcome(v, id, c, seen);
    var r := AttachOrStart(v, id, c, seen);
    var p := PidOf(v, c.dbdir);
    var u := RmTreeOpt(v, c.sockDir);
    if c.sockDir.Some? {
      RmTreeKeeps(v, c.socket, None);
    }
    if r.client.None? {
      HooksKeep(u, w.hooks, None);
      assert v.hooks - {id} == w.hooks;
      IdleInv(s, r.world);
    } else {
      var sock := w.daemons[p].sock;
      TouchShape(u, id, sock);
      ShapeKeeps(u, r.world, None);
      LoadOutcome(v, c.dbdir);
      AttachedOk(w, v, c, r.client.value, p);
      AttachJoins(w, u, id, sock, r.client.value);
      SameShapeOk(u, r.world, r.client.value);
      JoinInv(s, r.world, id, r.client.value);
    }
  }

  lemma SameShapeOk(w: World, v: World, c: Client)
    requires ClientOk(w, c) && SameShape(w, v)
    ensures ClientOk(v, c)
  {
  }

  lemma AttachedOk(w: World, v: World, c: Client, c1: Client, p: nat)
    requires WorldInv(w, None) && ClientOk(v, c) && p in w.daemons && w.daemons[p].dir == c.dbdir && c.registry.Some?
    requires v.daemons == w.daemons && w.nextTemp <= v.nextTemp && v.tempLen == w.tempLen
    requires c1 == c.(running := true, socket := w.daemons[p].sock, sockDir := None)
    requires w.dirs <= v.dirs - OwnSockDir(c)
    requires c.sockDir.Some? ==> c.socket.SockTemp?
    ensures ClientOk(RmTreeOpt(v, c.sockDir), c1)
  {
    assert DaemonOk(w, p, None);
    assert Fresh(w, c1.socket) ==> Unused(w, c1.socket);
    forall q <- v.daemons ensures v.daemons[q].sock == c1.socket ==> q == p {
      assert DaemonOk(w, q, None);
    }
  }

  lemma AttachJoins(w: World, u: World, id: ClientId, sock: Dir, c1: Client)
    requires u.daemons == w.daemons && c1.socket == sock
    requires Reach(u, sock) != 0 ==> u.daemons[Reach(u, sock)].sock == sock
    ensures Joined(w, Touch(u, id, sock), id, c1)
  {
  }

  lemma OutsideInv(s: System, e: Event)
    requires Inv(s) && Enabled(s, e) && !e.OpenClient? && !e.CloseClient?
    ensures Inv(Step(s, e))
  {
    hide WorldInv, ClientOk, ConnectionsOk, Touch, Write, Disconnect, AddConnection;
    var w, v := s.world, Step(s, e);
    match e {
      case SetKey(id, key, value) =>
        var sock := s.clients[id].socket;
        TouchShape(w, id, sock);
        TouchConnections(s, id);
        SameClientsInv(s, s.(world := Touch(w, id, sock)));
        WriteInv(s.(world := Touch(w, id, sock)), sock, key, value);
      case GetKey(id, _) =>
        TouchShape(w, id, s.clients[id].socket);
        TouchConnections(s, id);
        SameClientsInv(s, v);
      case MoreConnections(id) =>
        var pid := Reach(w, s.clients[id].socket);
        if pid != 0 {
          AddedConnections(s, id, pid);
        }
      case DropConnections(id) =>
        DisconnectInv(s, id);
      case ForeignConnection(id, pid) =>
        AddedConnections(s, id, pid);
      case BackgroundSave(pid) =>
        SaveKeeps(w, pid);
        IdleInv(s, v.world);
      case DaemonCrash(pid) =>
        CrashInv(s, pid);
      case ClientKilled(id) =>
        var w3 := w.(hooks := w.hooks - {id});
        HooksKeep(w, w3.hooks, None);
        DisconnectShape(w3, id);
        ShapeKeeps(w3, v.world, None);
        RetireInv(s, v, w3, id);
    }
  }

  lemma WriteInv(s: System, sock: Dir, key: string, value: string)
    requires Inv(s)
    ensures Inv(s.(world := Write(s.world, sock, key, value)))
  {
    hide WorldInv;
    WriteShape(s.world, sock, key, value);
    SameClientsInv(s, s.(world := Write(s.world, sock, key, value)));
  }

  lemma AddedConnections(s: System, id: ClientId, pid: nat)
    requires Inv(s) && pid in s.world.daemons
    requires Unknown(s, id) || (Running(s, id) && pid == Reach(s.world, s.clients[id].socket))
    ensures Inv(s.(world := AddConnection(s.world, id, pid)))
  {
    var v := s.(world := AddConnection(s.world, id, pid));
    assert ConnectionsOk(v);
    SameClientsInv(s, v);
  }

  lemma SaveKeeps(w: World, pid: nat)
    requires WorldInv(w, None) && pid in w.daemons
    ensures WorldInv(w.(rdb := w.rdb[w.daemons[pid].dir := w.daemons[pid].data]), None)
  {
    var v := w.(rdb := w.rdb[w.daemons[pid].dir := w.daemons[pid].data]);
    forall p <- v.daemons ensures DaemonOk(v, p, None) {
      assert DaemonOk(w, p, None);
    }
    forall f | Fresh(v, f) ensures Unused(v, f) {
      assert Fresh(w, f) && w.daemons[pid].dir in w.dirs;
    }
  }

  lemma CrashInv(s: System, pid: nat)
    requires Inv(s) && pid in s.world.daemons
    ensures Inv(s.(world := Exit(s.world, pid)))
  {
    DownInv(s, pid, false, false, s.world.signals);
  }

  /** The hooks that a step adds without a client to own them. */
  function Abandons(s: System, e: Event): set<ClientId> {
    match e
    case OpenClient(id, target, seen) => if UndoStops(s.world, target, seen) then {id} else {}
    case _ => {}
  }

  lemma OpenStrays(s: System, id: ClientId, target: Option<Dir>, seen: OpenSeen)
    requires Inv(s) && Openable(s, id, target)
    ensures var r := Open(s.world, id, target, seen);
            r.world.hooks == s.world.hooks + (if r.client.Some? || UndoStops(s.world, target, seen) then {id} else {})
            && (UndoStops(s.world, target, seen) ==> r.client.None?)
  {
    hide WorldInv, ClientOk, MayStart, AttachOrStart, Prepare, Touch, ConnectionsOk, Started, CleanedUp,
      Undone, Stuck, UndoStops;
    var w := s.world;
    var p := Prepare(w, target, seen.fault);
    PrepareKeeps(w, target, seen.fault);
    UndoStopsIff(w, target, seen);
    if p.client.Some? {
      PreparedOk(w, id, target, seen.fault);
      var c, v := p.client.value, p.world.(hooks := p.world.hooks + {id});
      AttachOrStartOutcome(v, id, c, seen);
      var r := AttachOrStart(v, id, c, seen);
      PidFacts(v, None);
      assert v.hooks - {id} == w.hooks;
      if PidOf(w, c.dbdir) != 0 {
        if r.client.Some? {
          TouchShape(RmTreeOpt(v, c.sockDir), id, v.daemons[PidOf(v, c.dbdir)].sock);
        }
      } else if r.client.Some? {
        StartedHooks(v, id, c);
      } else if StopsAfterStart(c.registry, seen) {
        StuckFields(v, c, seen);
      } else {
        UndoneIdle(v, r.world, id, c);
      }
    }
  }

  lemma StartedHooks(w: World, id: ClientId, c: Client)
    ensures Started(w, id, c).hooks == w.hooks
  {
  }

  lemma CloseStrays(s: System, id: ClientId, seen: CloseSeen)
    requires Inv(s) && id in s.clients
    ensures Strays(Step(s, CloseClient(id, seen))) == Strays(s)
  {
    var t := Step(s, CloseClient(id, seen));
    CloseHooks(s, id, seen);
    CloseRuns(s, id, seen);
    hide WorldInv, ClientOk, ConnectionsOk, Step, CloseRaises;
    assert Strays(s) !! s.clients.Keys;
  }

  lemma CloseHooks(s: System, id: ClientId, seen: CloseSeen)
    requires Inv(s) && id in s.clients
    ensures Step(s, CloseClient(id, seen)).world.hooks
            == if Running(s, id) && !CloseRaises(s, id, seen) then s.world.hooks - {id} else s.world.hooks
  {
    hide WorldInv, ConnectionsOk, ClientOk, StopServer, Interrupted, Touch, Disconnect;
    var w, c := s.world, s.clients[id];
    DisconnectHooks(w, id);
    if c.running {
      var w1 := if c.registry.Some? then Touch(w, id, c.socket) else w;
      TouchShape(w, id, c.socket);
      ShapeKeeps(w, w1, None);
      SameShapeOk(w, w1, c);
      StopServerKeeps(w1, c, seen);
      InterruptedHooks(w1, c, seen);
      var u := if c.registry.None? || ConnectionCount(w1, c.socket) <= 1 then StopServer(w1, c, seen) else w1;
      DisconnectHooks(w1, id);
      DisconnectHooks(Interrupted(w1, c, seen), id);
      DisconnectHooks(u.(hooks := u.hooks - {id}), id);
    }
  }

  lemma DisconnectHooks(w: World, id: ClientId)
    ensures Disconnect(w, id).hooks == w.hooks
  {
  }

  lemma InterruptedHooks(w: World, c: Client, seen: CloseSeen)
    ensures Interrupted(w, c, seen).hooks == w.hooks
  {
    hide PidOf, Reach;
  }

  lemma CloseRuns(s: System, id: ClientId, seen: CloseSeen)
    requires id in s.clients
    ensures var t := Step(s, CloseClient(id, seen));
            && t.clients.Keys == s.clients.Keys
            && RunningIds(t) == if CloseRaises(s, id, seen) then RunningIds(s) else RunningIds(s) - {id}
  {
    hide StopServer, Interrupted, Touch, Disconnect;
  }

  /** A step adds a hook without a running client exactly if its rollback is stuck, and removes none. */
  lemma StepStrays(s: System, e: Event)
    requires Inv(s) && Enabled(s, e)
    ensures Strays(Step(s, e)) == Strays(s) + Abandons(s, e)
  {
    match e {
      case OpenClient(id, target, seen) =>
        OpenStrays(s, id, target, seen);
        hide Inv, Open, UndoStops, LosesServer;
        var r := Open(s.world, id, target, seen);
        assert RunningIds(Step(s, e)) == if r.client.Some? then RunningIds(s) + {id} else RunningIds(s) by {
          if r.client.Some? {
            OpenedRuns(s.world, id, target, seen);
          }
        }
      case CloseClient(id, seen) =>
        hide Inv, Step;
        CloseStrays(s, id, seen);
      case ClientKilled(id) =>
        assert RunningIds(Step(s, e)) == RunningIds(s) - {id};
        assert Strays(s) !! s.clients.Keys;
      case _ =>
        QuietStrays(s, e);
    }
  }

  lemma OpenedRuns(w: World, id: ClientId, target: Option<Dir>, seen: OpenSeen)
    requires Open(w, id, target, seen).client.Some?
    ensures Open(w, id, target, seen).client.value.running
  {
    hide Touch, Undo, Rollback, StartServer, SaveRegistry, Load, Prepare;
  }

  lemma QuietStrays(s: System, e: Event)
    requires Enabled(s, e) && !e.OpenClient? && !e.CloseClient? && !e.ClientKilled?
    ensures Strays(Step(s, e)) == Strays(s)
  {
    assert Step(s, e).clients == s.clients && Step(s, e).world.hooks == s.world.hooks;
  }

  lemma StepInv(s: System, e: Event)
    requires Inv(s) && Enabled(s, e)
    ensures Inv(Step(s, e))
  {
    hide Inv, Step;
    match e {
      case OpenClient(id, target, seen) => OpenInv(s, id, target, seen);
      case CloseClient(id, seen) => CloseInv(s, id, seen);
      case _ => OutsideInv(s, e);
    }
  }

  /** Every reachable state of every run keeps the invariant. */
  lemma {:induction false} RunInv(s: System, es: seq<Event>)
    requires Inv(s) && EnabledRun(s, es)
    ensures Inv(Run(s, es))
    decreases |es|
  {
    if es == [] {
    } else {
      StepInv(s, es[0]);
      RunInv(Step(s, es[0]), es[1..]);
    }
  }

  /** The hooks that a run leaves without a client. */
  function RunAbandons(s: System, es: seq<Event>): set<ClientId>
    requires EnabledRun(s, es)
    decreases |es|
  {
    if es == [] then {} else Abandons(s, es[0]) + RunAbandons(Step(s, es[0]), es[1..])
  }

  lemma {:induction false} RunStrays(s: System, es: seq<Event>)
    requires Inv(s) && EnabledRun(s, es)
    ensures Strays(Run(s, es)) == Strays(s) + RunAbandons(s, es)
    decreases |es|
  {
    hide Inv, Step, Strays, Abandons;
    if es == [] {
    } else {
      StepInv(s, es[0]);
      StepStrays(s, es[0]);
      RunStrays(Step(s, es[0]), es[1..]);
    }
  }
}
