/** Attaching, the last client's save and every restart are invisible: as long as no step loses data, a
    run answers as one persistent map per database path, and one empty map for each isolated client. */
module Refinement {
  import opened Wrappers
  import opened Processes
  import opened HostWorld
  import opened Lifecycle
  import opened Discipline
  import opened Guarantees

  // ---- The specification: persistent maps ----

  /** A store: one per database path, shared by its clients, and one per isolated client. */
  datatype Slot = Shared(dir: Dir) | Own(id: ClientId)

  datatype Maps = Maps(clients: map<ClientId, Slot>, store: map<Slot, Data>)

  datatype Answer = NoServer | Reply(value: Option<string>)

  datatype Label =
    | Silent
    | Entered(id: ClientId, slot: Slot)
    | Retired(id: ClientId)
    | Stored(id: ClientId, key: string, value: string, answered: bool)
    | Fetched(id: ClientId, key: string, answer: Answer)

  function Lookup(store: map<Slot, Data>, slot: Slot): Data {
    if slot in store then store[slot] else map[]
  }

  function Fetch(data: Data, key: string): Option<string> {
    if key in data then Some(data[key]) else None
  }

  /** May the maps do this? A command that gets an answer gets the stored value. */
  predicate Allows(m: Maps, l: Label) {
    match l
    case Silent => true
    case Entered(id, slot) => id !in m.clients && (slot.Own? ==> slot.id == id && Lookup(m.store, slot) == map[])
    case Retired(id) => true
    case Stored(id, _, _, _) => id in m.clients
    case Fetched(id, key, answer) =>
      id in m.clients && (answer.Reply? ==> answer == Reply(Fetch(Lookup(m.store, m.clients[id]), key)))
  }

  function Next(m: Maps, l: Label): Maps
    requires Allows(m, l)
  {
    match l
    case Silent => m
    case Entered(id, slot) => m.(clients := m.clients[id := slot])
    case Retired(id) => Maps(m.clients - {id}, m.store - {Own(id)})
    case Stored(id, key, value, answered) =>
      if !answered then m else
      m.(store := m.store[m.clients[id] := Lookup(m.store, m.clients[id])[key := value]])
    case Fetched(_, _, _) => m
  }

  predicate Accepts(m: Maps, labels: seq<Label>)
    decreases |labels|
  {
    labels == [] || (Allows(m, labels[0]) && Accepts(Next(m, labels[0]), labels[1..]))
  }

  /** Not a command, or one that got an answer. */
  predicate Answered(l: Label) {
    (l.Stored? ==> l.answered) && (l.Fetched? ==> l.answer.Reply?)
  }

  // ---- What a run shows ----

  function SlotOf(id: ClientId, c: Client): Slot {
    if c.registry.Some? then Shared(c.dbdir) else Own(id)
  }

  /** GET on the daemon behind a socket. */
  function Ask(w: World, sock: Dir, key: string): Answer {
    var pid := Reach(w, sock);
    if pid == 0 then NoServer else Reply(Fetch(w.daemons[pid].data, key))
  }

  function LabelOf(s: System, e: Event): Label
    requires Enabled(s, e)
  {
    match e
    case OpenClient(id, target, seen) =>
      var r := Open(s.world, id, target, seen);
      if r.client.Some? then Entered(id, SlotOf(id, r.client.value)) else Silent
    case CloseClient(id, seen) => if CloseRaises(s, id, seen) then Silent else Retired(id)
    case ClientKilled(id) => Retired(id)
    case SetKey(id, key, value) => Stored(id, key, value, Reach(s.world, s.clients[id].socket) != 0)
    case GetKey(id, key) =>
      var sock := s.clients[id].socket;
      Fetched(id, key, Ask(Touch(s.world, id, sock), sock, key))
    case _ => Silent
  }

  function Labels(s: System, es: seq<Event>): (labels: seq<Label>)
    requires EnabledRun(s, es)
    decreases |es|
  {
    if es == [] then [] else [LabelOf(s, es[0])] + Labels(Step(s, es[0]), es[1..])
  }

  // ---- The simulation ----

  /** What a directory holds: its daemon's memory, or the RDB file. */
  function Contents(w: World, d: Dir): Data {
    var p := PidOf(w, d);
    if p != 0 && p in w.daemons then w.daemons[p].data else OnDisk(w, d)
  }

  function SlotData(s: System, slot: Slot): Data {
    match slot
    case Shared(d) => Contents(s.world, d)
    case Own(id) =>
      if Running(s, id) && s.clients[id].registry.None? then Contents(s.world, s.clients[id].dbdir) else map[]
  }

  ghost predicate Simulates(s: System, m: Maps) {
    && m.clients.Keys == RunningIds(s)
    && (forall id <- m.clients :: m.clients[id] == SlotOf(id, s.clients[id]))
    && (forall slot: Slot :: (slot.Shared? ==> slot.dir.User?) ==> Lookup(m.store, slot) == SlotData(s, slot))
  }

  // ---- Steps that lose nothing ----

  /** SHUTDOWN gets through to the daemon on the client's socket. */
  predicate GetsThrough(s: System, id: ClientId, seen: CloseSeen)
    requires id in s.clients
  {
    seen.accepted && Reach(s.world, s.clients[id].socket) != 0
  }

  /** A close that loses no data: it takes no daemon down, or nothing was unsaved, or the data is not to be
      kept, or it is saved by SHUTDOWN or on SIGTERM. */
  predicate CloseKeeps(s: System, id: ClientId, seen: CloseSeen)
    requires id in s.clients
  {
    var w, c := s.world, s.clients[id];
    var p := PidOf(w, c.dbdir);
    || !c.running || p !in w.daemons || p in Step(s, CloseClient(id, seen)).world.daemons
    || OnDisk(w, c.dbdir) == w.daemons[p].data
    || StopSaves(w, c, seen) || (c.registry.None? && !CloseRaises(s, id, seen))
  }

  /** A step that loses no data. */
  predicate Keeps(s: System, e: Event)
    requires Enabled(s, e)
  {
    match e
    case CloseClient(id, seen) => CloseKeeps(s, id, seen)
    case DaemonCrash(pid) => OnDisk(s.world, s.world.daemons[pid].dir) == s.world.daemons[pid].data
    case _ => true
  }

  predicate KeepsRun(s: System, es: seq<Event>)
    requires EnabledRun(s, es)
    decreases |es|
  {
    es == [] || (Keeps(s, es[0]) && KeepsRun(Step(s, es[0]), es[1..]))
  }

  lemma ContentsOfDaemon(w: World, p: nat)
    requires WorldInv(w, None) && p in w.daemons
    ensures Contents(w, w.daemons[p].dir) == w.daemons[p].data
  {
    DaemonIsPid(w, p);
  }

  lemma ContentsOfDisk(w: World, d: Dir)
    requires WorldInv(w, None) && forall p <- w.daemons :: w.daemons[p].dir != d
    ensures Contents(w, d) == OnDisk(w, d)
  {
    ServedIffPid(w, d, None);
  }

  /** Same daemon with the same data, or no daemon and the same file: same contents. */
  lemma SameContents(w: World, v: World, d: Dir)
    requires WorldInv(w, None) && WorldInv(v, None)
    requires forall p <- w.daemons :: w.daemons[p].dir == d ==>
               p in v.daemons && v.daemons[p].dir == d && v.daemons[p].data == w.daemons[p].data
    requires (forall p <- w.daemons :: w.daemons[p].dir != d) ==>
               OnDisk(v, d) == OnDisk(w, d) && forall p <- v.daemons :: v.daemons[p].dir != d
    ensures Contents(v, d) == Contents(w, d)
  {
    hide WorldInv;
    if p :| p in w.daemons && w.daemons[p].dir == d {
      ContentsOfDaemon(w, p);
      ContentsOfDaemon(v, p);
    } else {
      ContentsOfDisk(w, d);
      ContentsOfDisk(v, d);
    }
  }

  // ---- Opening ----

  /** Opening, successful or not, changes the contents of no directory that anybody knows. */
  lemma OpenContents(s: System, id: ClientId, target: Option<Dir>, seen: OpenSeen, d: Dir)
    requires Inv(s) && Enabled(s, OpenClient(id, target, seen))
    requires d.User? || (d.Private? && d in s.world.dirs)
    ensures Contents(Step(s, OpenClient(id, target, seen)).world, d) == Contents(s.world, d)
  {
    hide WorldInv, ClientOk, MayStart, AttachOrStart, Prepare, Touch, ConnectionsOk, Started, CleanedUp,
      OwnSocket, Contents;
    var w, t := s.world, Step(s, OpenClient(id, target, seen));
    OpenInv(s, id, target, seen);
    var r := Prepare(w, target, seen.fault);
    if r.client.None? {
      PrepareFails(w, target, seen);
      SameContents(w, t.world, d);
      return;
    }
    PreparedOk(w, id, target, seen.fault);
    var c, v := r.client.value, r.world.(hooks := r.world.hooks + {id});
    AttachOrStartOutcome(v, id, c, seen);
    var o := AttachOrStart(v, id, c, seen);
    ServedIffPid(w, c.dbdir, None);
    if c.registry.None? {
      NoDaemonIfFresh(w, c.dbdir, None);
    }
    if PidOf(w, c.dbdir) != 0 {
      AttachContents(v, o.world, id, c, d, o.client.Some?);
      SameContents(w, o.world, d);
    } else if o.client.None? && StopsAfterStart(c.registry, seen) {
      PidFacts(v, None);
      StuckContents(w, v, o.world, c, seen, d);
    } else if o.client.None? {
      UndoneContents(v, o.world, id, c, d);
      UndoneIdle(v, o.world, id, c);
      SameContents(w, o.world, d);
    } else {
      StartedContents(w, v, id, c, d);
    }
  }

  lemma StuckContents(w: World, v: World, t: World, c: Client, seen: OpenSeen, d: Dir)
    requires WorldInv(w, None) && WorldInv(t, None) && t == Stuck(v, c, seen) && v.nextPid !in v.daemons
    requires v == w.(dirs := v.dirs, nextTemp := v.nextTemp, hooks := v.hooks)
    requires forall p <- w.daemons :: w.daemons[p].dir != c.dbdir
    ensures Contents(t, d) == Contents(w, d)
  {
    hide Contents, Stuck, OnDisk;
    if d == c.dbdir {
      StuckHome(w, v, t, c, seen);
    } else {
      StuckFields(v, c, seen);
      StuckDisk(v, c, seen, d);
      OnDiskOf(w, v, d);
      PidFacts(w, None);
      hide WorldInv;
      SameContents(w, t, d);
    }
  }

  lemma StuckHome(w: World, v: World, t: World, c: Client, seen: OpenSeen)
    requires WorldInv(w, None) && WorldInv(t, None) && t == Stuck(v, c, seen) && v.nextPid !in v.daemons
    requires v == w.(dirs := v.dirs, nextTemp := v.nextTemp, hooks := v.hooks)
    requires forall p <- w.daemons :: w.daemons[p].dir != c.dbdir
    ensures Contents(t, c.dbdir) == Contents(w, c.dbdir)
  {
    hide Contents, Stuck, OnDisk, WorldInv;
    StuckFields(v, c, seen);
    StuckDisk(v, c, seen, c.dbdir);
    OnDiskOf(w, v, c.dbdir);
    ContentsOfDisk(w, c.dbdir);
    if seen.ending.ByTerm? {
      ContentsOfDisk(t, c.dbdir);
    } else {
      ContentsOfDaemon(t, v.nextPid);
    }
  }

  lemma OnDiskOf(w: World, v: World, d: Dir)
    requires v.rdb == w.rdb
    ensures OnDisk(v, d) == OnDisk(w, d)
  {
  }

  lemma StuckDisk(w: World, c: Client, seen: OpenSeen, d: Dir)
    requires w.nextPid !in w.daemons
    ensures OnDisk(Stuck(w, c, seen), d) == OnDisk(w, d)
  {
    StuckFields(w, c, seen);
    var t := Stuck(w, c, seen);
    hide Stuck;
    assert d in t.rdb - {c.dbdir} <==> d in w.rdb - {c.dbdir};
    assert d in t.rdb - {c.dbdir} ==> (t.rdb - {c.dbdir})[d] == (w.rdb - {c.dbdir})[d];
  }

  lemma AttachContents(v: World, t: World, id: ClientId, c: Client, d: Dir, joined: bool)
    requires c.sockDir.Some? ==> c.sockDir == Some(c.socket) && c.socket != d
    requires var u := RmTreeOpt(v, c.sockDir);
             if joined then exists sock :: t == Touch(u, id, sock) else t == u.(hooks := v.hooks - {id})
    ensures OnDisk(t, d) == OnDisk(v, d) && t.daemons.Keys == v.daemons.Keys
    ensures forall p <- v.daemons :: t.daemons[p].dir == v.daemons[p].dir && t.daemons[p].data == v.daemons[p].data
  {
    var u := RmTreeOpt(v, c.sockDir);
    assert OnDisk(u, d) == OnDisk(v, d) && u.daemons == v.daemons;
    hide RmTreeOpt;
    if joined {
      var sock :| t == Touch(u, id, sock);
      TouchKeepsData(u, id, sock);
    }
  }

  lemma TouchKeepsData(w: World, id: ClientId, sock: Dir)
    ensures var t := Touch(w, id, sock);
            && t.rdb == w.rdb && t.daemons.Keys == w.daemons.Keys
            && forall p <- w.daemons :: t.daemons[p].dir == w.daemons[p].dir && t.daemons[p].data == w.daemons[p].data
  {
  }

  lemma StartedContents(w: World, v: World, id: ClientId, c: Client, d: Dir)
    requires WorldInv(w, None) && WorldInv(Started(v, id, c), None)
    requires v == w.(dirs := v.dirs, nextTemp := v.nextTemp, hooks := v.hooks)
    requires forall p <- w.daemons :: w.daemons[p].dir != c.dbdir
    ensures Contents(Started(v, id, c), d) == Contents(w, d)
  {
    hide WorldInv, Contents;
    PidFacts(w, None);
    var t := Started(v, id, c);
    if d == c.dbdir {
      ContentsOfDaemon(t, w.nextPid);
      ContentsOfDisk(w, d);
    } else {
      SameContents(w, t, d);
    }
  }

  /** An isolated client starts with an empty store. */
  lemma IsolatedStartsEmpty(s: System, id: ClientId, target: Option<Dir>, seen: OpenSeen)
    requires Inv(s) && Enabled(s, OpenClient(id, target, seen))
    ensures var r := Open(s.world, id, target, seen);
            r.client.Some? ==>
              && r.client.value.running && (r.client.value.registry == target)
              && (target.Some? ==> r.client.value.dbdir == target.value)
              && (target.None? ==> Contents(r.world, r.client.value.dbdir) == map[])
  {
    hide WorldInv, ClientOk, MayStart, AttachOrStart, Prepare, Touch, ConnectionsOk, Started, CleanedUp,
      OwnSocket, Contents;
    var w := s.world;
    OpenInv(s, id, target, seen);
    var r := Prepare(w, target, seen.fault);
    if r.client.None? {
      return;
    }
    PreparedOk(w, id, target, seen.fault);
    var c, v := r.client.value, r.world.(hooks := r.world.hooks + {id});
    RegistryIsHome(v, c);
    AttachOrStartOutcome(v, id, c, seen);
    var o := AttachOrStart(v, id, c, seen);
    if c.registry.None? && o.client.Some? {
      ServedIffPid(w, c.dbdir, None);
      StartedContents(w, v, id, c, c.dbdir);
      NoDaemonIfFresh(w, c.dbdir, None);
      ContentsOfDisk(w, c.dbdir);
      FreshIsUnused(w, c.dbdir);
    }
  }

  lemma RegistryIsHome(w: World, c: Client)
    requires ClientOk(w, c)
    ensures c.registry.Some? ==> c.registry.value == c.dbdir
  {
  }

  // ---- Closing ----

  lemma ConnectionsHoldNoData(w: World, id: ClientId, sock: Dir, hooks: set<ClientId>, d: Dir)
    ensures Contents(Disconnect(w, id), d) == Contents(w, d)
    ensures Contents(Touch(w, id, sock), d) == Contents(w, d)
    ensures Contents(w.(hooks := hooks), d) == Contents(w, d)
    ensures Reach(Touch(w, id, sock), sock) == Reach(w, sock)
  {
    ContentsAreFiles(w, Disconnect(w, id), d);
    ContentsAreFiles(w, Touch(w, id, sock), d);
    ContentsAreFiles(w, w.(hooks := hooks), d);
    ReachAfterTouch(w, id, sock);
    DataAfterDisconnect(w, id);
    DataAfterTouch(w, id, sock);
    hide Contents, Disconnect, Touch, Reach;
  }

  lemma ContentsAreFiles(w: World, v: World, d: Dir)
    ensures v.pidfile == w.pidfile && v.live == w.live && v.rdb == w.rdb && v.daemons.Keys == w.daemons.Keys
            && (forall p <- w.daemons :: v.daemons[p].data == w.daemons[p].data) ==>
              Contents(v, d) == Contents(w, d)
  {
  }

  lemma ReachAfterTouch(w: World, id: ClientId, sock: Dir)
    ensures Reach(Touch(w, id, sock), sock) == Reach(w, sock)
  {
  }

  lemma DataAfterDisconnect(w: World, id: ClientId)
    ensures var v := Disconnect(w, id);
            && v == w.(daemons := v.daemons) && v.daemons.Keys == w.daemons.Keys
            && forall p <- w.daemons :: v.daemons[p].data == w.daemons[p].data
  {
    assert Disconnect(w, id).daemons.Keys == w.daemons.Keys;
  }

  lemma DataAfterTouch(w: World, id: ClientId, sock: Dir)
    ensures var v := Touch(w, id, sock);
            && v == w.(daemons := v.daemons) && v.daemons.Keys == w.daemons.Keys
            && forall p <- w.daemons :: v.daemons[p].data == w.daemons[p].data
  {
  }

  /** After a stop a shared database holds its daemon's memory if the stop saves, else what was on disk. */
  lemma StopContents(w: World, c: Client, seen: CloseSeen)
    requires WorldInv(w, None) && ClientOk(w, c) && c.registry.Some?
    ensures var p := PidOf(w, c.dbdir);
            Contents(StopServer(w, c, seen), c.dbdir) ==
              if p in w.daemons && StopSaves(w, c, seen) then w.daemons[p].data else OnDisk(w, c.dbdir)
  {
    StopIsDown(w, c, seen);
    RegistryIsHome(w, c);
    PidFacts(w, None);
    var u := Stopped(w, c, seen);
    HomeOfSocketDir(w, c);
    RemovedContents(u, c);
    hide WorldInv, RemoveFiles, OwnSocket;
  }

  lemma RemovedContents(u: World, c: Client)
    requires c.registry == Some(c.dbdir) && c.pidfile == c.dbdir && (c.sockDir.Some? ==> c.sockDir.value != c.dbdir)
    ensures Contents(RemoveFiles(u, c), c.dbdir) == OnDisk(u, c.dbdir)
  {
  }

  lemma HomeOfSocketDir(w: World, c: Client)
    requires ClientOk(w, c) && c.registry.Some?
    ensures c.pidfile == c.dbdir && (c.sockDir.Some? ==> c.sockDir.value != c.dbdir)
  {
  }

  /** A raising process cleanup: the daemon is as it was, or it went down and saved or did not. */
  lemma InterruptedContents(w: World, c: Client, seen: CloseSeen)
    requires WorldInv(w, None) && ClientOk(w, c) && PidOf(w, c.dbdir) != 0
    ensures var p := PidOf(w, c.dbdir);
            && p in w.daemons
            && Contents(Interrupted(w, c, seen), c.dbdir) ==
                 (if !GoesDown(w, c, seen) then Contents(w, c.dbdir)
                  else if StopSaves(w, c, seen) then w.daemons[p].data else OnDisk(w, c.dbdir))
            && (p in Interrupted(w, c, seen).daemons <==> !GoesDown(w, c, seen))
  {
    hide Interrupted, WorldInv, ClientOk, StopSaves, GoesDown, Contents, OnDisk, PidOf;
    InterruptedIs(w, c, seen);
    PidFacts(w, None);
    var p := PidOf(w, c.dbdir);
    var signals := w.signals + PartlyDelivered(seen.ending, p);
    SignalsHoldNoData(w, signals, c.dbdir);
    if GoesDown(w, c, seen) {
      DownDisk(w, p, StopSaves(w, c, seen), signals);
      Unnamed(Interrupted(w, c, seen), c.dbdir);
    }
  }

  /** What an orderly end leaves of a daemon's dataset. */
  lemma DownDisk(w: World, p: nat, saved: bool, signals: seq<Sent>)
    requires p in w.daemons
    ensures var v, d := Down(w, p, saved, true, signals), w.daemons[p].dir;
            && OnDisk(v, d) == (if saved then w.daemons[p].data else OnDisk(w, d))
            && p !in v.daemons && d !in v.pidfile
  {
  }

  lemma Unnamed(w: World, d: Dir)
    requires d !in w.pidfile && 0 !in w.daemons
    ensures Contents(w, d) == OnDisk(w, d)
  {
  }

  lemma SignalsHoldNoData(w: World, signals: seq<Sent>, d: Dir)
    ensures Contents(w.(signals := signals), d) == Contents(w, d)
  {
  }

  /** The contents of the closing client's own directory. */
  lemma OwnContents(s: System, id: ClientId, seen: CloseSeen)
    requires Inv(s) && Running(s, id) && (s.clients[id].registry.Some? || CloseRaises(s, id, seen))
    ensures var d, p := s.clients[id].dbdir, PidOf(s.world, s.clients[id].dbdir);
            var t := Step(s, CloseClient(id, seen));
            if p !in s.world.daemons || p in t.world.daemons then Contents(t.world, d) == Contents(s.world, d)
            else if StopSaves(s.world, s.clients[id], seen)
            then Contents(t.world, d) == s.world.daemons[p].data
            else Contents(t.world, d) == OnDisk(s.world, d)
  {
    hide WorldInv, ClientOk, ConnectionsOk, Distinct, Contents, StopServer, Interrupted, Touch, Disconnect;
    var w, c := s.world, s.clients[id];
    var w1 := if c.registry.Some? then Touch(w, id, c.socket) else w;
    ClientsAreOk(s, id);
    TouchShape(w, id, c.socket);
    ShapeKeeps(w, w1, None);
    TouchKeepsData(w, id, c.socket);
    ConnectionsHoldNoData(w, id, c.socket, {}, c.dbdir);
    ConnectionsHoldNoData(w1, id, c.socket, {}, c.dbdir);
    PidOfDaemonOrNone(w, c.dbdir);
    var last := c.registry.None? || ConnectionCount(w1, c.socket) <= 1;
    if c.registry.Some? && seen.countRaises {
      DisconnectKeepsDaemons(w1, id);
    } else if last && CleanupRaises(w1, c, seen) {
      HomePidfile(w1, c);
      InterruptedContents(w1, c, seen);
      var u := Interrupted(w1, c, seen);
      ConnectionsHoldNoData(u, id, c.socket, {}, c.dbdir);
      DisconnectKeepsDaemons(u, id);
    } else {
      var u := if last then StopServer(w1, c, seen) else w1;
      var hooks := u.hooks - {id};
      ConnectionsHoldNoData(u, id, c.socket, hooks, c.dbdir);
      ConnectionsHoldNoData(u.(hooks := hooks), id, c.socket, {}, c.dbdir);
      DisconnectKeepsDaemons(u.(hooks := hooks), id);
      if last {
        StopContents(w1, c, seen);
        StopServerKeeps(w1, c, seen);
      }
    }
  }

  lemma DisconnectKeepsDaemons(w: World, id: ClientId)
    ensures Disconnect(w, id).daemons.Keys == w.daemons.Keys
  {
  }

  lemma PidOfDaemonOrNone(w: World, d: Dir)
    requires WorldInv(w, None)
    ensures PidOf(w, d) in w.daemons ==> Contents(w, d) == w.daemons[PidOf(w, d)].data
    ensures PidOf(w, d) !in w.daemons ==> PidOf(w, d) == 0 && Contents(w, d) == OnDisk(w, d)
  {
  }

  /** A close changes the contents of no other directory. */
  lemma OtherContents(s: System, id: ClientId, seen: CloseSeen, d: Dir)
    requires Inv(s) && id in s.clients && d != s.clients[id].dbdir && !d.SockTemp?
    ensures Contents(Step(s, CloseClient(id, seen)).world, d) == Contents(s.world, d)
  {
    hide Contents, Step;
    CloseInv(s, id, seen);
    CloseElsewhere(s, id, seen, d);
    SameAtContents(s.world, Step(s, CloseClient(id, seen)).world, d);
  }

  lemma SameAtContents(w: World, v: World, d: Dir)
    requires WorldInv(w, None) && WorldInv(v, None) && SameAt(w, v, d)
    ensures Contents(v, d) == Contents(w, d)
  {
    hide WorldInv, Contents;
    SameContents(w, v, d);
  }

  /** A close that takes a shared database's server down reports success even when the save failed. It
      keeps the contents exactly if SHUTDOWN got through, or the daemon met SIGTERM by saving, or nothing
      was unsaved. */
  lemma LastCloseSaves(s: System, id: ClientId, seen: CloseSeen, p: nat)
    requires Inv(s) && Running(s, id) && s.clients[id].registry.Some?
    requires p in s.world.daemons && s.world.daemons[p].dir == s.clients[id].dbdir
    requires p !in Step(s, CloseClient(id, seen)).world.daemons
    ensures var t, d := Step(s, CloseClient(id, seen)), s.clients[id].dbdir;
            && (!Running(t, id) <==> !CloseRaises(s, id, seen))
            && (Contents(t.world, d) == Contents(s.world, d) <==>
                  GetsThrough(s, id, seen) || seen.ending == ByTerm(true) || OnDisk(s.world, d) ==
                      s.world.daemons[p].data)
  {
    hide WorldInv, Contents, StopServer, Interrupted, Touch, Disconnect;
    DaemonIsPid(s.world, p);
    ContentsOfDaemon(s.world, p);
    OwnContents(s, id, seen);
  }

  // ---- One step ----

  lemma OpenSimulates(s: System, m: Maps, id: ClientId, target: Option<Dir>, seen: OpenSeen)
    requires Inv(s) && Simulates(s, m)
    requires Enabled(s, OpenClient(id, target, seen))
    ensures var e := OpenClient(id, target, seen);
            Allows(m, LabelOf(s, e)) && Simulates(Step(s, e), Next(m, LabelOf(s, e)))
  {
    hide WorldInv, ConnectionsOk, Contents, Open;
    var e := OpenClient(id, target, seen);
    var t := Step(s, e);
    IsolatedStartsEmpty(s, id, target, seen);
    var r := Open(s.world, id, target, seen);
    assert SlotData(s, Own(id)) == map[];
    var m1 := if r.client.Some? then m.(clients := m.clients[id := SlotOf(id, r.client.value)]) else m;
    forall slot: Slot | slot.Shared? ==> slot.dir.User?
      ensures Lookup(m1.store, slot) == SlotData(t, slot)
    {
      OpenSlot(s, id, target, seen, slot);
    }
    assert RunningIds(t) == if r.client.Some? then RunningIds(s) + {id} else RunningIds(s);
  }

  /** Opening changes no store. */
  lemma OpenSlot(s: System, id: ClientId, target: Option<Dir>, seen: OpenSeen, slot: Slot)
    requires Inv(s) && Enabled(s, OpenClient(id, target, seen))
    requires slot.Shared? ==> slot.dir.User?
    ensures SlotData(Step(s, OpenClient(id, target, seen)), slot) == SlotData(s, slot)
  {
    hide WorldInv, ConnectionsOk, Contents, Open;
    IsolatedStartsEmpty(s, id, target, seen);
    match slot {
      case Shared(d) => OpenContents(s, id, target, seen, d);
      case Own(i) =>
        if Running(s, i) && s.clients[i].registry.None? {
          OpenContents(s, id, target, seen, s.clients[i].dbdir);
        }
    }
  }

  lemma CloseSimulates(s: System, m: Maps, id: ClientId, seen: CloseSeen)
    requires Inv(s) && Simulates(s, m) && id in s.clients && CloseKeeps(s, id, seen)
    ensures var e := CloseClient(id, seen);
            Allows(m, LabelOf(s, e)) && Simulates(Step(s, e), Next(m, LabelOf(s, e)))
  {
    hide WorldInv, ConnectionsOk, Contents, CloseKeeps, Touch, StopServer, Interrupted, Disconnect;
    var e := CloseClient(id, seen);
    var t := Step(s, e);
    var m1 := Next(m, LabelOf(s, e));
    assert RunningIds(t) == if CloseRaises(s, id, seen) then RunningIds(s) else RunningIds(s) - {id};
    forall slot: Slot | slot.Shared? ==> slot.dir.User?
      ensures Lookup(m1.store, slot) == SlotData(t, slot)
    {
      CloseSlot(s, id, seen, slot);
    }
  }

  /** A close that keeps the data changes no store but the one it gives up. */
  lemma CloseSlot(s: System, id: ClientId, seen: CloseSeen, slot: Slot)
    requires Inv(s) && id in s.clients && CloseKeeps(s, id, seen) && (slot.Shared? ==> slot.dir.User?)
    ensures SlotData(Step(s, CloseClient(id, seen)), slot)
            == if slot == Own(id) && !CloseRaises(s, id, seen) then map[] else SlotData(s, slot)
  {
    if !Running(s, id) {
      RepeatedClose(s, id, seen);
    } else {
      StaysRunning(s, id, seen);
      match slot {
        case Shared(d) => SharedSlot(s, id, seen, d);
        case Own(i) =>
          if Running(s, i) && s.clients[i].registry.None? && (i != id || CloseRaises(s, id, seen)) {
            OwnSlot(s, id, seen, i);
          }
      }
      hide Inv, Step, CloseKeeps, Contents, CloseRaises;
    }
  }

  lemma StaysRunning(s: System, id: ClientId, seen: CloseSeen)
    requires Running(s, id)
    ensures var t := Step(s, CloseClient(id, seen));
            && (forall i :: i != id ==> (Running(t, i) <==> Running(s, i)))
            && (forall i <- s.clients :: i in t.clients
                  && t.clients[i].registry == s.clients[i].registry && t.clients[i].dbdir == s.clients[i].dbdir)
            && (Running(t, id) <==> CloseRaises(s, id, seen))
  {
    hide StopServer, Interrupted, Touch, Disconnect;
  }

  lemma SharedSlot(s: System, id: ClientId, seen: CloseSeen, d: Dir)
    requires Inv(s) && Running(s, id) && CloseKeeps(s, id, seen) && d.User?
    ensures Contents(Step(s, CloseClient(id, seen)).world, d) == Contents(s.world, d)
  {
    hide WorldInv, ConnectionsOk, Contents, Step;
    ClientsAreOk(s, id);
    if d == s.clients[id].dbdir {
      OwnContents(s, id, seen);
      PidOfDaemonOrNone(s.world, d);
    } else {
      OtherHomesAreElsewhere(s, id, d);
      OtherContents(s, id, seen, d);
    }
  }

  lemma OwnSlot(s: System, id: ClientId, seen: CloseSeen, i: ClientId)
    requires Inv(s) && Running(s, id) && CloseKeeps(s, id, seen)
    requires Running(s, i) && s.clients[i].registry.None? && (i == id ==> CloseRaises(s, id, seen))
    ensures Contents(Step(s, CloseClient(id, seen)).world, s.clients[i].dbdir) == Contents(s.world, s.clients[i].dbdir)
  {
    hide WorldInv, ConnectionsOk, Contents, Touch, StopServer, Interrupted, Disconnect;
    var d := s.clients[i].dbdir;
    ClientsAreOk(s, i);
    if i == id {
      OwnContents(s, id, seen);
      PidOfDaemonOrNone(s.world, d);
    } else {
      assert Running(s, i) && Running(s, id);
      OtherHomesAreElsewhere(s, id, d);
      OtherContents(s, id, seen, d);
    }
  }

  /** A command that reaches a daemon reaches the one of the client's directory, whose memory its slot
      stands for. */
  lemma CommandReaches(s: System, id: ClientId)
    requires Inv(s) && Running(s, id) && Reach(s.world, s.clients[id].socket) != 0
    ensures var c := s.clients[id];
            var p := Reach(s.world, c.socket);
            && p in s.world.daemons && s.world.daemons[p].dir == c.dbdir
            && SlotData(s, SlotOf(id, c)) == s.world.daemons[p].data
            && (c.registry.Some? <==> c.dbdir.User?)
  {
    ReachIsHome(s, id);
    ClientsAreOk(s, id);
    hide WorldInv;
    ContentsOfDaemon(s.world, Reach(s.world, s.clients[id].socket));
  }

  lemma SetSimulates(s: System, m: Maps, id: ClientId, key: string, value: string)
    requires Inv(s) && Simulates(s, m) && Running(s, id) && Reach(s.world, s.clients[id].socket) != 0
    ensures var e := SetKey(id, key, value);
            Allows(m, LabelOf(s, e)) && Simulates(Step(s, e), Next(m, LabelOf(s, e)))
  {
    hide WorldInv, ConnectionsOk, Contents;
    var e, c := SetKey(id, key, value), s.clients[id];
    var t := Step(s, e);
    CommandReaches(s, id);
    var m1 := Next(m, LabelOf(s, e));
    assert RunningIds(t) == RunningIds(s);
    forall slot: Slot | slot.Shared? ==> slot.dir.User?
      ensures Lookup(m1.store, slot) == SlotData(t, slot)
    {
      SetSlot(s, id, key, value, slot);
    }
    hide Inv, SlotData;
  }

  lemma SetSlot(s: System, id: ClientId, key: string, value: string, slot: Slot)
    requires Inv(s) && Running(s, id) && Reach(s.world, s.clients[id].socket) != 0 && (slot.Shared? ==> slot.dir.User?)
    ensures var t := Step(s, SetKey(id, key, value));
            SlotData(t, slot) ==
              if slot == SlotOf(id, s.clients[id]) then SlotData(s, slot)[key := value] else SlotData(s, slot)
  {
    hide WorldInv, ConnectionsOk, Contents, Touch;
    var c := s.clients[id];
    var w1 := Touch(s.world, id, c.socket);
    CommandReaches(s, id);
    var d := match slot case Shared(d) => d case Own(i) => if Running(s, i) then s.clients[i].dbdir else c.dbdir;
    ConnectionsHoldNoData(s.world, id, c.socket, {}, d);
    TouchKeepsData(s.world, id, c.socket);
    TouchShape(s.world, id, c.socket);
    ShapeKeeps(s.world, w1, None);
    WriteContents(w1, c.socket, key, value, d);
    if slot != SlotOf(id, c) {
      OtherSlot(s, id, slot);
    }
  }

  /** Two different slots in use are two different directories. */
  lemma OtherSlot(s: System, id: ClientId, slot: Slot)
    requires Inv(s) && Running(s, id) && slot != SlotOf(id, s.clients[id]) && (slot.Shared? ==> slot.dir.User?)
    ensures slot.Shared? ==> slot.dir != s.clients[id].dbdir
    ensures slot.Own? && Running(s, slot.id) && s.clients[slot.id].registry.None? ==>
        s.clients[slot.id].dbdir != s.clients[id].dbdir
  {
    hide WorldInv;
    ClientsAreOk(s, id);
    if slot.Own? && Running(s, slot.id) {
      assert Running(s, id);
    }
  }

  lemma WriteContents(w: World, sock: Dir, key: string, value: string, d: Dir)
    requires WorldInv(w, None) && Reach(w, sock) != 0
    ensures var p := Reach(w, sock);
            p in w.daemons && Contents(Write(w, sock, key, value), d)
            == if d == w.daemons[p].dir then w.daemons[p].data[key := value] else Contents(w, d)
  {
    hide WorldInv, Contents;
    var p := Reach(w, sock);
    var v := Write(w, sock, key, value);
    WriteShape(w, sock, key, value);
    ShapeKeeps(w, v, None);
    if d == w.daemons[p].dir {
      ContentsOfDaemon(v, p);
    } else {
      SameContents(w, v, d);
    }
  }

  /** Steps that are nobody's command: the stores are as before. */
  predicate Quiet(e: Event) {
    e.MoreConnections? || e.DropConnections? || e.ForeignConnection? || e.BackgroundSave? || e.DaemonCrash?
  }

  lemma QuietContents(s: System, e: Event, d: Dir)
    requires Inv(s) && Enabled(s, e) && Quiet(e) && Keeps(s, e)
    ensures Contents(Step(s, e).world, d) == Contents(s.world, d)
  {
    match e {
      case MoreConnections(id) =>
        var p := Reach(s.world, s.clients[id].socket);
        if p != 0 {
          AddedContents(s.world, id, p, d);
        }
      case DropConnections(id) => ConnectionsHoldNoData(s.world, id, d, {}, d);
      case ForeignConnection(id, pid) => AddedContents(s.world, id, pid, d);
      case BackgroundSave(pid) => SnapshotContents(s.world, pid, d);
      case DaemonCrash(pid) => CrashContents(s.world, pid, d);
    }
    hide Inv, Contents, AddConnection, Exit, Disconnect;
  }

  lemma AddedContents(w: World, id: ClientId, pid: nat, d: Dir)
    requires pid in w.daemons
    ensures Contents(AddConnection(w, id, pid), d) == Contents(w, d)
  {
  }

  lemma SnapshotContents(w: World, pid: nat, d: Dir)
    requires WorldInv(w, None) && pid in w.daemons
    ensures Contents(w.(rdb := w.rdb[w.daemons[pid].dir := w.daemons[pid].data]), d) == Contents(w, d)
  {
    PidOfDaemonOrNone(w, d);
    DaemonIsPid(w, pid);
    hide WorldInv;
  }

  lemma CrashContents(w: World, pid: nat, d: Dir)
    requires WorldInv(w, None) && pid in w.daemons && OnDisk(w, w.daemons[pid].dir) == w.daemons[pid].data
    ensures Contents(Exit(w, pid), d) == Contents(w, d)
  {
    PidOfDaemonOrNone(w, d);
    if PidOf(w, d) == pid {
      PidOfDaemon(w, d);
    }
    hide WorldInv;
  }

  /** Clients and contents are as before. */
  lemma QuietSimulates(s: System, t: System, m: Maps)
    requires Simulates(s, m) && t.clients == s.clients && forall d: Dir :: Contents(t.world, d) == Contents(s.world, d)
    ensures Simulates(t, m)
  {
    hide Contents;
    assert RunningIds(t) == RunningIds(s);
  }

  lemma KilledSimulates(s: System, m: Maps, id: ClientId)
    requires Inv(s) && Simulates(s, m) && Running(s, id)
    ensures var e := ClientKilled(id);
            Allows(m, LabelOf(s, e)) && Simulates(Step(s, e), Next(m, LabelOf(s, e)))
  {
    hide WorldInv, ConnectionsOk, ClientOk, Contents, Disconnect;
    var e := ClientKilled(id);
    var t := Step(s, e);
    assert RunningIds(t) == RunningIds(s) - {id};
    var w := s.world.(hooks := s.world.hooks - {id});
    forall d: Dir ensures Contents(t.world, d) == Contents(s.world, d) {
      ConnectionsHoldNoData(s.world, id, d, w.hooks, d);
      ConnectionsHoldNoData(w, id, d, {}, d);
    }
    var m1 := Next(m, LabelOf(s, e));
    forall slot: Slot | slot.Shared? ==> slot.dir.User?
      ensures Lookup(m1.store, slot) == SlotData(t, slot)
    {
    }
    hide Step, Inv;
  }

  lemma StepSimulates(s: System, m: Maps, e: Event)
    requires Inv(s) && Simulates(s, m) && Enabled(s, e) && Keeps(s, e)
    ensures Allows(m, LabelOf(s, e)) && Simulates(Step(s, e), Next(m, LabelOf(s, e)))
  {
    hide Inv, Contents, Simulates, CloseKeeps, Touch;
    match e {
      case OpenClient(id, target, seen) => OpenSimulates(s, m, id, target, seen);
      case CloseClient(id, seen) => CloseSimulates(s, m, id, seen);
      case SetKey(id, key, value) =>
        if Reach(s.world, s.clients[id].socket) == 0 {
          Unanswered(s, m, e);
        } else {
          SetSimulates(s, m, id, key, value);
        }
      case GetKey(id, key) =>
        if Reach(s.world, s.clients[id].socket) == 0 {
          Unanswered(s, m, e);
        } else {
          GetSimulates(s, m, id, key);
        }
      case ClientKilled(id) => KilledSimulates(s, m, id);
      case _ =>
        forall d: Dir ensures Contents(Step(s, e).world, d) == Contents(s.world, d) {
          QuietContents(s, e, d);
        }
        QuietSimulates(s, Step(s, e), m);
    }
  }

  /** A command that reaches no daemon changes nothing. */
  lemma Unanswered(s: System, m: Maps, e: Event)
    requires Simulates(s, m) && Enabled(s, e)
    requires (e.SetKey? || e.GetKey?) && Reach(s.world, s.clients[e.id].socket) == 0
    ensures Step(s, e) == s
    ensures Allows(m, LabelOf(s, e)) && Simulates(Step(s, e), Next(m, LabelOf(s, e)))
    ensures !Answered(LabelOf(s, e))
  {
    hide Contents;
  }

  lemma GetSimulates(s: System, m: Maps, id: ClientId, key: string)
    requires Inv(s) && Simulates(s, m) && Running(s, id) && Reach(s.world, s.clients[id].socket) != 0
    ensures var e := GetKey(id, key);
            Allows(m, LabelOf(s, e)) && Simulates(Step(s, e), Next(m, LabelOf(s, e)))
  {
    hide WorldInv, ConnectionsOk, Contents, Touch;
    var sock := s.clients[id].socket;
    CommandReaches(s, id);
    TouchKeepsData(s.world, id, sock);
    forall d: Dir ensures Contents(Touch(s.world, id, sock), d) == Contents(s.world, d) {
      ConnectionsHoldNoData(s.world, id, sock, {}, d);
    }
    ConnectionsHoldNoData(s.world, id, sock, {}, sock);
    QuietSimulates(s, Step(s, GetKey(id, key)), m);
  }

  // ---- Whole runs ----

  /** Refinement: every run of any clients, in which no step loses data, shows only what the persistent
      maps allow: whatever opens fail, closes raise or are refused, connections come and go, however often
      servers stop, crash and start in between, and whichever commands meet no server. */
  lemma {:induction false} RunRefinesMaps(s: System, m: Maps, es: seq<Event>)
    requires Inv(s) && Simulates(s, m) && EnabledRun(s, es) && KeepsRun(s, es)
    ensures Accepts(m, Labels(s, es))
    decreases |es|
  {
    hide Inv, Simulates, Step, LabelOf, Allows, Next, Keeps;
    if es == [] {
    } else {
      var l, t := LabelOf(s, es[0]), Step(s, es[0]);
      StepSimulates(s, m, es[0]);
      StepInv(s, es[0]);
      RunRefinesMaps(t, Next(m, l), es[1..]);
      var rest := Labels(t, es[1..]);
      assert ([l] + rest)[1..] == rest;
    }
  }

  /** The maps a machine starts from: its database files. */
  lemma InitialSimulates(s: System, m: Maps)
    requires Initial(s) && m.clients == map[]
    requires forall slot: Slot :: Lookup(m.store, slot) == if slot.Shared? then OnDisk(s.world, slot.dir) else map[]
    ensures Inv(s) && Simulates(s, m)
  {
    hide WorldInv;
    forall d: Dir ensures Contents(s.world, d) == OnDisk(s.world, d) {
      ContentsOfDisk(s.world, d);
    }
  }

  // ---- Simple clients meet the conditions by themselves ----

  /** SHUTDOWN is accepted, or the daemon saves on SIGTERM. */
  predicate Saving(e: Event) {
    e.CloseClient? ==> e.closeSeen.accepted || e.closeSeen.ending == ByTerm(true)
  }

  lemma SimpleKeeps(s: System, e: Event)
    requires Inv(s) && Tight(s) && Enabled(s, e) && Simple(s, e) && Saving(e)
    ensures Keeps(s, e) && Answered(LabelOf(s, e))
  {
    hide Inv, AllServed, ExactConns, NoOrphans, Touch, Step;
    match e {
      case CloseClient(id, seen) =>
        if Running(s, id) {
          TouchIsIdle(s, id);
        }
      case SetKey(id, _, _) => TouchIsIdle(s, id);
      case GetKey(id, _) => TouchIsIdle(s, id);
      case _ =>
    }
  }

  lemma {:induction false} SimpleRunKeeps(s: System, es: seq<Event>)
    requires Inv(s) && Tight(s) && EnabledRun(s, es) && SimpleRun(s, es) && forall e <- es :: Saving(e)
    ensures KeepsRun(s, es) && forall l <- Labels(s, es) :: Answered(l)
    decreases |es|
  {
    hide Inv, Tight, Step, Simple, Keeps, Saving, Answered, LabelOf;
    if es == [] {
    } else {
      SimpleKeeps(s, es[0]);
      StepInv(s, es[0]);
      SimpleStepTight(s, es[0]);
      SimpleRunKeeps(Step(s, es[0]), es[1..]);
    }
  }

  /** From a fresh machine, runs of clients with one connection each, none of whose closes raises or fails
      to save, are runs of the persistent maps that start as the database files, and every command is
      answered. */
  lemma SimpleRunsRefineMaps(s: System, m: Maps, es: seq<Event>)
    requires Initial(s) && (forall x <- s.world.dirs :: !x.Private?) && m.clients == map[]
    requires forall slot: Slot :: Lookup(m.store, slot) == if slot.Shared? then OnDisk(s.world, slot.dir) else map[]
    requires EnabledRun(s, es) && SimpleRun(s, es) && forall e <- es :: Saving(e)
    ensures Accepts(m, Labels(s, es)) && forall l <- Labels(s, es) :: Answered(l)
  {
    InitialTight(s);
    InitialSimulates(s, m);
    hide Inv, Tight, Simulates, Initial, SimpleRun, KeepsRun, Accepts, Answered;
    SimpleRunKeeps(s, es);
    RunRefinesMaps(s, m, es);
  }
}
