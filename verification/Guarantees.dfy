/** What the invariant means for a user of the package, step by step: safety of every run, isolation
    of directories, transactional startup, recovery from stale registries, retryable closes. */
module Guarantees {
  import opened Wrappers
  import opened Processes
  import opened HostWorld
  import opened Lifecycle
  import opened Discipline

  // ---- Safety of every run ----

  /** After any run from any initial machine: one live daemon per directory at most; a shared daemon is
      found through its registry and no registry leads anywhere else; no process is left that serves
      nothing; hooks are exactly those of the running clients and of the attempts whose rollback raised;
      isolated clients share no directory. */
  lemma EveryRunIsSafe(s: System, es: seq<Event>, p: nat, q: nat, d: Dir, i: ClientId, j: ClientId)
    requires Initial(s) && EnabledRun(s, es)
    ensures var t := Run(s, es);
            var w := t.world;
            && w.live == w.daemons.Keys && 0 !in w.live
            && w.hooks == RunningIds(t) + RunAbandons(s, es)
            && (p in w.daemons && q in w.daemons && w.daemons[p].dir == w.daemons[q].dir ==> p == q)
            && (p in w.daemons && w.daemons[p].dir.User? ==>
                  Load(w, w.daemons[p].dir) == Attached(w.daemons[p].dir, w.daemons[p].sock, w.daemons[p].dir)
                  && Reach(w, w.daemons[p].sock) == p)
            && (d.User? && Load(w, d) != Absent ==>
                  var pid := PidOf(w, d); pid in w.daemons && w.daemons[pid].dir == d)
            && (Running(t, i) && Running(t, j) && i != j && t.clients[i].registry.None? ==>
                  t.clients[i].dbdir != t.clients[j].dbdir)
  {
    hide WorldInv, ClientOk, ConnectionsOk;
    InitialInv(s);
    RunInv(s, es);
    RunStrays(s, es);
    var t := Run(s, es);
    PidFacts(t.world, None);
    if p in t.world.daemons {
      OneDaemonPerDir(t.world, p);
      DaemonIsPid(t.world, p);
      if t.world.daemons[p].dir.User? {
        LoadOutcome(t.world, t.world.daemons[p].dir);
      }
    }
    if d.User? {
      LoadOutcome(t.world, d);
    }
  }

  // ---- Which database is opened ----

  /** In every reachable state, an open that succeeds is served by the one daemon of the directory it was
      asked for, under the pid that the pidfile there names: an explicit, non-empty path always wins,
      otherwise the class-level location, and without either it is a directory of its own. */
  lemma OpensTheDatabaseAskedFor(s: System, id: ClientId, arg: Option<string>, attr: Option<string>, seen: OpenSeen)
    requires Inv(s) && Openable(s, id, Resolve(arg, attr))
    ensures var r := Open(s.world, id, Resolve(arg, attr), seen);
            r.client.Some? ==>
              var c, p := r.client.value, PidOf(r.world, r.client.value.pidfile);
              && (arg.Some? && arg.value != "" ==> c.registry == Some(User(arg.value)))
              && (!(arg.Some? && arg.value != "") && attr.Some? ==> c.registry == Some(User(attr.value)))
              && (!(arg.Some? && arg.value != "") && attr.None? ==>
                    c.registry.None? && c.dbdir == Private(s.world.nextTemp))
              && (c.registry.Some? ==> c.registry == Some(c.dbdir))
              && p in r.world.daemons && r.world.daemons[p].dir == c.dbdir && id in r.world.daemons[p].conns
  {
    var target := Resolve(arg, attr);
    var r := Open(s.world, id, target, seen);
    if r.client.Some? {
      hide Open, Inv;
      OpenedIsServed(s.world, id, target, seen);
      OpenedIsNotLost(s.world, id, target, seen);
      assert Enabled(s, OpenClient(id, target, seen));
      OpenInv(s, id, target, seen);
      ServedAtHome(Step(s, OpenClient(id, target, seen)), id);
    }
  }

  lemma OpenedIsServed(w: World, id: ClientId, target: Option<Dir>, seen: OpenSeen)
    requires Open(w, id, target, seen).client.Some?
    ensures var r := Open(w, id, target, seen);
            var c := r.client.value;
            && c.running && c.registry == target && (target.None? ==> c.dbdir == Private(w.nextTemp))
            && Reach(r.world, c.socket) != 0 && id in r.world.daemons[Reach(r.world, c.socket)].conns
  {
    hide Undo, Rollback, Overflows, Launch, Touch, Connect, Load, RmTree;
    forall v: World, c: Client, started: bool {
      ConnectedIsServed(v, id, c, started, seen);
    }
  }


  lemma OpenedIsNotLost(w: World, id: ClientId, target: Option<Dir>, seen: OpenSeen)
    requires Open(w, id, target, seen).client.Some?
    ensures !LosesServer(w, target, seen)
  {
    hide Undo, Rollback, Overflows, Launch, Touch, Connect;
  }

  lemma ConnectedIsServed(w: World, id: ClientId, c: Client, started: bool, seen: OpenSeen)
    ensures var r := Connect(w, id, c, started, seen);
            r.client.Some? ==>
              && r.client == Some(c.(running := true)) && Reach(r.world, c.socket) != 0
              && id in r.world.daemons[Reach(r.world, c.socket)].conns
  {
    hide Undo;
  }

  lemma ServedAtHome(s: System, id: ClientId)
    requires Inv(s) && Running(s, id) && Reach(s.world, s.clients[id].socket) != 0
    ensures var c := s.clients[id];
            var p := Reach(s.world, c.socket);
            && s.world.daemons[p].dir == c.dbdir && PidOf(s.world, c.pidfile) == p
            && (c.registry.Some? ==> c.registry == Some(c.dbdir))
  {
    var c := s.clients[id];
    assert ClientOk(s.world, c);
    assert DaemonOk(s.world, Reach(s.world, c.socket), None);
  }

  // ---- Isolation of directories ----

  /** Nothing about a directory changed: its files and its daemon with data and connections. */
  ghost predicate SameAt(w: World, v: World, d: Dir) {
    && (d in w.dirs ==> d in v.dirs)
    && (d in w.registry <==> d in v.registry) && (d in w.registry ==> v.registry[d] == w.registry[d])
    && (d in w.pidfile <==> d in v.pidfile) && (d in w.pidfile ==> v.pidfile[d] == w.pidfile[d])
    && (d in w.sockets <==> d in v.sockets) && (d in w.sockets ==> v.sockets[d] == w.sockets[d])
    && (d in w.conf <==> d in v.conf)
    && (d in w.rdb <==> d in v.rdb) && (d in w.rdb ==> v.rdb[d] == w.rdb[d])
    && (forall p <- w.daemons :: w.daemons[p].dir == d ==> p in v.daemons && v.daemons[p] == w.daemons[p])
    && (forall p <- v.daemons :: v.daemons[p].dir == d ==> p in w.daemons && w.daemons[p].dir == d)
  }

  /** A directory that is neither the client's own, nor where its socket or that of its server lies. */
  ghost predicate Elsewhere(w: World, c: Client, d: Dir) {
    && d != c.dbdir && d != c.socket
    && forall p <- w.daemons :: w.daemons[p].dir == c.dbdir ==> w.daemons[p].sock != d
  }

  /** Every other database and private directory is elsewhere. */
  lemma OtherHomesAreElsewhere(s: System, id: ClientId, d: Dir)
    requires Inv(s) && Running(s, id) && d != s.clients[id].dbdir && !d.SockTemp?
    ensures Elsewhere(s.world, s.clients[id], d)
  {
    ClientsAreOk(s, id);
    forall p <- s.world.daemons | s.world.daemons[p].dir == s.clients[id].dbdir ensures s.world.daemons[p].sock != d {
      assert DaemonOk(s.world, p, None);
    }
  }

  /** A client's connections lead to its own directory. */
  lemma OwnConnections(s: System, id: ClientId, p: nat)
    requires Inv(s) && id in s.clients && p in s.world.daemons && id in s.world.daemons[p].conns
    ensures s.world.daemons[p].dir == s.clients[id].dbdir
  {
  }

  lemma DisconnectElsewhere(s: System, id: ClientId, d: Dir)
    requires Inv(s) && id in s.clients && d != s.clients[id].dbdir
    ensures SameAt(s.world, Disconnect(s.world, id), d)
  {
    hide WorldInv;
    forall p <- s.world.daemons | s.world.daemons[p].dir == d
      ensures s.world.daemons[p].conns[id := 0] == s.world.daemons[p].conns
    {
      if id in s.world.daemons[p].conns {
        OwnConnections(s, id, p);
      }
    }
  }

  lemma TouchElsewhere(s: System, id: ClientId, d: Dir)
    requires Inv(s) && Running(s, id) && d != s.clients[id].dbdir
    ensures SameAt(s.world, Touch(s.world, id, s.clients[id].socket), d)
  {
  }

  lemma SameAtTransitive(u: World, v: World, w: World, d: Dir)
    requires SameAt(u, v, d) && SameAt(v, w, d)
    ensures SameAt(u, w, d)
  {
  }

  lemma StopElsewhere(w: World, c: Client, seen: CloseSeen, d: Dir)
    requires WorldInv(w, None) && ClientOk(w, c) && Elsewhere(w, c, d)
    ensures SameAt(w, StopServer(w, c, seen), d)
  {
    hide WorldInv, SameAt, OwnSocket;
    StopIsDown(w, c, seen);
    var u := Stopped(w, c, seen);
    SameAtItself(w, d);
    if PidOf(w, c.dbdir) != 0 {
      var p := PidOf(w, c.dbdir);
      var orderly := seen.accepted && Reach(w, c.socket) != 0;
      DownElsewhere(w, p, if orderly then c.registry.Some? else seen.ending.ByTerm? && seen.ending.saves,
                    orderly || seen.ending.ByTerm?, w.signals + Delivered(seen.ending, p), d);
    }
    RemoveElsewhere(u, c, d);
    SameAtTransitive(w, u, StopServer(w, c, seen), d);
  }

  lemma InterruptedElsewhere(w: World, c: Client, seen: CloseSeen, d: Dir)
    requires WorldInv(w, None) && ClientOk(w, c) && Elsewhere(w, c, d)
    ensures SameAt(w, Interrupted(w, c, seen), d)
  {
    hide WorldInv, SameAt, OwnSocket, Interrupted, Down;
    InterruptedIs(w, c, seen);
    SameAtItself(w, d);
    var p := PidOf(w, c.dbdir);
    var signals := w.signals + PartlyDelivered(seen.ending, p);
    if GoesDown(w, c, seen) {
      DownElsewhere(w, p, StopSaves(w, c, seen), true, signals, d);
    } else {
      SignalsElsewhere(w, signals, d);
    }
  }

  lemma SignalsElsewhere(w: World, signals: seq<Sent>, d: Dir)
    ensures SameAt(w, w.(signals := signals), d)
  {
  }

  lemma DownElsewhere(w: World, p: nat, saved: bool, tidy: bool, signals: seq<Sent>, d: Dir)
    requires p in w.daemons && w.daemons[p].dir != d && w.daemons[p].sock != d
    ensures SameAt(w, Down(w, p, saved, tidy, signals), d)
  {
  }

  lemma RemoveElsewhere(u: World, c: Client, d: Dir)
    requires c.pidfile == c.dbdir && (c.registry.Some? ==> c.registry.value == c.dbdir) && d != c.dbdir && d != c.socket
    requires c.sockDir.Some? ==> c.sockDir.value != d
    requires c.conf.Some? ==> c.conf.value != d
    ensures SameAt(u, RemoveFiles(u, c), d)
  {
  }

  /** Closing a client, raising or not, leaves every other directory alone. */
  lemma CloseElsewhere(s: System, id: ClientId, seen: CloseSeen, d: Dir)
    requires Inv(s) && id in s.clients && (Running(s, id) ==> Elsewhere(s.world, s.clients[id], d))
    ensures SameAt(s.world, Step(s, CloseClient(id, seen)).world, d)
  {
    hide WorldInv, ClientOk, ConnectionsOk, Distinct, StopServer, SameAt, Interrupted;
    var w, c := s.world, s.clients[id];
    if !c.running {
      RepeatedClose(s, id, seen);
      SameAtItself(w, d);
    } else {
      var w1 := if c.registry.Some? then Touch(w, id, c.socket) else w;
      var s1 := s.(world := w1);
      TouchShape(w, id, c.socket);
      TouchConnections(s, id);
      SameClientsInv(s, s1);
      if c.registry.Some? {
        TouchElsewhere(s, id, d);
      } else {
        SameAtItself(w, d);
      }
      var last := c.registry.None? || ConnectionCount(w1, c.socket) <= 1;
      if c.registry.Some? && seen.countRaises {
        DisconnectElsewhere(s1, id, d);
        SameAtTransitive(w, w1, Disconnect(w1, id), d);
      } else if last && CleanupRaises(w1, c, seen) {
        RaisingElsewhere(s1, id, seen, d);
        SameAtTransitive(w, w1, Step(s, CloseClient(id, seen)).world, d);
      } else {
        LeaveElsewhere(s1, id, seen, last, d);
        SameAtTransitive(w, w1, Step(s, CloseClient(id, seen)).world, d);
      }
    }
  }

  lemma SameAtItself(w: World, d: Dir)
    ensures SameAt(w, w, d)
  {
  }

  lemma RaisingElsewhere(s: System, id: ClientId, seen: CloseSeen, d: Dir)
    requires Inv(s) && Running(s, id) && Elsewhere(s.world, s.clients[id], d)
    ensures SameAt(s.world, Disconnect(Interrupted(s.world, s.clients[id], seen), id), d)
  {
    hide WorldInv, ClientOk, ConnectionsOk, Distinct, SameAt, Interrupted;
    var u := Interrupted(s.world, s.clients[id], seen);
    ClientsAreOk(s, id);
    InterruptedElsewhere(s.world, s.clients[id], seen, d);
    InterruptedInv(s, id, seen);
    DisconnectElsewhere(s.(world := u), id, d);
    SameAtTransitive(s.world, u, Disconnect(u, id), d);
  }

  lemma LeaveElsewhere(s: System, id: ClientId, seen: CloseSeen, last: bool, d: Dir)
    requires Inv(s) && Running(s, id) && Elsewhere(s.world, s.clients[id], d)
    ensures var w2 := if last then StopServer(s.world, s.clients[id], seen) else s.world;
            SameAt(s.world, Disconnect(w2.(hooks := w2.hooks - {id}), id), d)
  {
    hide WorldInv, ClientOk, ConnectionsOk, Distinct, StopServer, SameAt, Disconnect;
    var w2 := if last then StopServer(s.world, s.clients[id], seen) else s.world;
    ClientsAreOk(s, id);
    SameAtItself(s.world, d);
    if last {
      ClientsAreOkStop(s, id, seen);
      StopElsewhere(s.world, s.clients[id], seen, d);
    }
    var w3 := w2.(hooks := w2.hooks - {id});
    MoreDirsElsewhere(w2, w3, d);
    forall p <- w3.daemons | w3.daemons[p].dir == d ensures id !in w3.daemons[p].conns {
      if id in s.world.daemons[p].conns {
        OwnConnections(s, id, p);
      }
    }
    QuietDisconnect(w3, id, d);
    SameAtTransitive(s.world, w2, w3, d);
    SameAtTransitive(s.world, w3, Disconnect(w3, id), d);
  }

  lemma MoreDirsElsewhere(w: World, v: World, d: Dir)
    requires v == w.(dirs := v.dirs, nextTemp := v.nextTemp, hooks := v.hooks) && w.dirs <= v.dirs
    ensures SameAt(w, v, d)
  {
  }

  lemma StartedElsewhere(w: World, id: ClientId, c: Client, d: Dir)
    requires d != c.dbdir && d != c.socket && w.nextPid !in w.daemons
    ensures SameAt(w, Started(w, id, c), d)
  {
  }

  /** So does opening one, whatever fails. */
  lemma OpenElsewhere(s: System, id: ClientId, target: Option<Dir>, seen: OpenSeen, d: Dir)
    requires Inv(s) && Enabled(s, OpenClient(id, target, seen)) && !Fresh(s.world, d) && target != Some(d)
    ensures SameAt(s.world, Step(s, OpenClient(id, target, seen)).world, d)
  {
    hide WorldInv, ClientOk, MayStart, AttachOrStart, Prepare, ConnectionsOk, CleanedUp, OwnSocket, Touch,
      SameAt, Started;
    var w := s.world;
    var r := Prepare(w, target, seen.fault);
    PrepareKeeps(w, target, seen.fault);
    if r.client.None? {
      MoreDirsElsewhere(w, r.world, d);
    } else {
      PreparedOk(w, id, target, seen.fault);
      var c, v := r.client.value, r.world.(hooks := r.world.hooks + {id});
      MoreDirsElsewhere(w, v, d);
      HomeOfRegistry(v, c);
      TryElsewhere(v, id, c, seen, d);
      SameAtTransitive(w, v, AttachOrStart(v, id, c, seen).world, d);
    }
  }

  lemma TryElsewhere(v: World, id: ClientId, c: Client, seen: OpenSeen, d: Dir)
    requires WorldInv(v, None) && ClientOk(v, c) && c.socket in v.dirs && d != c.dbdir && d != c.socket
    requires PidOf(v, c.dbdir) == 0 ==> MayStart(v, c)
    requires PidOf(v, c.dbdir) != 0 ==> c.registry.Some?
    requires c.sockDir.Some? ==> c.sockDir == Some(c.socket) && c.socket != d
    ensures SameAt(v, AttachOrStart(v, id, c, seen).world, d)
  {
    hide WorldInv, ClientOk, MayStart, AttachOrStart, OwnSocket, Touch, SameAt, Started, CleanedUp, Undone, Stuck;
    AttachOrStartOutcome(v, id, c, seen);
    var o := AttachOrStart(v, id, c, seen);
    if PidOf(v, c.dbdir) != 0 {
      PidOfDaemon(v, c.dbdir);
      DaemonIsPid(v, PidOf(v, c.dbdir));
      AttachElsewhere(v, o.world, id, c, d, PidOf(v, c.dbdir), o.client.Some?);
    } else {
      PidFacts(v, None);
      if o.client.Some? {
        StartedElsewhere(v, id, c, d);
      } else if StopsAfterStart(c.registry, seen) {
        StuckElsewhere(v, c, seen, d);
      } else {
        UndoneElsewhere(v, o.world, id, c, d);
      }
    }
  }

  lemma StuckElsewhere(w: World, c: Client, seen: OpenSeen, d: Dir)
    requires d != c.dbdir && d != c.socket && w.nextPid !in w.daemons
    ensures SameAt(w, Stuck(w, c, seen), d)
  {
    hide SameAt, AfterStart, Halted, RegistryLeft, Down;
    var registry := RegistryLeft(w, c, seen.fault);
    var u := AfterStart(w, c, true, registry);
    RegistryLeftIsOwn(w, c, seen.fault);
    AfterStartElsewhere(w, c, registry, d);
    AfterStartFields(w, c, registry);
    HaltedIs(u, w.nextPid, seen.ending);
    if seen.ending.ByTerm? {
      DownElsewhere(u, w.nextPid, seen.ending.saves, true, u.signals + [Sent(TERM, w.nextPid)], d);
    } else {
      SignalsElsewhere(u, u.signals + PartlyDelivered(seen.ending, w.nextPid), d);
    }
    SameAtTransitive(w, u, Stuck(w, c, seen), d);
  }

  lemma AfterStartElsewhere(w: World, c: Client, registry: map<Dir, Json>, d: Dir)
    requires d != c.dbdir && d != c.socket && w.nextPid !in w.daemons && registry - {c.dbdir} == w.registry - {c.dbdir}
    ensures SameAt(w, AfterStart(w, c, true, registry), d)
  {
    assert d in registry <==> d in registry - {c.dbdir};
    assert d in w.registry <==> d in w.registry - {c.dbdir};
    assert d in registry ==> registry[d] == (registry - {c.dbdir})[d];
    assert d in w.registry ==> w.registry[d] == (w.registry - {c.dbdir})[d];
  }

  lemma HomeOfRegistry(w: World, c: Client)
    requires ClientOk(w, c)
    ensures if c.registry.Some? then c.registry.value == c.dbdir && c.dbdir.User? else c.dbdir.Private?
    ensures c.sockDir.Some? ==> c.socket.SockTemp?
  {
  }

  lemma UndoneElsewhere(w: World, v: World, id: ClientId, c: Client, d: Dir)
    requires Undone(w, v, id, c) && d != c.dbdir && d != c.socket
    ensures SameAt(w, v, d)
  {
    var u :| Nearly(w, u, c) && v == CleanedUp(u, id, c);
    assert d in u.rdb <==> d in u.rdb - {c.dbdir};
    assert d in w.rdb <==> d in w.rdb - {c.dbdir};
    assert d in u.pidfile <==> d in u.pidfile - {c.dbdir};
    assert d in w.pidfile <==> d in w.pidfile - {c.dbdir};
    assert d in u.sockets <==> d in u.sockets - {c.dbdir, c.socket};
    assert d in w.sockets <==> d in w.sockets - {c.dbdir, c.socket};
    assert d in u.conf <==> d in u.conf - {c.dbdir};
    assert d in w.conf <==> d in w.conf - {c.dbdir};
  }

  lemma AttachElsewhere(v: World, t: World, id: ClientId, c: Client, d: Dir, p: nat, joined: bool)
    requires c.sockDir.Some? ==> c.sockDir == Some(c.socket) && c.socket != d
    requires p in v.daemons && v.daemons[p].dir != d && Reach(v, v.daemons[p].sock) == p
    requires var u := RmTreeOpt(v, c.sockDir);
             if joined then t == Touch(u, id, v.daemons[p].sock) else t == u.(hooks := v.hooks - {id})
    ensures SameAt(v, t, d)
  {
    var u := RmTreeOpt(v, c.sockDir);
    RmTreeElsewhere(v, c.sockDir, d);
    SocketAfter(v, c.sockDir, v.daemons[p].sock);
    hide RmTreeOpt, SameAt, Touch;
    if joined {
      JoinElsewhere(u, id, v.daemons[p].sock, d);
    } else {
      MoreDirsElsewhere(u, t, d);
    }
    SameAtTransitive(v, u, t, d);
  }

  lemma RmTreeElsewhere(w: World, x: Option<Dir>, d: Dir)
    requires x != Some(d)
    ensures var u := RmTreeOpt(w, x); SameAt(w, u, d) && u.daemons == w.daemons
  {
  }

  lemma SocketAfter(w: World, x: Option<Dir>, sock: Dir)
    ensures Reach(RmTreeOpt(w, x), sock) == Reach(w, sock) || Reach(RmTreeOpt(w, x), sock) == 0
  {
  }

  lemma JoinElsewhere(w: World, id: ClientId, sock: Dir, d: Dir)
    requires var p := Reach(w, sock); p != 0 ==> p in w.daemons && w.daemons[p].dir != d
    ensures SameAt(w, Touch(w, id, sock), d)
  {
  }

  // ---- Every step ----

  /** The directories that a step may touch. */
  ghost predicate Concerns(s: System, e: Event, d: Dir)
    requires Enabled(s, e)
  {
    match e
    case OpenClient(_, target, _) => target == Some(d) || Fresh(s.world, d)
    case CloseClient(id, _) => Running(s, id) && !Elsewhere(s.world, s.clients[id], d)
    case SetKey(id, _, _) => d == s.clients[id].dbdir
    case GetKey(id, _) => d == s.clients[id].dbdir
    case MoreConnections(id) => d == s.clients[id].dbdir
    case DropConnections(id) => ConnectedAt(s, id, d)
    case ForeignConnection(_, pid) => s.world.daemons[pid].dir == d
    case BackgroundSave(pid) => s.world.daemons[pid].dir == d
    case DaemonCrash(pid) => s.world.daemons[pid].dir == d
    case ClientKilled(id) => d == s.clients[id].dbdir
  }

  predicate ConnectedAt(s: System, id: ClientId, d: Dir) {
    exists p :: p in s.world.daemons && s.world.daemons[p].dir == d && id in s.world.daemons[p].conns
  }

  /** Dropping the connections of a client concerns its own directory at most. */
  lemma ConnectedAtHome(s: System, id: ClientId, d: Dir)
    requires Inv(s) && id in s.clients && ConnectedAt(s, id, d)
    ensures Running(s, id) && d == s.clients[id].dbdir
  {
    var p :| p in s.world.daemons && s.world.daemons[p].dir == d && id in s.world.daemons[p].conns;
    OwnConnections(s, id, p);
  }

  /** Whatever happens, a step leaves every directory alone that it does not concern. */
  lemma EveryStepElsewhere(s: System, e: Event, d: Dir)
    requires Inv(s) && Enabled(s, e) && !Concerns(s, e, d)
    ensures SameAt(s.world, Step(s, e).world, d)
  {
    match e {
      case OpenClient(id, target, seen) =>
        hide Inv, SameAt, Step;
        OpenElsewhere(s, id, target, seen, d);
      case CloseClient(id, seen) =>
        hide Inv, SameAt, Step, Elsewhere;
        CloseElsewhere(s, id, seen, d);
      case _ =>
        hide Inv, SameAt;
        OutsideElsewhere(s, e, d);
    }
  }

  lemma OutsideElsewhere(s: System, e: Event, d: Dir)
    requires Inv(s) && Enabled(s, e) && !Concerns(s, e, d) && !e.OpenClient? && !e.CloseClient?
    ensures SameAt(s.world, Step(s, e).world, d)
  {
    hide Inv, SameAt, Elsewhere, Touch, Write, Disconnect;
    match e {
      case SetKey(id, key, value) => SetElsewhere(s, id, key, value, d);
      case GetKey(id, _) => TouchElsewhere(s, id, d);
      case MoreConnections(id) =>
        ReachIsHome(s, id);
        if Reach(s.world, s.clients[id].socket) == 0 {
          SameAtItself(s.world, d);
        } else {
          ConnectionElsewhere(s.world, Reach(s.world, s.clients[id].socket), id, d);
        }
      case DropConnections(id) => QuietDisconnect(s.world, id, d);
      case ForeignConnection(id, pid) => ConnectionElsewhere(s.world, pid, id, d);
      case BackgroundSave(pid) => SnapshotElsewhere(s.world, pid, d);
      case DaemonCrash(pid) => ExitElsewhere(s.world, pid, d);
      case ClientKilled(id) =>
        var w := s.world.(hooks := s.world.hooks - {id});
        MoreDirsElsewhere(s.world, w, d);
        KilledElsewhere(s, id, d);
        SameAtTransitive(s.world, w, Disconnect(w, id), d);
    }
  }

  lemma KilledElsewhere(s: System, id: ClientId, d: Dir)
    requires Inv(s) && Running(s, id) && d != s.clients[id].dbdir
    ensures var w := s.world.(hooks := s.world.hooks - {id}); SameAt(w, Disconnect(w, id), d)
  {
    hide WorldInv;
    DisconnectElsewhere(s, id, d);
  }

  /** One daemon's connections, snapshots and end are its own directory's affair. */
  lemma ConnectionElsewhere(w: World, pid: nat, id: ClientId, d: Dir)
    requires pid in w.daemons && w.daemons[pid].dir != d
    ensures SameAt(w, AddConnection(w, id, pid), d)
  {
  }

  lemma SnapshotElsewhere(w: World, pid: nat, d: Dir)
    requires pid in w.daemons && w.daemons[pid].dir != d
    ensures SameAt(w, w.(rdb := w.rdb[w.daemons[pid].dir := w.daemons[pid].data]), d)
  {
  }

  lemma ExitElsewhere(w: World, pid: nat, d: Dir)
    requires pid in w.daemons && w.daemons[pid].dir != d
    ensures SameAt(w, Exit(w, pid), d)
  {
  }

  lemma ReachIsHome(s: System, id: ClientId)
    requires Inv(s) && Running(s, id)
    ensures var p := Reach(s.world, s.clients[id].socket);
            p != 0 ==> p in s.world.daemons && s.world.daemons[p].dir == s.clients[id].dbdir
  {
  }

  lemma SetElsewhere(s: System, id: ClientId, key: string, value: string, d: Dir)
    requires Inv(s) && Running(s, id) && d != s.clients[id].dbdir
    ensures var sock := s.clients[id].socket; SameAt(s.world, Write(Touch(s.world, id, sock), sock, key, value), d)
  {
    hide WorldInv, ClientOk, ConnectionsOk, Distinct, SameAt, Touch, Write;
    ReachIsHome(s, id);
    var sock := s.clients[id].socket;
    TouchElsewhere(s, id, d);
    TouchReaches(s.world, id, sock);
    TouchShape(s.world, id, sock);
    WriteElsewhere(Touch(s.world, id, sock), sock, key, value, d);
    SameAtTransitive(s.world, Touch(s.world, id, sock), Write(Touch(s.world, id, sock), sock, key, value), d);
  }

  lemma WriteElsewhere(w: World, sock: Dir, key: string, value: string, d: Dir)
    requires Reach(w, sock) != 0 ==> w.daemons[Reach(w, sock)].dir != d
    ensures SameAt(w, Write(w, sock, key, value), d)
  {
  }

  lemma QuietDisconnect(w: World, id: ClientId, d: Dir)
    requires forall p <- w.daemons :: w.daemons[p].dir == d ==> id !in w.daemons[p].conns
    ensures SameAt(w, Disconnect(w, id), d)
  {
    forall p <- w.daemons | w.daemons[p].dir == d ensures w.daemons[p].conns[id := 0] == w.daemons[p].conns {
    }
  }

  // ---- What the last close takes away ----

  /** The last user of a shared database takes away its registry, its pidfile, its socket and a relocated
      socket directory of his own, and leaves the database; the conf file goes exactly if he is the one
      who started the server. The owner of an isolated server takes everything. */
  lemma WhatTheLastCloseRemoves(s: System, id: ClientId, seen: CloseSeen)
    requires Inv(s) && Running(s, id) && !CloseRaises(s, id, seen)
    requires var c := s.clients[id];
             c.registry.None? || ConnectionCount(Touch(s.world, id, c.socket), c.socket) <= 1
    ensures var w, v, c := s.world, Close(s.world, id, s.clients[id], seen).world, s.clients[id];
            var d := c.dbdir;
            && (c.sockDir.Some? ==> Unused(v, c.sockDir.value))
            && if c.registry.None? then Unused(v, d)
               else && d !in v.registry && d !in v.pidfile && c.socket !in v.sockets
                    && d in v.dirs && w.rdb.Keys <= v.rdb.Keys
                    && (d in v.conf <==> d in w.conf && c.conf.None?)
  {
    var w, c := s.world, s.clients[id];
    var w1 := if c.registry.Some? then Touch(w, id, c.socket) else w;
    assert ClientOk(w, c);
    hide WorldInv, Touch, Shutdown, Terminated, PidOf, Interrupted;
    TouchShape(w, id, c.socket);
    StoppingShape(w1, PidOf(w1, c.pidfile), c.socket, c.registry.Some?, seen.accepted, seen.ending);
  }

  lemma StoppingShape(w: World, pid: nat, sock: Dir, save: bool, accepted: bool, ending: Ending)
    ensures var v := Terminated(Shutdown(w, sock, save, accepted), pid, ending);
            v.dirs == w.dirs && v.conf == w.conf && w.rdb.Keys <= v.rdb.Keys
  {
  }

  /** Wherever the start of a shared server fails, rolled back or not, the conf file stays, unless creating it
      was what failed. */
  lemma FailedStartLeavesItsConf(s: System, id: ClientId, d: Dir, seen: OpenSeen)
    requires Inv(s) && Unknown(s, id) && d.User? && PidOf(s.world, d) == 0
    requires Prepare(s.world, Some(d), seen.fault).client.Some?
    ensures var r := Open(s.world, id, Some(d), seen);
            r.client.None? ==> (d in r.world.conf <==> d in s.world.conf || seen.fault != ConfFault(false))
  {
    hide Inv, Load, StartAndConnect, WorldInv, Overflows;
    var p := Prepare(s.world, Some(d), seen.fault);
    var v, c := p.world.(hooks := p.world.hooks + {id}), p.client.value;
    WorldOfInv(s);
    LoadOutcome(s.world, d);
    LoadOfPrepared(s.world, v, d);
    if Open(s.world, id, Some(d), seen).client.None? {
      StartConf(v, id, c, seen);
    }
  }

  lemma LoadOfPrepared(w: World, v: World, d: Dir)
    requires v.registry == w.registry && v.pidfile == w.pidfile && v.live == w.live
    ensures Load(v, d) == Load(w, d)
  {
  }

  lemma StartConf(w: World, id: ClientId, c: Client, seen: OpenSeen)
    requires c.registry.Some? && c.sockDir != Some(c.dbdir) && StartAndConnect(w, id, c, seen).client.None?
    ensures c.dbdir in StartAndConnect(w, id, c, seen).world.conf <==>
              c.dbdir in w.conf || seen.fault != ConfFault(false)
  {
    hide Undo, Rollback, Launch, Touch;
    forall v: World, c1: Client, started: bool | c1.registry.Some? && c1.sockDir != Some(c1.dbdir) {
      UndoConf(v, id, c1, started, seen);
    }
    var v := w.(conf := w.conf + {c.dbdir});
    assert Launch(v, c.dbdir, c.socket).conf == v.conf by { LaunchConf(v, c.dbdir, c.socket); }
  }

  lemma LaunchConf(w: World, dir: Dir, sock: Dir)
    ensures Launch(w, dir, sock).conf == w.conf
  {
  }

  lemma UndoConf(w: World, id: ClientId, c: Client, started: bool, seen: OpenSeen)
    requires c.registry.Some? && c.sockDir != Some(c.dbdir)
    ensures c.dbdir in Undo(w, id, c, started, seen).conf <==> c.dbdir in w.conf
    ensures c.dbdir in Rollback(w, id, c, started, seen.ending).conf <==> c.dbdir in w.conf
  {
    hide Terminated, Halted;
    TerminatedConf(w, PidOf(w, c.pidfile), seen.ending);
  }

  lemma TerminatedConf(w: World, pid: nat, ending: Ending)
    ensures Terminated(w, pid, ending).conf == w.conf && Halted(w, pid, ending).conf == w.conf
  {
  }

  // ---- Whatever a live registry says ----

  /** Some other world, and a registry that names an existing process: what it records is adopted as it
      stands, and what it does not record is missed only after that; then the attempt fails and leaves
      every file and process alone. */
  lemma ALiveRegistryIsObeyed(w: World, id: ClientId, d: Dir, e: Dir, seen: OpenSeen)
    requires d in w.registry && w.registry[d].Object? && w.registry[d].pidfile == Is(e) && PidOf(w, e) != 0
    requires seen.fault.NoFault? && !Overflows(d, w.tempLen)
    ensures var j, r := w.registry[d], Open(w, id, Some(d), seen);
            var complete := j.unixsocket.Some? && j.dbdir.Some? && j.dbfilename;
            && (r.client.Some? <==> complete && seen.ready && Reach(w, j.unixsocket.value) != 0)
            && (r.client.Some? ==>
                  && r.client.value == Client(true, Some(d), j.dbdir.value, e, j.unixsocket.value, None, None)
                  && r.world == Touch(w.(dirs := w.dirs + {d}, hooks := w.hooks + {id}), id, j.unixsocket.value))
            && (r.client.None? ==> r.world == w.(dirs := w.dirs + {d}, hooks := w.hooks - {id}))
  {
    hide Touch;
  }

  // ---- Transactional startup ----

  /** The user's directory, unless making it was what failed. */
  function Made(target: Option<Dir>, fault: Fault): set<Dir> {
    if target.Some? && !fault.DirFault? then {target.value} else {}
  }

  /** What a failed attempt must not leave, and what it may: the daemons, their connections and data and
      the hooks are as before, no directory was added but the user's own, the contents of every RDB are
      the same, a registry is at most removed and only where no daemon serves, and the only process ever
      signalled is the one this attempt launched. */
  ghost predicate LeavesNoTrace(w: World, v: World, target: Option<Dir>, fault: Fault) {
    && v.daemons == w.daemons && v.live == w.live && v.hooks == w.hooks
    && v.dirs == w.dirs + Made(target, fault)
    && (forall d :: d in v.registry ==> d in w.registry && v.registry[d] == w.registry[d])
    && (forall d :: d in w.registry && d !in v.registry ==> Some(d) == target && PidOf(w, d) == 0)
    && (forall d: Dir :: d.User? ==> OnDisk(v, d) == OnDisk(w, d))
    && w.signals <= v.signals && (forall i :: |w.signals| <= i < |v.signals| ==> v.signals[i].pid == w.nextPid)
  }

  /** A failed open leaves no trace, whichever step failed, with two exceptions. When the short socket
      directory cannot be created, that happens before the try block, and the private directory of an
      isolated client stays behind. When the rollback of a started server raises in its first call, it is
      not carried out. */
  lemma FailedOpenLeavesNoTrace(s: System, id: ClientId, target: Option<Dir>, seen: OpenSeen)
    requires Inv(s) && Openable(s, id, target) && Open(s.world, id, target, seen).client.None?
    ensures LeavesNoTrace(s.world, Open(s.world, id, target, seen).world, target, seen.fault)
            <==> !Leaks(s.world, target, seen)
    ensures Enabled(s, OpenClient(id, target, seen)) ==> Step(s, OpenClient(id, target, seen)).clients == s.clients
  {
    hide WorldInv, ClientOk, MayStart, AttachOrStart, ConnectionsOk, CleanedUp, OwnSocket, Touch, Started, Undone,
      LeavesNoTrace, Stuck, UndoStops, StopsAfterStart, LosesServer;
    var w := s.world;
    var r := Prepare(w, target, seen.fault);
    UndoStopsIff(w, target, seen);
    if r.client.None? {
      if target.None? {
        NoDaemonIfFresh(w, Private(w.nextTemp), None);
      }
      PrepareFails(w, target, seen);
      LeakOfPrepare(w, r.world, target, seen.fault);
    } else {
      PreparedOk(w, id, target, seen.fault);
      var c, v := r.client.value, r.world.(hooks := r.world.hooks + {id});
      TraceOfPrepare(w, id, target, seen.fault);
      HomeOfRegistry(v, c);
      RegistriesAreUsers(w, c.dbdir);
      RegistriesAreUsers(w, c.socket);
      AttachOrStartOutcome(v, id, c, seen);
      var o := AttachOrStart(v, id, c, seen);
      assert v.hooks - {id} == w.hooks;
      if PidOf(w, c.dbdir) != 0 {
        AttachTrace(w, v, id, c, target, seen.fault);
      } else if StopsAfterStart(c.registry, seen) {
        PidFacts(v, None);
        StuckTrace(w, v, id, c, target, seen);
      } else {
        UndoneTrace(w, v, o.world, id, c, target, seen.fault);
      }
    }
  }

  lemma StuckTrace(w: World, v: World, id: ClientId, c: Client, target: Option<Dir>, seen: OpenSeen)
    requires id !in w.hooks && id in v.hooks && v.nextPid !in v.daemons
    ensures !LeavesNoTrace(w, Stuck(v, c, seen), target, seen.fault)
  {
    StuckFields(v, c, seen);
    hide Stuck;
  }

  /** What an attempt stuck in its rollback leaves: its hook, its private and socket directories, and its
      daemon unless SIGTERM ended it. The hook is of no use: it belongs to an object that does not run, and
      running it changes nothing. */
  lemma StuckOpenLeaves(s: System, id: ClientId, target: Option<Dir>, seen: OpenSeen)
    requires Inv(s) && Openable(s, id, target) && UndoStops(s.world, target, seen)
    ensures var w, v := s.world, Open(s.world, id, target, seen).world;
            && id in v.hooks && (target.None? ==> Private(w.nextTemp) in v.dirs)
            && (w.nextPid in v.daemons <==> !seen.ending.ByTerm?)
            && (w.nextPid in v.daemons ==> v.daemons[w.nextPid].conns == multiset{})
    ensures forall c: Client, again: CloseSeen :: !c.running ==>
              Close(Open(s.world, id, target, seen).world, id, c, again).world == Open(s.world, id, target, seen).world
  {
    hide WorldInv, ClientOk, MayStart, AttachOrStart, ConnectionsOk, CleanedUp, OwnSocket, Touch, Started, Undone,
      Stuck, UndoStops, StopsAfterStart;
    var w := s.world;
    UndoStopsIff(w, target, seen);
    PreparedOk(w, id, target, seen.fault);
    var r := Prepare(w, target, seen.fault);
    var c, v := r.client.value, r.world.(hooks := r.world.hooks + {id});
    AttachOrStartOutcome(v, id, c, seen);
    PidFacts(v, None);
    StuckFields(v, c, seen);
    NothingToDisconnect(Stuck(v, c, seen), id);
  }

  /** Why an attempt that fails twice is not among the steps of a run: its daemon lives on, the truncated
      registry does not name it, and the next open starts a second daemon in the same directory. */
  lemma LostServerIsDoubled(s: System, id: ClientId, d: Dir, seen: OpenSeen, next: ClientId, smooth: OpenSeen)
    requires Inv(s) && Openable(s, id, Some(d)) && LosesServer(s.world, Some(d), seen) && seen.fault.created
    requires smooth.fault.NoFault? && smooth.up && smooth.ready
    ensures var r := Open(Open(s.world, id, Some(d), seen).world, next, Some(d), smooth);
            var p := s.world.nextPid;
            && r.client.Some? && p in r.world.daemons && p + 1 in r.world.daemons
            && r.world.daemons[p].dir == r.world.daemons[p + 1].dir == d
  {
    hide WorldInv, ClientOk, MayStart, AttachOrStart, ConnectionsOk, CleanedUp, OwnSocket, Touch, Undone,
      Stuck, UndoStops, StopsAfterStart;
    var w := s.world;
    UndoStopsIff(w, Some(d), seen);
    PreparedOk(w, id, Some(d), seen.fault);
    var r := Prepare(w, Some(d), seen.fault);
    var c, v := r.client.value, r.world.(hooks := r.world.hooks + {id});
    HomeOfRegistry(v, c);
    AttachOrStartOutcome(v, id, c, seen);
    PidFacts(v, None);
    StuckFields(v, c, seen);
    StuckRegistry(v, c, seen);
    hide Open;
    assert Open(w, id, Some(d), seen).world == Stuck(v, c, seen) by {
      OpenIsTry(w, id, Some(d), seen);
    }
    UnreadableIsReplaced(Stuck(v, c, seen), next, d, smooth);
  }

  lemma OpenIsTry(w: World, id: ClientId, target: Option<Dir>, seen: OpenSeen)
    ensures var p := Prepare(w, target, seen.fault);
            p.client.Some? ==>
              var v := p.world.(hooks := p.world.hooks + {id});
              Open(w, id, target, seen) == AttachOrStart(v, id, p.client.value, seen)
  {
  }

  lemma StuckRegistry(w: World, c: Client, seen: OpenSeen)
    requires w.nextPid !in w.daemons && !seen.ending.ByTerm?
    ensures var t := Stuck(w, c, seen); t.registry == RegistryLeft(w, c, seen.fault) && t.nextPid == w.nextPid + 1
  {
  }

  /** Opening where the registry does not parse starts a server, whoever serves there. */
  lemma UnreadableIsReplaced(w: World, id: ClientId, d: Dir, seen: OpenSeen)
    requires d.User? && d in w.registry && w.registry[d].NotJson? && w.nextPid > 0
    requires seen.fault.NoFault? && seen.up && seen.ready
    ensures var r := Open(w, id, Some(d), seen);
            && r.client.Some? && w.nextPid in r.world.daemons && r.world.daemons[w.nextPid].dir == d
            && forall p <- w.daemons :: p != w.nextPid ==>
                p in r.world.daemons && r.world.daemons[p].dir == w.daemons[p].dir
  {
    hide StartAndConnect, Touch;
    var p := Prepare(w, Some(d), NoFault);
    var c, v := p.client.value, p.world.(hooks := p.world.hooks + {id});
    SmoothStart(v, id, c, seen);
  }

  lemma NothingToDisconnect(w: World, id: ClientId)
    requires forall p <- w.daemons :: id !in w.daemons[p].conns
    ensures Disconnect(w, id) == w
  {
    forall p <- w.daemons ensures w.daemons[p].conns[id := 0] == w.daemons[p].conns {
    }
    assert Disconnect(w, id).daemons == w.daemons;
  }

  lemma LeakOfPrepare(w: World, v: World, target: Option<Dir>, fault: Fault)
    requires v == w.(dirs := v.dirs, nextTemp := v.nextTemp)
    requires v.dirs == w.dirs + (if fault.DirFault? then {} else if target.Some? then
        {target.value} else {Private(w.nextTemp)})
    requires target.None? ==> Private(w.nextTemp) !in w.dirs
    ensures LeavesNoTrace(w, v, target, fault) <==> target.Some? || fault.DirFault?
  {
    if target.None? && !fault.DirFault? {
      assert Private(w.nextTemp) in v.dirs;
    }
  }

  /** The directories that preparing adds are exactly the target, the private directory and the socket
      directory. */
  lemma TraceOfPrepare(w: World, id: ClientId, target: Option<Dir>, fault: Fault)
    requires WorldInv(w, None) && (target.Some? ==> target.value.User?)
    ensures var r := Prepare(w, target, fault);
            r.client.Some? ==>
              var c := r.client.value;
              && r.world.dirs - PrivateDir(c) - OwnSockDir(c) == w.dirs + Made(target, fault) && !fault.DirFault?
              && c.registry == target && (target.Some? ==> c.dbdir == target.value)
  {
    hide WorldInv;
    var r := Prepare(w, target, fault);
    if r.client.Some? {
      if target.None? {
        NoDaemonIfFresh(w, Private(w.nextTemp), None);
      }
      var (w1, dir) := PrepareDir(w, target);
      NoDaemonIfFresh(w, SockTemp(w1.nextTemp), None);
    }
  }

  lemma UndoneContents(w: World, v: World, id: ClientId, c: Client, d: Dir)
    requires Undone(w, v, id, c) && (c.registry.None? ==> d != c.dbdir)
    ensures OnDisk(v, d) == OnDisk(w, d)
  {
    var u :| Nearly(w, u, c) && v == CleanedUp(u, id, c);
    if d != c.dbdir {
      assert d in u.rdb <==> d in u.rdb - {c.dbdir};
      assert d in w.rdb <==> d in w.rdb - {c.dbdir};
    }
  }

  lemma UndoneTrace(w: World, v: World, t: World, id: ClientId, c: Client, target: Option<Dir>, fault: Fault)
    requires Undone(v, t, id, c) && v.hooks - {id} == w.hooks
    requires v == w.(dirs := v.dirs, nextTemp := v.nextTemp, hooks := v.hooks)
    requires v.dirs - PrivateDir(c) - OwnSockDir(c) == w.dirs + Made(target, fault)
    requires c.registry == target && (target.Some? ==> c.dbdir == target.value) && (target.None? ==> !c.dbdir.User?)
    requires PidOf(w, c.dbdir) == 0 && (c.dbdir in w.registry ==> target.Some?)
    ensures LeavesNoTrace(w, t, target, fault)
  {
    forall d: Dir | d.User? ensures OnDisk(t, d) == OnDisk(w, d) {
      UndoneContents(v, t, id, c, d);
      assert OnDisk(v, d) == OnDisk(w, d);
    }
    UndoneFields(v, t, id, c);
    hide Undone, OnDisk, PidOf, WorldInv;
    if target.Some? {
      assert PrivateDir(c) == {};
    }
  }

  lemma UndoneFields(w: World, v: World, id: ClientId, c: Client)
    requires Undone(w, v, id, c)
    ensures && v.daemons == w.daemons && v.live == w.live && v.hooks == w.hooks - {id}
            && v.dirs == w.dirs - PrivateDir(c) - OwnSockDir(c)
            && (v.registry == w.registry || v.registry == w.registry - {c.dbdir})
            && w.signals <= v.signals
            && (forall i :: |w.signals| <= i < |v.signals| ==> v.signals[i].pid == w.nextPid)
  {
  }

  lemma AttachTrace(w: World, v: World, id: ClientId, c: Client, target: Option<Dir>, fault: Fault)
    requires v == w.(dirs := v.dirs, nextTemp := v.nextTemp, hooks := v.hooks) && c.registry.Some?
    requires v.dirs - PrivateDir(c) - OwnSockDir(c) == w.dirs + Made(target, fault)
    requires c.sockDir.Some? ==> c.sockDir == Some(c.socket) && c.socket.SockTemp? && c.socket !in w.registry
    ensures LeavesNoTrace(w, RmTreeOpt(v, c.sockDir).(hooks := w.hooks), target, fault)
  {
  }

  // ---- Stale and unreadable registries ----

  /** Registry contents on which opening raises what it does not catch: TypeError for JSON that is not an
      object, or whose pidfile entry is not a path; RecursionError for JSON nested too deep. */
  predicate Poisoned(j: Json) {
    j.NonObject? || j.TooDeep? || (j.Object? && j.pidfile.Mistyped?)
  }

  /** No process that exists is recorded as the daemon. */
  predicate Stale(w: World, j: Json) {
    j.Object? && j.pidfile.Is? ==> PidOf(w, j.pidfile.dir) == 0
  }

  /** A start in which nothing fails brings up exactly one daemon, whatever the registry said. */
  lemma SmoothStart(w: World, id: ClientId, c: Client, seen: OpenSeen)
    requires 0 < w.nextPid && seen.fault.NoFault? && seen.up && seen.ready
    requires c.pidfile == c.dbdir && (c.registry.Some? ==> c.registry.value == c.dbdir)
    ensures StartAndConnect(w, id, c, seen) ==
        Opened(Started(w, id, c), Some(c.(running := true, conf := Some(c.dbdir))))
  {
    hide Rollback;
    var registry := if c.registry.Some? then w.registry[c.dbdir := Entry(c.dbdir, c.socket)] else w.registry;
    FirstTouch(w, id, c, registry);
  }

  /** Recovery: a directory without a daemon whose registry holds anything at all, readable or not, but
      records no existing process. Opening it, if nothing else fails, succeeds exactly when the registry
      is not poisoned. It then runs one fresh daemon on the last RDB, has signalled no process, names the
      new daemon in the registry and restores the invariant. A poisoned registry stays and keeps
      blocking. */
  lemma StaleRegistryRecovery(s: System, d: Dir, j: Json, id: ClientId, seen: OpenSeen)
    requires Inv(s) && d.User? && PidOf(s.world, d) == 0 && Stale(s.world, j)
    requires Unknown(s, id) && seen.fault.NoFault? && seen.up && seen.ready
    ensures var s1 := s.(world := s.world.(registry := s.world.registry[d := j]));
            var p := s.world.nextPid;
            var t := Step(s1, OpenClient(id, Some(d), seen));
            if Poisoned(j) then
              !Running(t, id) && t.world.registry == s1.world.registry && t.world.daemons == s.world.daemons
            else
              && Inv(t) && Running(t, id) && t.clients[id].dbdir == d
              && t.world.daemons.Keys == s.world.daemons.Keys + {p}
              && (forall q <- s.world.daemons :: t.world.daemons[q] == s.world.daemons[q])
              && t.world.daemons[p] == Daemon(d, t.clients[id].socket, OnDisk(s.world, d), multiset{id})
              && Load(t.world, d) == Attached(d, t.clients[id].socket, d)
              && t.world.signals == s.world.signals
  {
    hide Inv, Stale, Step, Load, Unknown, OnDisk;
    if Poisoned(j) {
      PoisonedOpenFails(s, d, j, id, seen);
    } else {
      UnpoisonedOpenSucceeds(s, d, j, id, seen);
    }
  }

  lemma PoisonedOpenFails(s: System, d: Dir, j: Json, id: ClientId, seen: OpenSeen)
    requires Inv(s) && d.User? && PidOf(s.world, d) == 0 && Poisoned(j)
    requires Unknown(s, id) && seen.fault.NoFault? && seen.up && seen.ready
    ensures var s1 := s.(world := s.world.(registry := s.world.registry[d := j]));
            && Enabled(s1, OpenClient(id, Some(d), seen))
            && var t := Step(s1, OpenClient(id, Some(d), seen));
               !Running(t, id) && t.world.registry == s1.world.registry && t.world.daemons == s.world.daemons
  {
    hide Inv, Started, Rollback, AttachOrStart, Prepare;
    var w := s.world;
    var w1 := w.(registry := w.registry[d := j]);
    WorldOfInv(s);
    PrepareIgnoresRegistry(w, Some(d), NoFault, w1.registry);
    PrepareSucceeds(w, Some(d));
    PreparedOk(w, id, Some(d), NoFault);
    PrepareKeeps(w, Some(d), NoFault);
    var r := Prepare(w, Some(d), NoFault);
    var c, v := r.client.value, r.world.(hooks := r.world.hooks + {id});
    HomeOfRegistry(v, c);
    RegistriesAreUsers(w, c.socket);
    PoisonBlocks(v.(registry := w1.registry), id, c, seen);
  }

  lemma UnpoisonedOpenSucceeds(s: System, d: Dir, j: Json, id: ClientId, seen: OpenSeen)
    requires Inv(s) && d.User? && PidOf(s.world, d) == 0 && Stale(s.world, j) && !Poisoned(j)
    requires Unknown(s, id) && seen.fault.NoFault? && seen.up && seen.ready
    ensures var s1 := s.(world := s.world.(registry := s.world.registry[d := j]));
            var p := s.world.nextPid;
            && Enabled(s1, OpenClient(id, Some(d), seen))
            && var t := Step(s1, OpenClient(id, Some(d), seen));
               && Inv(t) && Running(t, id) && t.clients[id].dbdir == d
               && t.world.daemons.Keys == s.world.daemons.Keys + {p}
               && (forall q <- s.world.daemons :: t.world.daemons[q] == s.world.daemons[q])
               && t.world.daemons[p] == Daemon(d, t.clients[id].socket, OnDisk(s.world, d), multiset{id})
               && Load(t.world, d) == Attached(d, t.clients[id].socket, d)
               && t.world.signals == s.world.signals
  {
    hide Inv, Started, Step, Load, PidOf, Unknown;
    UnpoisonedStep(s, d, j, id, seen);
    var r := Prepare(s.world, Some(d), NoFault);
    var c, v := r.client.value, r.world.(hooks := r.world.hooks + {id});
    SafeStart(s, v, id, c);
    StartedDetails(v, id, c);
    hide Prepare;
  }

  /** Step by step: the registry is replaced. */
  lemma UnpoisonedStep(s: System, d: Dir, j: Json, id: ClientId, seen: OpenSeen)
    requires Inv(s) && d.User? && PidOf(s.world, d) == 0 && Stale(s.world, j) && !Poisoned(j)
    requires Unknown(s, id) && seen.fault.NoFault? && seen.up && seen.ready
    ensures var s1 := s.(world := s.world.(registry := s.world.registry[d := j]));
            var r := Prepare(s.world, Some(d), NoFault);
            && r.client.Some? && Enabled(s1, OpenClient(id, Some(d), seen))
            && var c, v := r.client.value, r.world.(hooks := r.world.hooks + {id});
               && Step(s1, OpenClient(id, Some(d), seen))
                  == System(Started(v, id, c), s.clients[id := c.(running := true, conf := Some(c.dbdir))])
               && WorldInv(v, None) && MayStart(v, c) && c.registry == Some(d) && c.dbdir == d && c.dbdir.User?
               && v == s.world.(dirs := v.dirs, nextTemp := v.nextTemp, hooks := s.world.hooks + {id})
               && s.world.dirs <= v.dirs && s.world.nextTemp <= v.nextTemp
               && (if c.sockDir.Some? then Fresh(s.world, c.socket) else c.socket == c.dbdir)
  {
    hide Inv, Started, Rollback, AttachOrStart, Prepare;
    var w := s.world;
    var w1 := w.(registry := w.registry[d := j]);
    WorldOfInv(s);
    PrepareIgnoresRegistry(w, Some(d), NoFault, w1.registry);
    PrepareSucceeds(w, Some(d));
    PreparedOk(w, id, Some(d), NoFault);
    PrepareKeeps(w, Some(d), NoFault);
    var r := Prepare(w, Some(d), NoFault);
    var c, v := r.client.value, r.world.(hooks := r.world.hooks + {id});
    HomeOfRegistry(v, c);
    UnpoisonedStarts(v, id, c, j, seen);
  }

  lemma WorldOfInv(s: System)
    requires Inv(s)
    ensures WorldInv(s.world, None) && s.world.nextPid > 0
  {
  }

  lemma PrepareIgnoresRegistry(w: World, target: Option<Dir>, fault: Fault, registry: map<Dir, Json>)
    ensures var r := Prepare(w, target, fault);
            Prepare(w.(registry := registry), target, fault) == Opened(r.world.(registry := registry), r.client)
  {
    var u := w.(registry := registry);
    var (w1, dir) := PrepareDir(w, target);
    assert PrepareDir(u, target) == (w1.(registry := registry), dir);
    var (w2, sock, sockDir) := PrepareSocket(w1, dir);
    assert PrepareSocket(w1.(registry := registry), dir) == (w2.(registry := registry), sock, sockDir);
    hide PrepareDir, PrepareSocket;
  }

  lemma StartedDetails(w: World, id: ClientId, c: Client)
    requires w.nextPid !in w.daemons || WorldInv(w, None)
    ensures var t := Started(w, id, c);
            && t.daemons.Keys == w.daemons.Keys + {w.nextPid} && t.signals == w.signals
            && (forall q <- w.daemons :: t.daemons[q] == w.daemons[q])
            && t.daemons[w.nextPid] == Daemon(c.dbdir, c.socket, OnDisk(w, c.dbdir), multiset{id})
  {
  }

  /** A registry that does not raise and records no existing process is simply replaced. */
  lemma UnpoisonedStarts(w: World, id: ClientId, c: Client, j: Json, seen: OpenSeen)
    requires !Poisoned(j) && Stale(w, j) && c.registry.Some? && c.registry.value == c.dbdir && c.pidfile == c.dbdir
    requires 0 < w.nextPid && seen.fault.NoFault? && seen.up && seen.ready
    ensures AttachOrStart(w.(registry := w.registry[c.dbdir := j]), id, c, seen)
            == Opened(Started(w, id, c), Some(c.(running := true, conf := Some(c.dbdir))))
  {
    hide StartAndConnect;
    var w1 := w.(registry := w.registry[c.dbdir := j]);
    assert Load(w1, c.dbdir) == Absent;
    SmoothStart(w1, id, c, seen);
    RegistryOverwritten(w, id, c, j);
  }

  lemma PoisonBlocks(w: World, id: ClientId, c: Client, seen: OpenSeen)
    requires c.registry.Some? && c.registry.value == c.dbdir && c.dbdir in w.registry && Poisoned(w.registry[c.dbdir])
    requires c.sockDir.Some? ==> c.sockDir.value !in w.registry
    ensures var r := AttachOrStart(w, id, c, seen);
            r.client.None? && r.world.registry == w.registry && r.world.daemons == w.daemons
  {
    if c.sockDir.Some? {
      assert w.registry - {c.sockDir.value} == w.registry;
    }
  }

  lemma RegistryOverwritten(w: World, id: ClientId, c: Client, j: Json)
    requires c.registry.Some?
    ensures Started(w.(registry := w.registry[c.dbdir := j]), id, c) == Started(w, id, c)
  {
  }

  /** A successful start from a good state. */
  lemma SafeStart(s: System, v: World, id: ClientId, c: Client)
    requires Inv(s) && Unknown(s, id) && WorldInv(v, None) && MayStart(v, c) && c.registry.Some? && c.dbdir.User?
    requires v == s.world.(dirs := v.dirs, nextTemp := v.nextTemp, hooks := s.world.hooks + {id})
    requires s.world.dirs <= v.dirs && s.world.nextTemp <= v.nextTemp
    requires if c.sockDir.Some? then Fresh(s.world, c.socket) else c.socket == c.dbdir
    ensures var c1 := c.(running := true, conf := Some(c.dbdir));
            var t := System(Started(v, id, c), s.clients[id := c1]);
            Inv(t) && Load(t.world, c.dbdir) == Attached(c.dbdir, c.socket, c.dbdir)
  {
    hide WorldInv, ClientOk, ConnectionsOk, Distinct, Joined, MayStart;
    var c1 := c.(running := true, conf := Some(c.dbdir));
    StartedKeeps(v, id, c);
    StartedJoins(s.world, v, id, c, c1);
    JoinInv(s, Started(v, id, c), id, c1);
    PidFacts(v, None);
  }

  // ---- Failed closes ----

  /** A raising close that stopped its server all the same: SHUTDOWN or SIGTERM got through, then the
      process cleanup raised. */
  predicate StoppedAllTheSame(s: System, id: ClientId, seen: CloseSeen)
    requires id in s.clients
  {
    var c := s.clients[id];
    CloseRaises(s, id, seen) && !(c.registry.Some? && seen.countRaises) && GoesDown(s.world, c, seen)
  }

  /** The signals of a raising close. */
  function SignalsOf(s: System, id: ClientId, seen: CloseSeen): seq<Sent>
    requires id in s.clients
  {
    var c := s.clients[id];
    if c.registry.Some? && seen.countRaises then [] else PartlyDelivered(seen.ending, PidOf(s.world, c.dbdir))
  }

  /** A close whose ownership check or process cleanup raises can be retried: the client still runs, its
      hook and its registry are still there, no file was removed, and at most its own daemon was sent
      SIGTERM. Its own connections are gone. Every daemon serves on as before, unless SHUTDOWN or SIGTERM
      had got through: then exactly its own server is down, and saved as an ordinary stop would. The next
      close that does not raise again retires the client. */
  lemma FailedCloseIsRetryable(s: System, id: ClientId, seen: CloseSeen)
    requires Inv(s) && id in s.clients && CloseRaises(s, id, seen)
    ensures var t := Step(s, CloseClient(id, seen));
            var w, v, c := s.world, t.world, s.clients[id];
            var stopped := StoppedAllTheSame(s, id, seen);
            && t.clients == s.clients && Running(t, id) && id in v.hooks
            && v == w.(daemons := v.daemons, live := v.live, rdb := v.rdb, pidfile := v.pidfile, sockets := v.sockets,
                       signals := w.signals + SignalsOf(s, id, seen))
            && v.daemons.Keys == w.daemons.Keys - (if stopped then {PidOf(w, c.dbdir)} else {})
            && (!stopped ==> v.live == w.live && v.rdb == w.rdb && v.pidfile == w.pidfile && v.sockets == w.sockets)
            && (stopped ==> PidOf(w, c.dbdir) in w.daemons)
            && (stopped ==> v.rdb == if StopSaves(w, c, seen) then
                w.rdb[c.dbdir := w.daemons[PidOf(w, c.dbdir)].data] else w.rdb)
            && (forall p <- v.daemons :: Untouched(w.daemons[p], v.daemons[p], id))
    ensures var t := Step(s, CloseClient(id, seen));
            forall again: CloseSeen :: !again.countRaises && !again.cleanupRaises ==>
              !CloseRaises(t, id, again) && !Running(Step(t, CloseClient(id, again)), id)
  {
    hide WorldInv, ClientOk, ConnectionsOk, Distinct, Touch, Disconnect, StopServer, Interrupted;
    assert s.clients[id := s.clients[id]] == s.clients;
    var w, c := s.world, s.clients[id];
    var w1 := if c.registry.Some? then Touch(w, id, c.socket) else w;
    ClientsAreOk(s, id);
    TouchThenDisconnect(w, id, c.socket);
    TouchReaches(w, id, c.socket);
    TouchShape(w, id, c.socket);
    ShapeKeeps(w, w1, None);
    assert w.signals + [] == w.signals;
    if !(c.registry.Some? && seen.countRaises) {
      HomePidfile(w1, c);
      InterruptedFields(w1, c, seen, id);
    }
    RetryRetires(Step(s, CloseClient(id, seen)), id);
  }

  /** A close that meets no obstacle retires a running client. */
  lemma RetryRetires(s: System, id: ClientId)
    requires id in s.clients
    ensures forall again: CloseSeen :: !again.countRaises && !again.cleanupRaises ==>
              !CloseRaises(s, id, again) && !Running(Step(s, CloseClient(id, again)), id)
  {
    hide Touch, Disconnect, StopServer, Interrupted;
  }

  /** A daemon served on, with the same data and everybody else's connections. */
  ghost predicate Untouched(a: Daemon, b: Daemon, id: ClientId) {
    b.dir == a.dir && b.sock == a.sock && b.data == a.data && b.conns == a.conns[id := 0]
  }

  lemma TouchReaches(w: World, id: ClientId, sock: Dir)
    ensures Reach(Touch(w, id, sock), sock) == Reach(w, sock)
    ensures forall p <- w.daemons :: Touch(w, id, sock).daemons[p].data == w.daemons[p].data
  {
  }

  lemma InterruptedFields(w: World, c: Client, seen: CloseSeen, id: ClientId)
    requires WorldInv(w, None) && ClientOk(w, c) && PidOf(w, c.dbdir) != 0
    ensures var v := Disconnect(Interrupted(w, c, seen), id);
            var p := PidOf(w, c.dbdir);
            var down := GoesDown(w, c, seen);
            && p in w.daemons
            && v == w.(daemons := v.daemons, live := v.live, rdb := v.rdb, pidfile := v.pidfile, sockets := v.sockets,
                       signals := w.signals + PartlyDelivered(seen.ending, p))
            && v.daemons.Keys == w.daemons.Keys - (if down then {p} else {})
            && (!down ==> v.live == w.live && v.rdb == w.rdb && v.pidfile == w.pidfile && v.sockets == w.sockets)
            && (down ==> v.rdb == if StopSaves(w, c, seen) then w.rdb[c.dbdir := w.daemons[p].data] else w.rdb)
            && (forall q <- v.daemons :: Untouched(w.daemons[q], v.daemons[q], id))
  {
    InterruptedIs(w, c, seen);
    PartedDaemons(Interrupted(w, c, seen), id);
    hide Interrupted, WorldInv, ClientOk, GoesDown, StopSaves, PidOf, Disconnect;
    assert w.daemons.Keys - {} == w.daemons.Keys;
  }

  lemma TouchThenDisconnect(w: World, id: ClientId, sock: Dir)
    ensures var v := Disconnect(Touch(w, id, sock), id);
            v == w.(daemons := v.daemons) && v.daemons.Keys == w.daemons.Keys
            && forall p <- w.daemons :: Untouched(w.daemons[p], v.daemons[p], id)
    ensures forall p <- w.daemons :: Touch(w, id, sock).daemons[p].conns[id := 0] == w.daemons[p].conns[id := 0]
  {
    TouchThenGone(w, id, sock);
    TouchShape(w, id, sock);
    var t := Touch(w, id, sock);
    hide Touch;
    forall p <- w.daemons ensures Parted(t.daemons[p], id) == Parted(w.daemons[p], id) {
    }
    assert Disconnect(t, id).daemons.Keys == w.daemons.Keys;
  }

  /** But a client that stays after a failed close no longer counts: the next close of another client of
      the same database, if that one holds one connection and nobody else is connected, takes the server
      away from it. */
  lemma FailedCloseLosesTheServer(s: System, id: ClientId, seen: CloseSeen, next: ClientId, nextSeen: CloseSeen, p: nat)
    requires Inv(s) && Running(s, id) && Running(s, next) && id != next
    requires s.clients[id].registry.Some? && s.clients[next].registry.Some? && seen.countRaises
    requires ServedBy(s.world, s.clients[id], p) && ServedBy(s.world, s.clients[next], p)
    requires s.world.daemons[p].conns == multiset{id, next}
    requires var t := Step(s, CloseClient(id, seen)); !CloseRaises(t, next, nextSeen)
    ensures var t := Step(s, CloseClient(id, seen));
            var u := Step(t, CloseClient(next, nextSeen));
            && p in t.world.daemons && Running(t, id) && Running(u, id)
            && p !in u.world.daemons && Reach(u.world, u.clients[id].socket) == 0
  {
    hide WorldInv, ClientOk, ConnectionsOk, Distinct, Step;
    var t := Step(s, CloseClient(id, seen));
    CountRaised(s, id, seen);
    FailedCloseIsRetryable(s, id, seen);
    StepInv(s, CloseClient(id, seen));
    assert t.world.daemons[p].conns == multiset{next};
    ElectionRule(t, next, nextSeen, p);
    StepInv(t, CloseClient(next, nextSeen));
    OnlyNextLeaves(t, next, nextSeen, id);
    CloseDaemons(t, next, nextSeen);
    OneDaemonPerDir(t.world, p);
    ReachIsHome(Step(t, CloseClient(next, nextSeen)), id);
  }

  lemma CountRaised(s: System, id: ClientId, seen: CloseSeen)
    requires Running(s, id) && s.clients[id].registry.Some? && seen.countRaises
    ensures CloseRaises(s, id, seen) && !StoppedAllTheSame(s, id, seen)
  {
  }

  lemma OnlyNextLeaves(s: System, next: ClientId, seen: CloseSeen, id: ClientId)
    requires next in s.clients && id != next && Running(s, id)
    ensures var u := Step(s, CloseClient(next, seen)); Running(u, id) && u.clients[id] == s.clients[id]
  {
    hide StopServer, Interrupted, Disconnect, Touch;
  }

  lemma PrepareSucceeds(w: World, target: Option<Dir>)
    ensures Prepare(w, target, NoFault).client.Some?
  {
  }

  /** Nothing fails and a daemon serves the database: opening attaches. */
  lemma SmoothAttach(s: System, id: ClientId, target: Option<Dir>, seen: OpenSeen)
    requires Inv(s) && Unknown(s, id) && target.Some? && target.value.User? && PidOf(s.world, target.value) != 0
    requires seen.fault.NoFault? && seen.ready
    ensures Open(s.world, id, target, seen).client.Some?
  {
    hide WorldInv, ClientOk, MayStart, Prepare, OwnSocket, Touch, RmTree;
    var r := Prepare(s.world, target, NoFault);
    PrepareSucceeds(s.world, target);
    PreparedOk(s.world, id, target, NoFault);
    var c, v := r.client.value, r.world.(hooks := r.world.hooks + {id});
    HomeOfRegistry(v, c);
    LoadOutcome(v, c.dbdir);
    SocketStays(v, c, v.daemons[PidOf(v, c.dbdir)].sock);
  }

  lemma SocketStays(v: World, c: Client, sock: Dir)
    requires c.sockDir != Some(sock)
    ensures Reach(RmTreeOpt(v, c.sockDir), sock) == Reach(v, sock)
  {
  }
}
