/** Nothing is left over: whatever fails, crashes or raises in a run, no server and no private directory
    outlives its clients, and no user's database file disappears. */
module Conservation {
  import opened Wrappers
  import opened HostWorld
  import opened Lifecycle
  import opened Discipline
  import opened Guarantees
  import opened Refinement

  // ---- The invariant ----

  /** A daemon's connections are at most one for each running client of its directory. */
  ghost predicate AtMostOne(s: System) {
    forall p <- s.world.daemons, id: ClientId ::
      s.world.daemons[p].conns[id] <= if LivesIn(s, id, s.world.daemons[p].dir) then 1 else 0
  }

  ghost predicate Loose(s: System) {
    AtMostOne(s) && NoOrphans(s)
  }

  /** Events that leave nothing behind: all but an open that leaks, second and foreign connections, which
      mislead the count, and killing a client's process. Closes may raise or be refused, connections may
      be lost and daemons may crash. */
  predicate Decent(s: System, e: Event)
    requires Enabled(s, e)
  {
    match e
    case OpenClient(_, target, seen) => !Leaks(s.world, target, seen)
    case MoreConnections(_) => false
    case ForeignConnection(_, _) => false
    case ClientKilled(_) => false
    case _ => true
  }

  predicate DecentRun(s: System, es: seq<Event>)
    requires EnabledRun(s, es)
    decreases |es|
  {
    es == [] || (Decent(s, es[0]) && DecentRun(Step(s, es[0]), es[1..]))
  }

  lemma InitialLoose(s: System)
    requires Initial(s) && forall d <- s.world.dirs :: !d.Private?
    ensures Loose(s)
  {
  }

  lemma Connected(s: System, p: nat, id: ClientId)
    requires AtMostOne(s) && p in s.world.daemons
    ensures s.world.daemons[p].conns[id] <= if LivesIn(s, id, s.world.daemons[p].dir) then 1 else 0
  {
  }

  // ---- Steps in which nobody joins or leaves ----

  /** The same clients run, daemons may have gone, connections were lost, or restored by a client that
      lives there; no private directory was added. */
  ghost predicate Dwindled(s: System, v: System) {
    && (forall i, d :: LivesIn(v, i, d) <==> LivesIn(s, i, d))
    && (forall p <- v.world.daemons :: p in s.world.daemons && v.world.daemons[p].dir == s.world.daemons[p].dir)
    && (forall p <- v.world.daemons, i: ClientId ::
          || v.world.daemons[p].conns[i] <= s.world.daemons[p].conns[i]
          || (v.world.daemons[p].conns[i] <= 1 && LivesIn(s, i, s.world.daemons[p].dir)))
    && (forall d <- v.world.dirs :: d.Private? ==> d in s.world.dirs)
  }

  lemma DwindledLoose(s: System, v: System)
    requires Loose(s) && Dwindled(s, v)
    ensures Loose(v)
  {
    hide Inhabited;
    forall p <- v.world.daemons, i: ClientId
      ensures v.world.daemons[p].conns[i] <= if LivesIn(v, i, v.world.daemons[p].dir) then 1 else 0
    {
      Connected(s, p, i);
    }
    forall d | Inhabited(s, d) ensures Inhabited(v, d) {
      var i := Dweller(s, d);
      LivesHere(v, i, d);
    }
  }

  lemma SameClientsLiveOn(s: System, v: System)
    requires v.clients == s.clients
    ensures forall i, d :: LivesIn(v, i, d) <==> LivesIn(s, i, d)
  {
  }

  lemma CommandDwindles(s: System, id: ClientId)
    requires Inv(s) && Running(s, id)
    ensures Dwindled(s, s.(world := Touch(s.world, id, s.clients[id].socket)))
  {
    ReachIsHome(s, id);
    var v := s.(world := Touch(s.world, id, s.clients[id].socket));
    SameClientsLiveOn(s, v);
    hide WorldInv, ClientOk, ConnectionsOk;
    var q := Reach(s.world, s.clients[id].socket);
    forall p <- v.world.daemons, i: ClientId
      ensures || v.world.daemons[p].conns[i] <= s.world.daemons[p].conns[i]
              || (v.world.daemons[p].conns[i] <= 1 && LivesIn(s, i, s.world.daemons[p].dir))
    {
      assert p == q || v.world.daemons[p] == s.world.daemons[p];
    }
  }

  lemma WriteDwindles(s: System, sock: Dir, key: string, value: string)
    ensures Dwindled(s, s.(world := Write(s.world, sock, key, value)))
  {
    SameClientsLiveOn(s, s.(world := Write(s.world, sock, key, value)));
  }

  lemma DisconnectDwindles(s: System, id: ClientId)
    ensures Dwindled(s, s.(world := Disconnect(s.world, id)))
  {
    SameClientsLiveOn(s, s.(world := Disconnect(s.world, id)));
  }

  lemma CrashDwindles(s: System, pid: nat)
    ensures Dwindled(s, s.(world := Exit(s.world, pid)))
  {
    SameClientsLiveOn(s, s.(world := Exit(s.world, pid)));
  }

  lemma OutsideLoose(s: System, e: Event)
    requires Inv(s) && Loose(s) && Enabled(s, e) && Decent(s, e) && !e.OpenClient? && !e.CloseClient?
    ensures Loose(Step(s, e))
  {
    hide Inv, Loose, Dwindled, Touch, Write, Disconnect;
    match e {
      case SetKey(id, key, value) =>
        var sock := s.clients[id].socket;
        var s1 := s.(world := Touch(s.world, id, sock));
        CommandDwindles(s, id);
        DwindledLoose(s, s1);
        WriteDwindles(s1, sock, key, value);
        DwindledLoose(s1, Step(s, e));
      case GetKey(id, _) =>
        CommandDwindles(s, id);
        DwindledLoose(s, Step(s, e));
      case DropConnections(id) =>
        DisconnectDwindles(s, id);
        DwindledLoose(s, Step(s, e));
      case DaemonCrash(pid) =>
        CrashDwindles(s, pid);
        DwindledLoose(s, Step(s, e));
      case BackgroundSave(pid) =>
        SnapshotDwindles(s, pid);
        DwindledLoose(s, Step(s, e));
    }
  }

  lemma SnapshotDwindles(s: System, pid: nat)
    requires pid in s.world.daemons
    ensures Dwindled(s, Step(s, BackgroundSave(pid)))
  {
    SameClientsLiveOn(s, Step(s, BackgroundSave(pid)));
  }

  // ---- Closing ----

  /** A client left: a daemon of its directory that is still there has another client. */
  ghost predicate LeftLoosely(s: System, v: System, id: ClientId) {
    && Running(s, id)
    && (forall i, d :: LivesIn(v, i, d) <==> LivesIn(s, i, d) && i != id)
    && (forall p <- v.world.daemons :: p in s.world.daemons
          && v.world.daemons[p] == Parted(s.world.daemons[p], id))
    && (forall p <- v.world.daemons :: v.world.daemons[p].dir == s.clients[id].dbdir ==> Shared(s, id))
    && (forall d <- v.world.dirs :: d.Private? ==> d in s.world.dirs && d != s.clients[id].dbdir)
  }

  /** Another running client has the same directory. */
  ghost predicate Shared(s: System, id: ClientId)
    requires id in s.clients
  {
    exists other :: LivesIn(s, other, s.clients[id].dbdir) && other != id
  }

  lemma LeftLooselyInhabited(s: System, v: System, id: ClientId, d: Dir)
    requires Inhabited(s, d) && LeftLoosely(s, v, id) && (d == s.clients[id].dbdir ==> Shared(s, id))
    ensures Inhabited(v, d)
  {
    var i := Dweller(s, d);
    if i == id {
      var other :| LivesIn(s, other, d) && other != id;
      LivesHere(v, other, d);
    } else {
      LivesHere(v, i, d);
    }
  }

  lemma LeftLoose(s: System, v: System, id: ClientId)
    requires Loose(s) && LeftLoosely(s, v, id)
    ensures Loose(v)
  {
    hide Inhabited;
    forall p <- v.world.daemons, i: ClientId
      ensures v.world.daemons[p].conns[i] <= if LivesIn(v, i, v.world.daemons[p].dir) then 1 else 0
    {
      Connected(s, p, i);
    }
    forall p <- v.world.daemons ensures Inhabited(v, v.world.daemons[p].dir) {
      LeftLooselyInhabited(s, v, id, s.world.daemons[p].dir);
    }
    forall d <- v.world.dirs | d.Private? ensures Inhabited(v, d) {
      LeftLooselyInhabited(s, v, id, d);
    }
  }

  /** The server that a finished close leaves in its directory has another client: the count saw it. */
  lemma SurvivorIsShared(s: System, id: ClientId, seen: CloseSeen, p: nat)
    requires Inv(s) && AtMostOne(s) && Running(s, id) && !CloseRaises(s, id, seen)
    requires p in Step(s, CloseClient(id, seen)).world.daemons
    requires p in s.world.daemons && s.world.daemons[p].dir == s.clients[id].dbdir
    ensures Shared(s, id)
  {
    hide WorldInv, AtMostOne, Step;
    if s.clients[id].registry.Some? {
      ElectionRule(s, id, seen, p);
      Connected(s, p, id);
      var conns := s.world.daemons[p].conns;
      var other :| other in conns && other != id;
      Connected(s, p, other);
    } else {
      IsolatedTakesAll(s, id, seen);
      DaemonIsPid(s.world, p);
      assert false;
    }
  }

  lemma IsolatedTakesAll(s: System, id: ClientId, seen: CloseSeen)
    requires Inv(s) && Running(s, id) && s.clients[id].registry.None? && !CloseRaises(s, id, seen)
    ensures var v := Step(s, CloseClient(id, seen)).world;
            PidOf(s.world, s.clients[id].dbdir) !in v.daemons && s.clients[id].dbdir !in v.dirs
  {
    hide WorldInv, StopServer, ClientOk;
    ClientsAreOkStop(s, id, seen);
  }

  lemma FinishedClose(s: System, id: ClientId, seen: CloseSeen)
    requires Inv(s) && Running(s, id) && !CloseRaises(s, id, seen)
    ensures var t := Step(s, CloseClient(id, seen));
            && t.world.dirs <= s.world.dirs
            && (forall i, d :: LivesIn(t, i, d) <==> LivesIn(s, i, d) && i != id)
            && RunningIds(t) == RunningIds(s) - {id}
  {
    hide WorldInv, StopServer, Interrupted, ClientOk, ConnectionsOk;
    var w, c := s.world, s.clients[id];
    var w1 := if c.registry.Some? then Touch(w, id, c.socket) else w;
    ClientsAreOk(s, id);
    TouchShape(w, id, c.socket);
    ShapeKeeps(w, w1, None);
    StopServerKeeps(w1, c, seen);
  }

  lemma CloseLoose(s: System, id: ClientId, seen: CloseSeen)
    requires Inv(s) && Loose(s) && id in s.clients
    ensures Loose(Step(s, CloseClient(id, seen)))
  {
    hide WorldInv, ClientOk, ConnectionsOk, Distinct, AtMostOne, NoOrphans, Step, Shared;
    var v := Step(s, CloseClient(id, seen));
    CloseDaemons(s, id, seen);
    if !Running(s, id) {
      RepeatedClose(s, id, seen);
    } else if CloseRaises(s, id, seen) {
      FailedCloseIsRetryable(s, id, seen);
      SameClientsLiveOn(s, v);
      DwindledLoose(s, v);
    } else {
      FinishedClose(s, id, seen);
      forall p <- v.world.daemons | v.world.daemons[p].dir == s.clients[id].dbdir ensures Shared(s, id) {
        SurvivorIsShared(s, id, seen, p);
      }
      HomeOfRegistry(s.world, s.clients[id]) by { ClientsAreOk(s, id); }
      if s.clients[id].registry.None? {
        IsolatedTakesAll(s, id, seen);
      }
      LeftLoose(s, v, id);
    }
  }

  // ---- Opening ----

  /** A client joined the daemon `p` of its directory, perhaps a new one. */
  ghost predicate JoinedLoosely(s: System, v: System, id: ClientId, p: nat) {
    && !Running(s, id) && Running(v, id) && p in v.world.daemons && v.world.daemons[p].dir == v.clients[id].dbdir
    && (forall i, d :: LivesIn(v, i, d) <==> LivesIn(s, i, d) || (i == id && d == v.clients[id].dbdir))
    && (forall q <- v.world.daemons :: q != p ==> q in s.world.daemons && v.world.daemons[q] == s.world.daemons[q])
    && (p in s.world.daemons ==> s.world.daemons[p].dir == v.world.daemons[p].dir)
    && (forall i: ClientId :: i != id ==>
          v.world.daemons[p].conns[i] <= if p in s.world.daemons then s.world.daemons[p].conns[i] else 0)
    && v.world.daemons[p].conns[id] <= 1
    && (forall d <- v.world.dirs :: d.Private? ==> d in s.world.dirs || d == v.clients[id].dbdir)
  }

  lemma JoinLoose(s: System, v: System, id: ClientId, p: nat)
    requires Loose(s) && JoinedLoosely(s, v, id, p)
    ensures Loose(v)
  {
    hide Inhabited;
    forall q <- v.world.daemons, i: ClientId
      ensures v.world.daemons[q].conns[i] <= if LivesIn(v, i, v.world.daemons[q].dir) then 1 else 0
    {
      if q in s.world.daemons {
        Connected(s, q, i);
      }
    }
    LivesHere(v, id, v.clients[id].dbdir);
    forall d | Inhabited(s, d) ensures Inhabited(v, d) {
      var i := Dweller(s, d);
      LivesHere(v, i, d);
    }
  }

  lemma OpenLoose(s: System, id: ClientId, target: Option<Dir>, seen: OpenSeen)
    requires Inv(s) && Loose(s) && Enabled(s, OpenClient(id, target, seen)) && !Leaks(s.world, target, seen)
    ensures Loose(Step(s, OpenClient(id, target, seen)))
  {
    hide WorldInv, ClientOk, MayStart, AttachOrStart, Prepare, Touch, ConnectionsOk, Started, CleanedUp,
      AtMostOne, NoOrphans, OwnSocket, UndoStops, StopsAfterStart, Stuck;
    var w := s.world;
    var r := Prepare(w, target, seen.fault);
    var t := Step(s, OpenClient(id, target, seen));
    if r.client.None? {
      PrepareFails(w, target, seen);
      SameClientsLiveOn(s, t);
      DwindledLoose(s, t);
      return;
    }
    PreparedOk(w, id, target, seen.fault);
    var c, v := r.client.value, r.world.(hooks := r.world.hooks + {id});
    AttachOrStartOutcome(v, id, c, seen);
    UndoStopsIff(w, target, seen);
    var o := AttachOrStart(v, id, c, seen);
    if o.client.None? {
      SameClientsLiveOn(s, t);
      if PidOf(w, c.dbdir) == 0 {
        UndoneIdle(v, o.world, id, c);
      }
      DwindledLoose(s, t);
    } else if PidOf(w, c.dbdir) == 0 {
      PidFacts(w, None);
      StartedJoinsLoosely(s, t, v, id, c);
      JoinLoose(s, t, id, w.nextPid);
    } else {
      PidOfDaemon(w, c.dbdir);
      DaemonIsPid(w, PidOf(w, c.dbdir));
      AttachedJoinsLoosely(s, t, v, id, c, PidOf(w, c.dbdir));
      JoinLoose(s, t, id, PidOf(w, c.dbdir));
    }
  }

  lemma JoinerLives(s: System, t: System, id: ClientId, c: Client)
    requires id !in s.clients && t.clients == s.clients[id := c] && c.running
    ensures forall i, d :: LivesIn(t, i, d) <==> LivesIn(s, i, d) || (i == id && d == c.dbdir)
  {
  }

  lemma StartedJoinsLoosely(s: System, t: System, v: World, id: ClientId, c: Client)
    requires t.world == Started(v, id, c) && t.clients == s.clients[id := c.(running := true, conf := Some(c.dbdir))]
    requires v == s.world.(dirs := v.dirs, nextTemp := v.nextTemp, hooks := v.hooks)
    requires Unknown(s, id) && v.nextPid !in v.daemons
    requires forall d <- v.dirs :: d.Private? ==> d in s.world.dirs || PrivateDir(c) == {d}
    ensures JoinedLoosely(s, t, id, v.nextPid)
  {
    JoinerLives(s, t, id, t.clients[id]);
    forall d <- t.world.dirs | d.Private? ensures d in s.world.dirs || d == c.dbdir {
      assert PrivateDir(c) == {d} ==> d in PrivateDir(c);
    }
  }

  lemma AttachedJoinsLoosely(s: System, t: System, v: World, id: ClientId, c: Client, p: nat)
    requires Unknown(s, id) && v == s.world.(dirs := v.dirs, nextTemp := v.nextTemp, hooks := v.hooks)
    requires p in v.daemons && v.daemons[p].dir == c.dbdir && Reach(v, v.daemons[p].sock) == p && p != 0
    requires c.registry.Some? && c.sockDir != Some(v.daemons[p].sock)
    requires forall d <- v.dirs :: d.Private? ==> d in s.world.dirs || PrivateDir(c) == {d}
    requires t.world == Touch(RmTreeOpt(v, c.sockDir), id, v.daemons[p].sock)
    requires t.clients == s.clients[id := c.(running := true, socket := v.daemons[p].sock, sockDir := None)]
    ensures JoinedLoosely(s, t, id, p)
  {
    AttachTouch(v, c, id, p);
    hide Touch;
    JoinerLives(s, t, id, t.clients[id]);
    assert s.world.daemons[p].conns[id] == 0;
  }

  // ---- Whole runs ----

  lemma StepLoose(s: System, e: Event)
    requires Inv(s) && Loose(s) && Enabled(s, e) && Decent(s, e)
    ensures Loose(Step(s, e))
  {
    match e {
      case OpenClient(id, target, seen) =>
        hide Inv, Loose, Step;
        OpenLoose(s, id, target, seen);
      case CloseClient(id, seen) =>
        hide Inv, Loose, Step;
        CloseLoose(s, id, seen);
      case _ =>
        hide Inv, Loose, Step;
        OutsideLoose(s, e);
    }
  }

  lemma {:induction false} RunLoose(s: System, es: seq<Event>)
    requires Inv(s) && Loose(s) && EnabledRun(s, es) && DecentRun(s, es)
    ensures Inv(Run(s, es)) && Loose(Run(s, es))
    decreases |es|
  {
    hide Inv, Loose, Step, Decent;
    if es == [] {
    } else {
      StepInv(s, es[0]);
      StepLoose(s, es[0]);
      RunLoose(Step(s, es[0]), es[1..]);
    }
  }

  /** No daemon, no process, no hook and no private directory. */
  ghost predicate Bare(s: System) {
    s.world.daemons == map[] && s.world.live == {} && s.world.hooks == {} && forall d <- s.world.dirs :: !d.Private?
  }

  /** A decent step leaves no hook without a client. */
  lemma {:induction false} NoStrays(s: System, es: seq<Event>)
    requires EnabledRun(s, es) && DecentRun(s, es)
    ensures RunAbandons(s, es) == {}
    decreases |es|
  {
    hide Step, UndoStops;
    if es == [] {
    } else {
      NoStrays(Step(s, es[0]), es[1..]);
    }
  }

  lemma DecentHooks(s: System, es: seq<Event>)
    requires Initial(s) && EnabledRun(s, es) && DecentRun(s, es)
    ensures Strays(Run(s, es)) == {}
  {
    InitialInv(s);
    hide WorldInv;
    RunStrays(s, es);
    NoStrays(s, es);
  }

  lemma OnlyRunnersHooks(s: System)
    requires Inv(s) && Strays(s) == {}
    ensures s.world.hooks == RunningIds(s)
  {
    assert s.world.hooks == RunningIds(s) + Strays(s);
  }

  /** What a decent run from a fresh machine leads to. */
  lemma DecentRunHolds(s: System, es: seq<Event>)
    requires Initial(s) && (forall x <- s.world.dirs :: !x.Private?) && EnabledRun(s, es) && DecentRun(s, es)
    ensures var t := Run(s, es); Inv(t) && Loose(t) && Strays(t) == {} && t.world.hooks == RunningIds(t)
  {
    InitialInv(s);
    InitialLoose(s);
    DecentHooks(s, es);
    hide Inv, Loose, Initial, RunningIds, Strays;
    RunLoose(s, es);
    OnlyRunnersHooks(Run(s, es));
  }

  lemma NobodyLeft(s: System)
    requires Inv(s) && Loose(s) && RunningIds(s) == {} && Strays(s) == {}
    ensures Bare(s)
  {
    PidFacts(s.world, None);
    hide WorldInv, AtMostOne;
    assert forall i :: Running(s, i) ==> i in RunningIds(s);
    assert s.world.daemons.Keys == {};
  }

  /** The invariant of every decent run from a fresh machine: hooks are those of running clients,
      each daemon and each private directory has a running client, and each client holds at most one
      connection, to its own daemon. */
  lemma EveryDecentRun(s: System, es: seq<Event>, p: nat, d: Dir, id: ClientId)
    requires Initial(s) && (forall x <- s.world.dirs :: !x.Private?) && EnabledRun(s, es) && DecentRun(s, es)
    ensures var t := Run(s, es);
            && t.world.hooks == RunningIds(t)
            && (p in t.world.daemons ==> Inhabited(t, t.world.daemons[p].dir))
            && (d in t.world.dirs && d.Private? ==> Inhabited(t, d))
            && (p in t.world.daemons && id in t.world.daemons[p].conns ==>
                  LivesIn(t, id, t.world.daemons[p].dir) && t.world.daemons[p].conns[id] == 1)
  {
    hide Inv, Run, RunningIds, Initial;
    DecentRunHolds(s, es);
  }

  /** Conservation: when every client that a decent run opened has closed, whatever raised, crashed or was
      refused on the way, no daemon, hook or private directory is left. */
  lemma NothingLeft(s: System, es: seq<Event>)
    requires Initial(s) && (forall d <- s.world.dirs :: !d.Private?) && EnabledRun(s, es) && DecentRun(s, es)
    requires RunningIds(Run(s, es)) == {}
    ensures Bare(Run(s, es))
  {
    hide Inv, Loose, Bare, RunningIds, Strays, Initial;
    DecentRunHolds(s, es);
    NobodyLeft(Run(s, es));
  }

  // ---- Database files ----

  lemma OpenKeepsRdbs(s: System, id: ClientId, target: Option<Dir>, seen: OpenSeen, d: Dir)
    requires Inv(s) && Enabled(s, OpenClient(id, target, seen)) && d.User? && d in s.world.rdb
    ensures d in Step(s, OpenClient(id, target, seen)).world.rdb
  {
    hide WorldInv, ClientOk, MayStart, AttachOrStart, Prepare, Touch, ConnectionsOk, CleanedUp, OwnSocket, Stuck;
    var w := s.world;
    var r := Prepare(w, target, seen.fault);
    PrepareKeeps(w, target, seen.fault);
    if r.client.Some? {
      PreparedOk(w, id, target, seen.fault);
      var c, v := r.client.value, r.world.(hooks := r.world.hooks + {id});
      HomeOfRegistry(v, c);
      AttachOrStartOutcome(v, id, c, seen);
      var o := AttachOrStart(v, id, c, seen);
      if PidOf(w, c.dbdir) != 0 {
        if o.client.Some? {
          TouchShape(RmTreeOpt(v, c.sockDir), id, v.daemons[PidOf(v, c.dbdir)].sock);
        }
      } else if o.client.None? && StopsAfterStart(c.registry, seen) {
        PidFacts(v, None);
        StuckFields(v, c, seen);
      } else if o.client.None? {
        UndoneRdbs(v, o.world, id, c, d);
      }
    }
  }

  lemma UndoneRdbs(w: World, v: World, id: ClientId, c: Client, d: Dir)
    requires Undone(w, v, id, c) && d in w.rdb && (c.registry.None? ==> d != c.dbdir)
    ensures d in v.rdb
  {
    var u :| Nearly(w, u, c) && v == CleanedUp(u, id, c);
  }

  lemma CloseKeepsRdbs(s: System, id: ClientId, seen: CloseSeen, d: Dir)
    requires Inv(s) && id in s.clients && d.User? && d in s.world.rdb
    ensures d in Step(s, CloseClient(id, seen)).world.rdb
  {
    hide WorldInv, ConnectionsOk, Distinct, ClientOk, StopServer, Interrupted, Touch, Disconnect;
    var w, c := s.world, s.clients[id];
    DisconnectKeepsRdbs(w, id);
    if c.running {
      var w1 := if c.registry.Some? then Touch(w, id, c.socket) else w;
      ClientsAreOk(s, id);
      TouchShape(w, id, c.socket);
      ShapeKeeps(w, w1, None);
      StopKeepsRdbs(w1, c, seen, d);
      var u := StopServer(w1, c, seen);
      DisconnectKeepsRdbs(w1, id);
      DisconnectKeepsRdbs(Interrupted(w1, c, seen), id);
      DisconnectKeepsRdbs(u.(hooks := u.hooks - {id}), id);
      DisconnectKeepsRdbs(w1.(hooks := w1.hooks - {id}), id);
    }
  }

  lemma DisconnectKeepsRdbs(w: World, id: ClientId)
    ensures Disconnect(w, id).rdb == w.rdb
  {
  }

  lemma StopKeepsRdbs(w: World, c: Client, seen: CloseSeen, d: Dir)
    requires WorldInv(w, None) && ClientOk(w, c) && d.User? && d in w.rdb
    ensures d in StopServer(w, c, seen).rdb && d in Interrupted(w, c, seen).rdb
  {
    StopIsDown(w, c, seen);
    InterruptedIs(w, c, seen);
    RemovedRdbs(Stopped(w, c, seen), c, d);
    hide RemoveFiles, StopServer, Interrupted, WorldInv;
  }

  lemma RemovedRdbs(u: World, c: Client, d: Dir)
    requires d in u.rdb && d.User? && (c.registry.None? ==> d != c.dbdir)
    requires (c.sockDir.Some? ==> c.sockDir.value.SockTemp?)
    ensures d in RemoveFiles(u, c).rdb
  {
  }

  /** No step of any run removes a user's database file. */
  lemma {:induction false} DatabasesRemain(s: System, es: seq<Event>, d: Dir)
    requires Inv(s) && EnabledRun(s, es) && d.User? && d in s.world.rdb
    ensures d in Run(s, es).world.rdb
    decreases |es|
  {
    hide Inv;
    if es == [] {
    } else {
      match es[0] {
        case OpenClient(id, target, seen) => OpenKeepsRdbs(s, id, target, seen, d);
        case CloseClient(id, seen) => CloseKeepsRdbs(s, id, seen, d);
        case _ => OutsideKeepsRdbs(s, es[0], d);
      }
      hide Step;
      StepInv(s, es[0]);
      DatabasesRemain(Step(s, es[0]), es[1..], d);
    }
  }

  lemma OutsideKeepsRdbs(s: System, e: Event, d: Dir)
    requires Enabled(s, e) && !e.OpenClient? && !e.CloseClient? && d in s.world.rdb
    ensures d in Step(s, e).world.rdb
  {
  }

  // ---- Process exit ----

  /** Each close of the sequence loses no data. */
  predicate AllKeep(s: System, cs: seq<Closing>)
    requires AllFinish(s, cs)
    decreases |cs|
  {
    cs == [] || (CloseKeeps(s, cs[0].0, cs[0].1) && AllKeep(Step(s, CloseClient(cs[0].0, cs[0].1)), cs[1..]))
  }

  lemma {:induction false} CloseAllLoose(s: System, cs: seq<Closing>)
    requires Inv(s) && Loose(s) && AllFinish(s, cs)
    ensures Inv(CloseAll(s, cs)) && Loose(CloseAll(s, cs))
    ensures RunningIds(CloseAll(s, cs)) == RunningIds(s) - Closers(cs) && Strays(CloseAll(s, cs)) == Strays(s)
    ensures forall d: Dir :: d.User? && d in s.world.rdb ==> d in CloseAll(s, cs).world.rdb
    decreases |cs|
  {
    hide Inv, Loose, Step, CloseRaises, Strays;
    if cs == [] {
      assert Closers(cs) == {};
    } else {
      var id, seen := cs[0].0, cs[0].1;
      var t := Step(s, CloseClient(id, seen));
      StepInv(s, CloseClient(id, seen));
      CloseStrays(s, id, seen);
      CloseLoose(s, id, seen);
      CloseAllLoose(t, cs[1..]);
      if Running(s, id) {
        FinishedClose(s, id, seen);
      } else {
        RepeatedClose(s, id, seen);
      }
      assert cs == [cs[0]] + cs[1..];
      assert Closers(cs) == {id} + Closers(cs[1..]);
      forall d: Dir | d.User? && d in s.world.rdb ensures d in t.world.rdb {
        CloseKeepsRdbs(s, id, seen, d);
      }
    }
  }

  lemma {:induction false} CloseAllContents(s: System, cs: seq<Closing>, d: Dir)
    requires Inv(s) && AllFinish(s, cs) && AllKeep(s, cs) && d.User?
    ensures Contents(CloseAll(s, cs).world, d) == Contents(s.world, d)
    decreases |cs|
  {
    hide Inv, Step, CloseRaises, CloseKeeps, Contents;
    if cs == [] {
    } else {
      var id, seen := cs[0].0, cs[0].1;
      StepInv(s, CloseClient(id, seen));
      CloseSlot(s, id, seen, Slot.Shared(d));
      CloseAllContents(Step(s, CloseClient(id, seen)), cs[1..], d);
    }
  }

  /** Any closes of known clients, raising or not. */
  predicate AllKnown(s: System, cs: seq<Closing>) {
    forall c <- cs :: c.0 in s.clients
  }

  function CloseEach(s: System, cs: seq<Closing>): System
    requires AllKnown(s, cs)
    decreases |cs|
  {
    if cs == [] then s else
    var t := Step(s, CloseClient(cs[0].0, cs[0].1));
    assert t.clients.Keys == s.clients.Keys;
    CloseEach(t, cs[1..])
  }

  /** Every close of this client raises. */
  predicate RaisesThroughout(s: System, cs: seq<Closing>, id: ClientId)
    requires AllKnown(s, cs)
    decreases |cs|
  {
    if cs == [] then true else
    var t := Step(s, CloseClient(cs[0].0, cs[0].1));
    assert t.clients.Keys == s.clients.Keys;
    (cs[0].0 == id ==> CloseRaises(s, id, cs[0].1)) && RaisesThroughout(t, cs[1..], id)
  }

  lemma {:induction false} CloseEachLoose(s: System, cs: seq<Closing>)
    requires Inv(s) && Loose(s) && AllKnown(s, cs)
    ensures var v := CloseEach(s, cs);
            && Inv(v) && Loose(v) && Strays(v) == Strays(s)
            && RunningIds(v) <= RunningIds(s) && (forall id <- RunningIds(v) :: RaisesThroughout(s, cs, id))
            && (forall id <- RunningIds(s) :: RaisesThroughout(s, cs, id) ==> id in RunningIds(v))
    decreases |cs|
  {
    hide Inv, Loose, Step, CloseRaises, Strays, RunningIds;
    if cs == [] {
    } else {
      var id, seen := cs[0].0, cs[0].1;
      var t := Step(s, CloseClient(id, seen));
      StepInv(s, CloseClient(id, seen));
      CloseStrays(s, id, seen);
      CloseLoose(s, id, seen);
      CloseRuns(s, id, seen);
      CloseEachLoose(t, cs[1..]);
      RunnersRaise(s, id, seen);
    }
  }

  lemma RunnersRaise(s: System, id: ClientId, seen: CloseSeen)
    requires id in s.clients
    ensures CloseRaises(s, id, seen) ==> id in RunningIds(s)
  {
  }

  lemma RunningIsListed(s: System, id: ClientId)
    ensures Running(s, id) <==> id in RunningIds(s)
  {
  }

  lemma LooseMeans(s: System, p: nat, d: Dir)
    requires Loose(s)
    ensures p in s.world.daemons ==> Inhabited(s, s.world.daemons[p].dir)
    ensures d in s.world.dirs && d.Private? ==> Inhabited(s, d)
  {
  }

  /** Process exit with exit hooks that may raise: exactly the clients none of whose closes ended without
      raising still run, and whatever is left, a hook, a daemon or a private directory, is theirs. */
  lemma LeftAtExit(s: System, es: seq<Event>, cs: seq<Closing>, p: nat, d: Dir)
    requires Initial(s) && (forall x <- s.world.dirs :: !x.Private?) && EnabledRun(s, es) && DecentRun(s, es)
    requires AllKnown(Run(s, es), cs)
    ensures var t := Run(s, es);
            var v := CloseEach(t, cs);
            && v.world.hooks == RunningIds(v)
            && (forall id :: Running(v, id) <==> Running(t, id) && RaisesThroughout(t, cs, id))
            && (p in v.world.daemons ==> Inhabited(v, v.world.daemons[p].dir))
            && (d in v.world.dirs && d.Private? ==> Inhabited(v, d))
  {
    hide Inv, Loose, Run, RunningIds, Strays, Initial, CloseEach, RaisesThroughout, Inhabited, AllKnown;
    DecentRunHolds(s, es);
    var t := Run(s, es);
    CloseEachLoose(t, cs);
    var v := CloseEach(t, cs);
    OnlyRunnersHooks(v);
    forall id ensures (Running(v, id) <==> id in RunningIds(v)) && (Running(t, id) <==> id in RunningIds(t)) {
      RunningIsListed(v, id);
      RunningIsListed(t, id);
    }
    LooseMeans(v, p, d);
  }

  /** Process exit, after any decent run: the exit hooks close every client that still runs, in whatever
      order and with whatever repetitions. If none of these closes raises, no daemon, hook or private
      directory is left, whether or not SHUTDOWN was accepted, and no user's database file is gone; if none
      loses data, every database holds what it held in memory. */
  lemma NothingLeftAtExit(s: System, es: seq<Event>, cs: seq<Closing>)
    requires Initial(s) && (forall d <- s.world.dirs :: !d.Private?) && EnabledRun(s, es) && DecentRun(s, es)
    requires var t := Run(s, es); AllFinish(t, cs) && t.world.hooks <= Closers(cs)
    ensures var t := Run(s, es);
            var v := CloseAll(t, cs);
            && Bare(v)
            && (forall d: Dir :: d.User? && d in s.world.rdb ==> d in v.world.rdb)
            && (AllKeep(t, cs) ==> forall d: Dir :: d.User? ==> OnDisk(v.world, d) == Contents(t.world, d))
  {
    InitialInv(s);
    hide WorldInv, ClientOk, ConnectionsOk, Loose, Contents, CloseAll, AllFinish, AllKeep, Closers;
    DecentRunHolds(s, es);
    var t := Run(s, es);
    forall d: Dir | d.User? && d in s.world.rdb ensures d in t.world.rdb {
      DatabasesRemain(s, es, d);
    }
    CloseAllLoose(t, cs);
    var v := CloseAll(t, cs);
    assert RunningIds(t) == t.world.hooks;
    assert RunningIds(v) == {};
    NobodyLeft(v);
    if AllKeep(t, cs) {
      forall d: Dir | d.User? ensures OnDisk(v.world, d) == Contents(t.world, d) {
        CloseAllContents(t, cs, d);
        ContentsOfDisk(v.world, d);
      }
    }
  }
}
