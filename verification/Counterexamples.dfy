/** Runs in which the package does not do what its documentation promises, each from an empty machine. */
module Counterexamples {
  import opened Wrappers
  import opened Processes
  import opened HostWorld
  import opened Lifecycle
  import opened Discipline
  import opened Guarantees
  import opened Refinement

  /** An empty machine with mkdtemp paths of this length. */
  function Empty(tempLen: nat): System {
    System(World({}, map[], map[], map[], {}, map[], {}, [], map[], {}, 1, 0, tempLen), map[])
  }

  lemma EmptyIsInitial(tempLen: nat)
    ensures Initial(Empty(tempLen)) && Inv(Empty(tempLen))
  {
  }

  const SMOOTH := OpenSeen(NoFault, true, true, false, Quiet)
  const POLITE := CloseSeen(false, true, false, Quiet)

  /** SHUTDOWN is refused, for instance because the RDB cannot be written, and the daemon has to be killed. */
  const STUBBORN := CloseSeen(false, false, false, ByKill)

  const HOME := User("/d")

  /** A directory whose socket path would be too long. */
  const FAR := User(seq(100, _ => 'd'))

  // ---- Building runs ----

  lemma {:induction false} OneMore(s: System, es: seq<Event>, e: Event)
    requires EnabledRun(s, es) && Enabled(Run(s, es), e)
    ensures EnabledRun(s, es + [e]) && Run(s, es + [e]) == Step(Run(s, es), e)
    decreases |es|
  {
    hide Step, Enabled;
    if es == [] {
      assert es + [e] == [e] && [e][1..] == [];
    } else {
      assert (es + [e])[1..] == es[1..] + [e];
      OneMore(Step(s, es[0]), es[1..], e);
    }
  }

  /** A client that opened a database without a daemon: where its socket went, and its fields. */
  function Opener(w: World, d: Dir): (World, Client) {
    var (v, sock, sockDir) := PrepareSocket(w.(dirs := w.dirs + {d}), d);
    (v, Client(true, Some(d), d, d, sock, sockDir, Some(d)))
  }

  /** An open in which nothing fails, where no daemon serves. */
  lemma SmoothOpen(s: System, id: ClientId, d: Dir)
    requires Inv(s) && Unknown(s, id) && d.User? && PidOf(s.world, d) == 0
    ensures var (v, c) := Opener(s.world, d);
            Step(s, OpenClient(id, Some(d), SMOOTH))
            == System(Started(v.(hooks := v.hooks + {id}), id, c), s.clients[id := c])
  {
    var (v, c) := Opener(s.world, d);
    var c0 := c.(running := false, conf := None);
    var v1 := v.(hooks := v.hooks + {id});
    assert Prepare(s.world, Some(d), NoFault) == Opened(v, Some(c0));
    LoadOutcome(s.world, d);
    assert Load(v1, d) == Load(s.world, d);
    WorldOfInv(s);
    SmoothStart(v1, id, c0, SMOOTH);
    hide Inv, StartAndConnect, PrepareSocket, Prepare, Load;
    assert Started(v1, id, c0) == Started(v1, id, c);
  }

  /** Its first lines: one more daemon, one more running client. */
  lemma SmoothOpenFacts(s: System, id: ClientId, d: Dir)
    requires Inv(s) && Unknown(s, id) && d.User? && PidOf(s.world, d) == 0
    ensures Enabled(s, OpenClient(id, Some(d), SMOOTH))
    ensures var t := Step(s, OpenClient(id, Some(d), SMOOTH));
            var sock := if Overflows(d, s.world.tempLen) then SockTemp(s.world.nextTemp) else d;
            && Inv(t)
            && t.world.daemons == s.world.daemons[s.world.nextPid := Daemon(d, sock, OnDisk(s.world, d), multiset{id})]
            && t.world.nextPid == s.world.nextPid + 1 && t.world.rdb == s.world.rdb
            && t.world.tempLen == s.world.tempLen
            && t.world.nextTemp == s.world.nextTemp + (if Overflows(d, s.world.tempLen) then 1 else 0)
            && t.clients.Keys == s.clients.Keys + {id}
            && (forall i <- s.clients :: i != id ==> t.clients[i] == s.clients[i])
            && Running(t, id) && t.clients[id].registry == Some(d) && t.clients[id].dbdir == d
            && t.clients[id].socket == sock
            && t.world.hooks == s.world.hooks + {id}
  {
    hide Inv, Step, Opener, Started, Overflows, Enabled, Unknown, PidOf;
    var (v, c) := Opener(s.world, d);
    SmoothIsEnabled(s, id, d);
    SmoothOpen(s, id, d);
    OpenerFields(s.world, d);
    StartedFields(v.(hooks := v.hooks + {id}), id, c);
    StepInv(s, OpenClient(id, Some(d), SMOOTH));
    NewToUnknown(s, id);
  }

  lemma SmoothIsEnabled(s: System, id: ClientId, d: Dir)
    requires Unknown(s, id) && d.User?
    ensures Enabled(s, OpenClient(id, Some(d), SMOOTH))
  {
  }

  lemma NewToUnknown(s: System, id: ClientId)
    requires Unknown(s, id)
    ensures id !in s.clients
  {
  }

  lemma OpenerFields(w: World, d: Dir)
    ensures var (v, c) := Opener(w, d);
            && v == w.(dirs := v.dirs, nextTemp := v.nextTemp)
            && v.nextTemp == w.nextTemp + (if Overflows(d, w.tempLen) then 1 else 0)
            && c.running && c.registry == Some(d) && c.dbdir == d
            && c.socket == if Overflows(d, w.tempLen) then SockTemp(w.nextTemp) else d
  {
  }

  lemma StartedFields(w: World, id: ClientId, c: Client)
    ensures var t := Started(w, id, c);
            && t.daemons == w.daemons[w.nextPid := Daemon(c.dbdir, c.socket, OnDisk(w, c.dbdir), multiset{id})]
            && t.nextPid == w.nextPid + 1 && t.rdb == w.rdb && t.tempLen == w.tempLen && t.nextTemp == w.nextTemp
            && t.hooks == w.hooks
  {
  }

  /** The state after the first open of the empty machine. */
  ghost predicate OpenedFirst(s: System, tempLen: nat, d: Dir) {
    var sock := if Overflows(d, tempLen) then SockTemp(0) else d;
    && Inv(s) && s.world.tempLen == tempLen && s.world.rdb == map[] && s.world.hooks == {0} && s.world.nextPid == 2
    && s.world.daemons == map[1 := Daemon(d, sock, map[], multiset{0})]
    && s.world.nextTemp == (if Overflows(d, tempLen) then 1 else 0)
    && s.clients.Keys == {0} && Running(s, 0) && s.clients[0].registry == Some(d) && s.clients[0].dbdir == d
    && s.clients[0].socket == sock
  }

  lemma FirstState(tempLen: nat, d: Dir)
    requires d.User?
    ensures var e := OpenClient(0, Some(d), SMOOTH);
            Enabled(Empty(tempLen), e) && OpenedFirst(Step(Empty(tempLen), e), tempLen, d)
  {
    hide Inv, Initial, Overflows, Step;
    EmptyIsInitial(tempLen);
    SmoothOpenFacts(Empty(tempLen), 0, d);
  }

  /** The first open of the empty machine. */
  lemma FirstOpen(tempLen: nat, d: Dir) returns (s: System, es: seq<Event>)
    requires d.User?
    ensures EnabledRun(Empty(tempLen), es) && Run(Empty(tempLen), es) == s
    ensures OpenedFirst(s, tempLen, d) && Reach(s.world, s.clients[0].socket) == 1
  {
    hide Inv, Overflows, Step, Enabled;
    var e := OpenClient(0, Some(d), SMOOTH);
    FirstState(tempLen, d);
    s := Step(Empty(tempLen), e);
    es := [] + [e];
    assert Run(Empty(tempLen), []) == Empty(tempLen);
    OneMore(Empty(tempLen), [], e);
    DaemonAnswers(s, 1);
  }

  lemma DaemonAnswers(s: System, p: nat)
    requires Inv(s) && p in s.world.daemons
    ensures Reach(s.world, s.world.daemons[p].sock) == p && PidOf(s.world, s.world.daemons[p].dir) == p
  {
    DaemonIsPid(s.world, p);
  }

  // ---- The count misleads ----

  /** A lone client that holds a second connection does not stop its server when it closes: the daemon
      and its registry outlive every client. */
  lemma TwoConnectionsOrphanTheServer() returns (es: seq<Event>)
    ensures Initial(Empty(29)) && EnabledRun(Empty(29), es)
    ensures var t := Run(Empty(29), es);
            1 in t.world.daemons && RunningIds(t) == {} && t.world.hooks == {}
  {
    hide Inv, Initial, Close;
    EmptyIsInitial(29);
    var s, es0 := FirstOpen(29, HOME);
    var e1, e2 := MoreConnections(0), CloseClient(0, POLITE);
    var s1 := Step(s, e1);
    StepInv(s, e1);
    CountOnlyRaises(s1, 0, POLITE);
    ElectionRule(s1, 0, POLITE, 1);
    LoneClose(s1, POLITE);
    OneMore(Empty(29), es0, e1);
    OneMore(Empty(29), es0 + [e1], e2);
    es := es0 + [e1] + [e2];
  }

  lemma CountOnlyRaises(s: System, id: ClientId, seen: CloseSeen)
    requires id in s.clients && !seen.countRaises && !seen.cleanupRaises
    ensures !CloseRaises(s, id, seen)
  {
  }

  lemma LoneClose(s: System, seen: CloseSeen)
    requires Inv(s) && Running(s, 0) && s.clients.Keys == {0} && s.world.hooks == {0} && !CloseRaises(s, 0, seen)
    ensures var t := Step(s, CloseClient(0, seen)); RunningIds(t) == {} && t.world.hooks == {}
  {
    hide WorldInv, StopServer, Interrupted;
    CloseHooks(s, 0, seen);
    CloseRuns(s, 0, seen);
  }

  /** A second client attaches to the first one's server. */
  lemma SecondOpen(s: System, p: nat)
    requires Inv(s) && Unknown(s, 1) && Running(s, 0) && s.clients[0].registry == Some(HOME) && s.world.tempLen == 29
    requires s.world.daemons == map[p := Daemon(HOME, HOME, map[], multiset{0})] && s.clients[0].socket == HOME
    ensures var t := Step(s, OpenClient(1, Some(HOME), SMOOTH));
            && Inv(t) && t.world.daemons == map[p := Daemon(HOME, HOME, map[], multiset{0, 1})]
            && t.clients.Keys == s.clients.Keys + {1} && t.clients[0] == s.clients[0]
            && Running(t, 1) && t.clients[1].registry == Some(HOME) && t.clients[1].dbdir == HOME
            && t.clients[1].socket == HOME
  {
    hide WorldInv, ClientOk, MayStart, AttachOrStart, Prepare, ConnectionsOk, CleanedUp, OwnSocket, Undone, Touch;
    var e := OpenClient(1, Some(HOME), SMOOTH);
    var w := s.world;
    var r := Prepare(w, Some(HOME), NoFault);
    DaemonIsPid(w, p);
    StepInv(s, e);
    SmoothAttach(s, 1, Some(HOME), SMOOTH);
    PrepareSucceeds(w, Some(HOME));
    PreparedOk(w, 1, Some(HOME), NoFault);
    PreparedInPlace(w);
    var c, v := r.client.value, r.world.(hooks := r.world.hooks + {1});
    AttachOrStartOutcome(v, 1, c, SMOOTH);
    AttachTouch(v, c, 1, p);
    assert multiset{0} + multiset{1} == multiset{0, 1};
  }

  lemma PreparedInPlace(w: World)
    requires w.tempLen == 29
    ensures Prepare(w, Some(HOME), NoFault) == Opened(w.(dirs := w.dirs + {HOME}),
              Some(Client(false, Some(HOME), HOME, HOME, HOME, None, None)))
  {
  }

  /** CLIENT LIST fails while the first of two clients closes; it still runs. Then the second closes, counts
      nobody else, and takes the server away from the first. */
  lemma FailedCountTakesTheServerAway() returns (es: seq<Event>)
    ensures Initial(Empty(29)) && EnabledRun(Empty(29), es)
    ensures var t := Run(Empty(29), es);
            Running(t, 0) && !Running(t, 1) && t.clients[0].dbdir == HOME && t.world.daemons == map[]
  {
    hide Inv, Initial, Close, Open;
    EmptyIsInitial(29);
    var s, es0 := FirstOpen(29, HOME);
    assert !Overflows(HOME, 29);
    var failing := CloseSeen(true, true, false, Quiet);
    var e1, e2, e3 := OpenClient(1, Some(HOME), SMOOTH), CloseClient(0, failing), CloseClient(1, POLITE);
    SecondOpen(s, 1);
    var s1 := Step(s, e1);
    var s2 := Step(s1, e2);
    CountRaised(s1, 0, failing);
    FailedCloseIsRetryable(s1, 0, failing);
    CountOnlyRaises(s2, 1, POLITE);
    FailedCloseLosesTheServer(s1, 0, failing, 1, POLITE, 1);
    CloseDaemons(s1, 0, failing);
    StepInv(s1, e2);
    CloseDaemons(s2, 1, POLITE);
    OnlyOneLeaves(s2, 1, POLITE, 0);
    OneMore(Empty(29), es0, e1);
    OneMore(Empty(29), es0 + [e1], e2);
    OneMore(Empty(29), es0 + [e1] + [e2], e3);
    es := es0 + [e1] + [e2] + [e3];
    assert Step(s2, e3).world.daemons.Keys == {};
  }

  /** A socket directory outlives its server in a client's field. After a crash the database is opened
      again, with its socket in another short directory; then the first client closes, reaches nothing,
      counts nobody, and takes the server away from the second, which still runs. */
  lemma RelocatedSocketStrandsAClient() returns (es: seq<Event>)
    ensures Initial(Empty(29)) && EnabledRun(Empty(29), es)
    ensures var t := Run(Empty(29), es);
            !Running(t, 0) && Running(t, 1) && t.clients[1].dbdir == FAR && t.world.daemons == map[]
  {
    hide Inv, Initial, Close, Overflows;
    EmptyIsInitial(29);
    FarOverflows(29);
    var s, es0 := FirstOpen(29, FAR);
    var e1, e2, e3 := DaemonCrash(1), OpenClient(1, Some(FAR), SMOOTH), CloseClient(0, POLITE);
    var s1 := Step(s, e1);
    StepInv(s, e1);
    assert s1.world.daemons == map[];
    NobodyServes(s1, FAR);
    SmoothOpenFacts(s1, 1, FAR);
    var s2 := Step(s1, e2);
    assert s2.world.daemons == map[2 := Daemon(FAR, SockTemp(1), map[], multiset{1})];
    CountOnlyRaises(s2, 0, POLITE);
    ElectionRule(s2, 0, POLITE, 2);
    CloseDaemons(s2, 0, POLITE);
    OnlyOneLeaves(s2, 0, POLITE, 1);
    OneMore(Empty(29), es0, e1);
    OneMore(Empty(29), es0 + [e1], e2);
    OneMore(Empty(29), es0 + [e1] + [e2], e3);
    es := es0 + [e1] + [e2] + [e3];
    assert Step(s2, e3).world.daemons.Keys == {};
  }

  lemma FarOverflows(tempLen: nat)
    ensures Overflows(FAR, tempLen)
  {
  }

  lemma NobodyServes(s: System, d: Dir)
    requires Inv(s) && s.world.daemons == map[]
    ensures PidOf(s.world, d) == 0
  {
  }

  lemma OnlyOneLeaves(s: System, id: ClientId, seen: CloseSeen, other: ClientId)
    requires Running(s, id) && Running(s, other) && id != other && !CloseRaises(s, id, seen)
    ensures var t := Step(s, CloseClient(id, seen));
            !Running(t, id) && Running(t, other) && t.clients[other] == s.clients[other]
  {
    hide StopServer, Interrupted, Touch, Disconnect;
  }

  // ---- Startup leaves something behind ----

  /** mkdtemp paths of 90 bytes are long enough: the socket directory of an isolated client cannot be made,
      the constructor raises, and the private directory stays, with nobody left to remove it. */
  lemma SocketDirFailureLeaks() returns (es: seq<Event>)
    ensures Initial(Empty(90)) && EnabledRun(Empty(90), es)
    ensures var t := Run(Empty(90), es);
            t.clients == map[] && t.world.hooks == {} && t.world.daemons == map[] && Private(0) in t.world.dirs
  {
    EmptyIsInitial(90);
    hide Initial, Inv;
    var e := OpenClient(0, None, OpenSeen(SocketDirFault, true, true, false, Quiet));
    assert Overflows(Private(0), 90);
    assert Run(Empty(90), []) == Empty(90);
    OneMore(Empty(90), [], e);
    es := [] + [e];
  }

  /** A private server comes up but is not ready in time, and terminating it raises: the constructor raises,
      and server, private directory and hook stay. The hook is of no use: running it changes nothing. */
  lemma RollbackThatRaisesLeavesAServer() returns (es: seq<Event>)
    ensures Initial(Empty(29)) && EnabledRun(Empty(29), es)
    ensures var t := Run(Empty(29), es);
            && t.clients == map[] && 1 in t.world.daemons && Private(0) in t.world.dirs && 0 in t.world.hooks
            && forall c: Client, seen: CloseSeen :: !c.running ==> Close(t.world, 0, c, seen).world == t.world
  {
    EmptyIsInitial(29);
    var seen := OpenSeen(NoFault, true, false, true, Quiet);
    var e := OpenClient(0, None, seen);
    assert UndoStops(Empty(29).world, None, seen);
    hide Initial, Inv, Open, UndoStops;
    StuckOpenLeaves(Empty(29), 0, None, seen);
    OpenStrays(Empty(29), 0, None, seen);
    assert Run(Empty(29), []) == Empty(29);
    OneMore(Empty(29), [], e);
    es := [] + [e];
  }

  /** Writing the registry fails, and terminating the server raises; then the database is opened again. */
  lemma TwoFailuresMakeTwoServers() returns (seen: OpenSeen)
    ensures var r := Open(Open(Empty(29).world, 0, Some(HOME), seen).world, 1, Some(HOME), SMOOTH);
            && Open(Empty(29).world, 0, Some(HOME), seen).client.None? && r.client.Some?
            && 1 in r.world.daemons && 2 in r.world.daemons
            && r.world.daemons[1].dir == r.world.daemons[2].dir == HOME
  {
    EmptyIsInitial(29);
    seen := OpenSeen(RegistryFault(true), true, true, true, Quiet);
    assert LosesServer(Empty(29).world, Some(HOME), seen);
    hide Initial, Inv, Open, LosesServer;
    OpenStrays(Empty(29), 0, Some(HOME), seen);
    LostServerIsDoubled(Empty(29), 0, HOME, seen, 1, SMOOTH);
  }

  // ---- A close that reports success ----

  /** The only client of a database writes and closes; SHUTDOWN is refused and the daemon killed. The close
      returns normally, and the write is lost. */
  lemma RefusedShutdownLosesTheWrite() returns (es: seq<Event>)
    ensures Initial(Empty(29)) && EnabledRun(Empty(29), es)
    ensures EnabledRun(Empty(29), es + [CloseClient(0, STUBBORN)])
    ensures var s, t := Run(Empty(29), es), Run(Empty(29), es + [CloseClient(0, STUBBORN)]);
            && Running(s, 0) && Contents(s.world, HOME) == map["k" := "v"]
            && !CloseRaises(s, 0, STUBBORN) && !Running(t, 0)
            && t.world.daemons == map[] && Contents(t.world, HOME) == map[]
  {
    hide Inv, Initial, Close, Contents;
    EmptyIsInitial(29);
    var s, es0 := FirstOpen(29, HOME);
    var e1, e2 := SetKey(0, "k", "v"), CloseClient(0, STUBBORN);
    assert !Overflows(HOME, 29);
    var s1 := Step(s, e1);
    StepInv(s, e1);
    assert s1.world.daemons == map[1 := Daemon(HOME, HOME, map["k" := "v"], multiset{0})];
    DaemonAnswers(s1, 1);
    CountOnlyRaises(s1, 0, STUBBORN);
    ElectionRule(s1, 0, STUBBORN, 1);
    LoneClose(s1, STUBBORN);
    CloseDaemons(s1, 0, STUBBORN);
    OwnContents(s1, 0, STUBBORN);
    ServedContents(s1, 1);
    OneMore(Empty(29), es0, e1);
    OneMore(Empty(29), es0 + [e1], e2);
    es := es0 + [e1];
    var t := Step(s1, e2);
    assert t.world.daemons.Keys == {};
    assert Running(t, 0) ==> 0 in RunningIds(t);
  }

  lemma ServedContents(s: System, p: nat)
    requires Inv(s) && p in s.world.daemons
    ensures Contents(s.world, s.world.daemons[p].dir) == s.world.daemons[p].data
  {
    ContentsOfDaemon(s.world, p);
  }
}
