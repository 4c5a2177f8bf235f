/** Runs in which every running client holds exactly one connection, as simple clients do: then the
    connection count elects the last client correctly, and servers and clients come and go together. */
module Discipline {
  import opened Wrappers
  import opened HostWorld
  import opened Lifecycle

  // ---- The count ----

  /** A count of at most one, taken by a connected client, means that it is alone. */
  lemma CountedAlone(conns: multiset<ClientId>, id: ClientId)
    requires id in conns
    ensures |conns| <= 1 <==> conns == multiset{id}
  {
    var rest := conns - multiset{id};
    assert conns == rest + multiset{id};
    if conns != multiset{id} {
      assert rest != multiset{};
    }
  }

  /** The exact election rule, whatever crashed or lost its connections before: a close that can count
      leaves the server of its directory alive exactly when its own socket still leads there and
      somebody else is connected or it has two connections itself. */
  lemma ElectionRule(s: System, id: ClientId, seen: CloseSeen, p: nat)
    requires Inv(s) && Running(s, id) && s.clients[id].registry.Some? && !CloseRaises(s, id, seen)
    requires p in s.world.daemons && s.world.daemons[p].dir == s.clients[id].dbdir
    ensures var d := s.world.daemons[p];
            p in Step(s, CloseClient(id, seen)).world.daemons <==>
              d.sock == s.clients[id].socket && (d.conns[id] >= 2 || exists other :: other in d.conns && other != id)
  {
    hide WorldInv, StopServer, ClientOk;
    var w, c := s.world, s.clients[id];
    var conns := w.daemons[p].conns;
    var w1 := Touch(w, id, c.socket);
    ClientsAreOk(s, id);
    TouchShape(w, id, c.socket);
    ShapeKeeps(w, w1, None);
    StopServerKeeps(w1, c, seen);
    DaemonIsPid(w, p);
    DaemonIsPid(w1, p);
    if w.daemons[p].sock == c.socket {
      var after := w1.daemons[p].conns;
      assert Reach(w1, c.socket) == p && id in after;
      CountedAlone(after, id);
      if exists other :: other in conns && other != id {
        var other :| other in conns && other != id;
        assert other in after;
      } else if conns[id] >= 2 {
        assert after[id] >= 2;
      } else {
        assert after == multiset{id};
      }
    } else {
      NoOtherSocket(w1, c, p);
    }
  }

  /** A client whose socket does not lead to its directory's daemon reaches nothing. */
  lemma NoOtherSocket(w: World, c: Client, p: nat)
    requires WorldInv(w, None) && ClientOk(w, c) && p in w.daemons
    requires w.daemons[p].dir == c.dbdir && w.daemons[p].sock != c.socket
    ensures Reach(w, c.socket) == 0
  {
    OneDaemonPerDir(w, p);
  }

  lemma DaemonIsPid(w: World, p: nat)
    requires WorldInv(w, None) && p in w.daemons
    ensures PidOf(w, w.daemons[p].dir) == p && p != 0 && Reach(w, w.daemons[p].sock) == p
  {
    assert DaemonOk(w, p, None);
  }

  /** First half: a client that is connected keeps its server through anybody else's close, raising or
      not, provided the closing client's socket, if it is of the same database, leads to that server too. */
  lemma ConnectedClientKeepsServer(s: System, id: ClientId, seen: CloseSeen, p: nat, other: ClientId)
    requires Inv(s) && id in s.clients && other != id && Running(s, other)
    requires p in s.world.daemons && s.world.daemons[p].dir == s.clients[other].dbdir
    requires other in s.world.daemons[p].conns
    requires s.clients[id].dbdir == s.clients[other].dbdir ==> s.clients[id].socket == s.world.daemons[p].sock
    ensures p in Step(s, CloseClient(id, seen)).world.daemons
  {
    hide WorldInv, StopServer, Interrupted, ClientOk, ConnectionsOk, Touch;
    var w, c := s.world, s.clients[id];
    if c.running {
      var w1 := if c.registry.Some? then Touch(w, id, c.socket) else w;
      ClientsAreOk(s, id);
      TouchShape(w, id, c.socket);
      ShapeKeeps(w, w1, None);
      if c.dbdir == s.clients[other].dbdir {
        assert Running(s, id) && Running(s, other);
        TwoAreCounted(w, id, c.socket, p, other);
      } else {
        StopServerKeeps(w1, c, seen);
        InterruptedIs(w1, c, seen);
        OtherDirectory(w1, c.dbdir, p);
      }
    }
  }

  /** A client that asks on a socket where another one is connected counts at least two. */
  lemma TwoAreCounted(w: World, id: ClientId, sock: Dir, p: nat, other: ClientId)
    requires WorldInv(w, None) && p in w.daemons && w.daemons[p].sock == sock && other in w.daemons[p].conns
    requires other != id
    ensures ConnectionCount(Touch(w, id, sock), sock) > 1
  {
    DaemonIsPid(w, p);
    hide WorldInv;
    var after := Touch(w, id, sock).daemons[p].conns;
    assert id in after && other in after;
    CountedAlone(after, id);
  }

  /** The proviso holds by itself when the socket fits under the database directory. */
  lemma SocketsInPlaceAgree(s: System, id: ClientId, p: nat)
    requires Inv(s) && Running(s, id) && p in s.world.daemons && s.world.daemons[p].dir == s.clients[id].dbdir
    requires !Overflows(s.clients[id].dbdir, s.world.tempLen)
    ensures s.clients[id].socket == s.world.daemons[p].sock
  {
    assert DaemonOk(s.world, p, None);
  }

  lemma ClientsAreOk(s: System, id: ClientId)
    requires Inv(s) && Running(s, id)
    ensures ClientOk(s.world, s.clients[id])
    ensures forall v :: SameShape(s.world, v) ==> ClientOk(v, s.clients[id])
  {
  }

  lemma OtherDirectory(w: World, d: Dir, p: nat)
    requires WorldInv(w, None) && p in w.daemons && w.daemons[p].dir != d
    ensures PidOf(w, d) != p
  {
  }

  /** Closes start no daemon; those that stay lose the closing client's connections and nothing else. */
  lemma CloseDaemons(s: System, id: ClientId, seen: CloseSeen)
    requires Inv(s) && id in s.clients
    ensures var w, v := s.world, Step(s, CloseClient(id, seen)).world;
            forall p <- v.daemons :: p in w.daemons && v.daemons[p] == Parted(w.daemons[p], id)
  {
    hide WorldInv, StopServer, Interrupted, ClientOk, ConnectionsOk, Distinct, Touch, Disconnect, Parted;
    var w, c := s.world, s.clients[id];
    PartedDaemons(w, id);
    if c.running {
      var w1 := if c.registry.Some? then Touch(w, id, c.socket) else w;
      ClientsAreOk(s, id);
      TouchShape(w, id, c.socket);
      ShapeKeeps(w, w1, None);
      TouchThenGone(w, id, c.socket);
      WaysOut(w1, c, id, seen);
    }
  }

  /** Whichever way a close ends, daemons only go, or lose this client's connections. */
  lemma WaysOut(w: World, c: Client, id: ClientId, seen: CloseSeen)
    requires WorldInv(w, None) && ClientOk(w, c)
    ensures OnlyParted(w, Disconnect(w, id), id)
    ensures OnlyParted(w, Disconnect(Interrupted(w, c, seen), id), id)
    ensures var hooks := w.hooks - {id}; OnlyParted(w, Disconnect(w.(hooks := hooks), id), id)
    ensures var u := StopServer(w, c, seen); OnlyParted(w, Disconnect(u.(hooks := u.hooks - {id}), id), id)
  {
    hide WorldInv, ClientOk, StopServer, Interrupted, Disconnect, Parted;
    StopServerKeeps(w, c, seen);
    InterruptedIs(w, c, seen);
    var u := StopServer(w, c, seen);
    PartedDaemons(w, id);
    PartedDaemons(Interrupted(w, c, seen), id);
    PartedDaemons(w.(hooks := w.hooks - {id}), id);
    PartedDaemons(u.(hooks := u.hooks - {id}), id);
  }

  ghost predicate OnlyParted(w: World, v: World, id: ClientId) {
    forall p <- v.daemons :: p in w.daemons && v.daemons[p] == Parted(w.daemons[p], id)
  }

  lemma PartedDaemons(w: World, id: ClientId)
    ensures var v := Disconnect(w, id);
            v.daemons.Keys == w.daemons.Keys && forall p <- w.daemons :: v.daemons[p] == Parted(w.daemons[p], id)
    ensures var v := Disconnect(w, id);
            v == w.(daemons := v.daemons)
  {
    hide Parted;
  }

  lemma TouchThenGone(w: World, id: ClientId, sock: Dir)
    ensures var t := Touch(w, id, sock);
            t.daemons.Keys == w.daemons.Keys
            && forall p <- w.daemons :: Parted(t.daemons[p], id) == Parted(w.daemons[p], id)
  {
    var t := Touch(w, id, sock);
    forall p <- w.daemons ensures t.daemons[p].conns[id := 0] == w.daemons[p].conns[id := 0] {
    }
  }

  // ---- One connection each ----

  /** Events of simple clients: opens may fail in any way that leaves nothing behind, closes may end in
      any way but by raising. */
  predicate Simple(s: System, e: Event)
    requires Enabled(s, e)
  {
    match e
    case OpenClient(_, target, seen) => !Leaks(s.world, target, seen)
    case CloseClient(id, seen) => !CloseRaises(s, id, seen)
    case SetKey(_, _, _) => true
    case GetKey(_, _) => true
    case BackgroundSave(_) => true
    case _ => false
  }

  /** The daemon of a client's directory answers on its socket. */
  predicate ServedBy(w: World, c: Client, p: nat) {
    p in w.daemons && w.daemons[p].dir == c.dbdir && w.daemons[p].sock == c.socket
  }

  /** A client lives in a directory. */
  predicate LivesIn(s: System, id: ClientId, d: Dir) {
    Running(s, id) && s.clients[id].dbdir == d
  }

  /** Every running client is served. */
  ghost predicate AllServed(s: System) {
    forall id :: Running(s, id) ==> exists p :: ServedBy(s.world, s.clients[id], p)
  }

  /** A daemon's connections are exactly one for each running client of its directory. */
  ghost predicate ExactConns(s: System) {
    forall p <- s.world.daemons, id: ClientId ::
      s.world.daemons[p].conns[id] == if LivesIn(s, id, s.world.daemons[p].dir) then 1 else 0
  }

  ghost predicate Inhabited(s: System, d: Dir) {
    exists id :: LivesIn(s, id, d)
  }

  /** Every daemon has a client, and so does every private directory. */
  ghost predicate NoOrphans(s: System) {
    && (forall p <- s.world.daemons :: Inhabited(s, s.world.daemons[p].dir))
    && (forall d <- s.world.dirs :: d.Private? ==> Inhabited(s, d))
  }

  ghost predicate Tight(s: System) {
    AllServed(s) && ExactConns(s) && NoOrphans(s)
  }

  /** A fresh machine is tight. */
  lemma InitialTight(s: System)
    requires Initial(s) && forall d <- s.world.dirs :: !d.Private?
    ensures Tight(s)
  {
  }

  lemma ServerOf(s: System, id: ClientId) returns (p: nat)
    requires AllServed(s) && Running(s, id)
    ensures ServedBy(s.world, s.clients[id], p)
  {
    p :| ServedBy(s.world, s.clients[id], p);
  }

  lemma Dweller(s: System, d: Dir) returns (id: ClientId)
    requires Inhabited(s, d)
    ensures LivesIn(s, id, d)
  {
    id :| LivesIn(s, id, d);
  }

  /** A daemon's connections in a tight state. */
  lemma TightConns(s: System, p: nat, id: ClientId)
    requires ExactConns(s) && p in s.world.daemons
    ensures s.world.daemons[p].conns[id] == if LivesIn(s, id, s.world.daemons[p].dir) then 1 else 0
  {
  }

  /** In a tight state a running client is already connected. */
  lemma TouchIsIdle(s: System, id: ClientId)
    requires Inv(s) && Tight(s) && Running(s, id)
    ensures exists p :: ServedBy(s.world, s.clients[id], p)
    ensures forall p :: ServedBy(s.world, s.clients[id], p) ==>
              p != 0 && PidOf(s.world, s.clients[id].dbdir) == p && Reach(s.world, s.clients[id].socket) == p
    ensures Touch(s.world, id, s.clients[id].socket) == s.world
  {
    hide WorldInv, AllServed, ExactConns, NoOrphans;
    var q := ServerOf(s, id);
    forall p | ServedBy(s.world, s.clients[id], p)
      ensures p != 0 && PidOf(s.world, s.clients[id].dbdir) == p && Reach(s.world, s.clients[id].socket) == p
    {
      DaemonIsPid(s.world, p);
      TightConns(s, p, id);
    }
    TightConns(s, q, id);
  }

  /** Who else lives in a client's directory. */
  ghost predicate Alone(s: System, id: ClientId)
    requires id in s.clients
  {
    forall other :: LivesIn(s, other, s.clients[id].dbdir) ==> other == id
  }

  /** Second half: with one connection each, a close stops the server exactly if no other running
      client lives there. */
  lemma LastCloseStops(s: System, id: ClientId, seen: CloseSeen, p: nat)
    requires Inv(s) && Tight(s) && Running(s, id) && ServedBy(s.world, s.clients[id], p) && !CloseRaises(s, id, seen)
    ensures p !in Step(s, CloseClient(id, seen)).world.daemons <==> Alone(s, id)
    ensures s.clients[id].registry.None? ==> Alone(s, id)
  {
    hide Inv, AllServed, ExactConns, NoOrphans, Step;
    var c := s.clients[id];
    if c.registry.Some? {
      ElectionRule(s, id, seen, p);
      forall other: ClientId
        ensures s.world.daemons[p].conns[other] == if LivesIn(s, other, c.dbdir) then 1 else 0
      {
        TightConns(s, p, other);
      }
      var conns := s.world.daemons[p].conns;
      assert forall other :: other in conns <==> LivesIn(s, other, c.dbdir);
    } else {
      IsolatedAlone(s, id);
      IsolatedCloseStops(s, id, seen, p);
    }
  }

  /** An isolated client has its directory to itself. */
  lemma IsolatedAlone(s: System, id: ClientId)
    requires Inv(s) && Running(s, id) && s.clients[id].registry.None?
    ensures Alone(s, id)
  {
    forall other | LivesIn(s, other, s.clients[id].dbdir) ensures other == id {
      assert Running(s, other) && Running(s, id);
    }
  }

  lemma IsolatedCloseStops(s: System, id: ClientId, seen: CloseSeen, p: nat)
    requires Inv(s) && Running(s, id) && s.clients[id].registry.None? && ServedBy(s.world, s.clients[id], p)
    requires !CloseRaises(s, id, seen)
    ensures p !in Step(s, CloseClient(id, seen)).world.daemons
  {
    hide WorldInv, StopServer, ClientOk;
    ClientsAreOk(s, id);
    StopServerKeeps(s.world, s.clients[id], seen);
    DaemonIsPid(s.world, p);
  }

  /** The world after a close in a tight state, in its two cases. */
  function AfterClose(s: System, id: ClientId, seen: CloseSeen, last: bool): World
    requires id in s.clients
  {
    var w1 := if last then StopServer(s.world, s.clients[id], seen) else s.world;
    Disconnect(w1.(hooks := s.world.hooks - {id}), id)
  }

  lemma CloseIsAfterClose(s: System, id: ClientId, seen: CloseSeen)
    requires Inv(s) && Tight(s) && Running(s, id) && !CloseRaises(s, id, seen)
    ensures exists last :: Step(s, CloseClient(id, seen)).world == AfterClose(s, id, seen, last)
              && (s.clients[id].registry.None? ==> last)
  {
    hide Inv, Tight, StopServer, Disconnect;
    TouchIsIdle(s, id);
    ClientsAreOkStop(s, id, seen);
    var c := s.clients[id];
    var last := c.registry.None? || ConnectionCount(s.world, c.socket) <= 1;
    assert Step(s, CloseClient(id, seen)).world == AfterClose(s, id, seen, last);
  }

  lemma ClientsAreOkStop(s: System, id: ClientId, seen: CloseSeen)
    requires Inv(s) && Running(s, id)
    ensures var v := StopServer(s.world, s.clients[id], seen);
            && v.daemons == s.world.daemons - {PidOf(s.world, s.clients[id].dbdir)} && v.hooks == s.world.hooks
            && v.dirs == s.world.dirs - PrivateDir(s.clients[id]) - OwnSockDir(s.clients[id])
  {
    hide WorldInv, StopServer;
    StopServerKeeps(s.world, s.clients[id], seen);
  }

  /** A close in a tight state: the last client of a directory takes its server and files along, any
      other client just leaves. */
  lemma CloseCases(s: System, id: ClientId, seen: CloseSeen)
    requires Inv(s) && Tight(s) && Running(s, id) && !CloseRaises(s, id, seen)
    ensures Step(s, CloseClient(id, seen)).world == AfterClose(s, id, seen, Alone(s, id))
    ensures s.clients[id].registry.None? ==> Alone(s, id)
  {
    hide Inv, AllServed, ExactConns, NoOrphans, StopServer, Step;
    TouchIsIdle(s, id);
    var p := ServerOf(s, id);
    LastCloseStops(s, id, seen, p);
    CloseIsAfterClose(s, id, seen);
    ClientsAreOkStop(s, id, seen);
  }

  /** What tightness needs to know about the state after a running client left. */
  ghost predicate Left(s: System, v: System, id: ClientId) {
    && Running(s, id)
    && (forall i :: Running(v, i) <==> Running(s, i) && i != id)
    && (forall i :: Running(v, i) ==> v.clients[i] == s.clients[i])
    && (forall p <- v.world.daemons :: p in s.world.daemons
          && v.world.daemons[p] == Parted(s.world.daemons[p], id))
    && (forall p <- s.world.daemons :: p in v.world.daemons <==>
        !(Alone(s, id) && s.world.daemons[p].dir == s.clients[id].dbdir))
    && v.world.dirs <= s.world.dirs
    && (s.clients[id].dbdir.Private? ==> Alone(s, id) && s.clients[id].dbdir !in v.world.dirs)
  }

  lemma CloseLeaves(s: System, id: ClientId, seen: CloseSeen)
    requires Inv(s) && Tight(s) && Running(s, id) && !CloseRaises(s, id, seen)
    ensures Left(s, Step(s, CloseClient(id, seen)), id)
  {
    hide WorldInv, ClientOk, ConnectionsOk, AllServed, ExactConns, NoOrphans, StopServer, Touch, Step,
      Disconnect, Parted;
    var v := Step(s, CloseClient(id, seen));
    CloseCases(s, id, seen);
    ClientsAreOkStop(s, id, seen);
    TouchIsIdle(s, id);
    var p := ServerOf(s, id);
    OneDaemonPerDir(s.world, p);
    HomeKinds(s, id);
    AfterCloseDaemons(s, id, seen, Alone(s, id));
    CloseRuns(s, id, seen);
    CloseFieldsStay(s, id, seen);
    hide AfterClose;
  }

  lemma HomeKinds(s: System, id: ClientId)
    requires Inv(s) && Running(s, id)
    ensures s.clients[id].dbdir.Private? <==> s.clients[id].registry.None?
  {
    ClientsAreOk(s, id);
  }

  lemma AfterCloseDaemons(s: System, id: ClientId, seen: CloseSeen, last: bool)
    requires Inv(s) && Running(s, id)
    ensures var w1 := if last then StopServer(s.world, s.clients[id], seen) else s.world;
            var v := AfterClose(s, id, seen, last);
            && v.dirs == w1.dirs && v.daemons.Keys == w1.daemons.Keys
            && forall p <- w1.daemons :: v.daemons[p] == Parted(w1.daemons[p], id)
  {
    hide StopServer, Disconnect, Inv;
    var w1 := if last then StopServer(s.world, s.clients[id], seen) else s.world;
    PartedDaemons(w1.(hooks := s.world.hooks - {id}), id);
  }

  lemma CloseFieldsStay(s: System, id: ClientId, seen: CloseSeen)
    requires id in s.clients
    ensures var t := Step(s, CloseClient(id, seen));
            forall i <- s.clients :: i != id ==> i in t.clients && t.clients[i] == s.clients[i]
    ensures var t := Step(s, CloseClient(id, seen)); t.clients.Keys == s.clients.Keys
    ensures var t := Step(s, CloseClient(id, seen)); Running(t, id) ==> CloseRaises(s, id, seen)
  {
    hide StopServer, Interrupted, Touch, Disconnect;
  }

  lemma LeftServed(s: System, v: System, id: ClientId)
    requires AllServed(s) && Left(s, v, id)
    ensures AllServed(v)
  {
    hide AllServed;
    forall i | Running(v, i) ensures exists p :: ServedBy(v.world, v.clients[i], p) {
      var p := ServerOf(s, i);
      assert LivesIn(s, i, s.clients[i].dbdir);
      assert ServedBy(v.world, v.clients[i], p);
    }
    AllServedIntro(v);
  }

  lemma AllServedIntro(v: System)
    requires forall i | Running(v, i) :: exists p :: ServedBy(v.world, v.clients[i], p)
    ensures AllServed(v)
  {
  }

  /** Whoever is left, a directory that is not given up keeps a client. */
  lemma LeftInhabited(s: System, v: System, id: ClientId, d: Dir)
    requires Inhabited(s, d) && Left(s, v, id) && (d == s.clients[id].dbdir ==> !Alone(s, id))
    ensures Inhabited(v, d)
  {
    var i := Dweller(s, d);
    if i == id {
      var other :| LivesIn(s, other, d) && other != id;
      assert LivesIn(v, other, d);
    } else {
      assert LivesIn(v, i, d);
    }
  }

  lemma LeftConns(s: System, v: System, id: ClientId)
    requires ExactConns(s) && Left(s, v, id)
    ensures ExactConns(v)
  {
    forall p <- v.world.daemons, i: ClientId
      ensures v.world.daemons[p].conns[i] == if LivesIn(v, i, v.world.daemons[p].dir) then 1 else 0
    {
      TightConns(s, p, i);
      assert LivesIn(v, i, v.world.daemons[p].dir) <==> LivesIn(s, i, v.world.daemons[p].dir) && i != id;
    }
  }

  lemma LeftTight(s: System, v: System, id: ClientId)
    requires Tight(s) && Left(s, v, id)
    ensures Tight(v)
  {
    hide AllServed, ExactConns, Inhabited;
    LeftServed(s, v, id);
    LeftConns(s, v, id);
    forall p <- v.world.daemons ensures Inhabited(v, v.world.daemons[p].dir) {
      LeftInhabited(s, v, id, s.world.daemons[p].dir);
    }
    forall d <- v.world.dirs | d.Private? ensures Inhabited(v, d) {
      LeftInhabited(s, v, id, d);
    }
  }

  lemma CloseTight(s: System, id: ClientId, seen: CloseSeen)
    requires Inv(s) && Tight(s) && id in s.clients && !CloseRaises(s, id, seen)
    ensures Tight(Step(s, CloseClient(id, seen)))
  {
    hide Inv, Left, Tight, Step;
    if Running(s, id) {
      CloseLeaves(s, id, seen);
      LeftTight(s, Step(s, CloseClient(id, seen)), id);
    } else {
      RepeatedClose(s, id, seen);
    }
  }

  /** Closing again changes nothing, whatever happened since the first close. */
  lemma RepeatedClose(s: System, id: ClientId, seen: CloseSeen)
    requires Inv(s) && id in s.clients && !Running(s, id)
    ensures Step(s, CloseClient(id, seen)) == s
  {
    var v := Step(s, CloseClient(id, seen));
    hide WorldInv;
    forall p <- s.world.daemons ensures s.world.daemons[p].conns[id := 0] == s.world.daemons[p].conns {
      assert id !in s.world.daemons[p].conns;
    }
    assert v.world.daemons == s.world.daemons;
    assert v.clients == s.clients;
  }

  // ---- Every simple step keeps it ----

  /** Daemons, connections and clients are as before, and no private directory was added. */
  ghost predicate Unmoved(s: System, v: System) {
    && v.clients == s.clients && v.world.daemons.Keys == s.world.daemons.Keys
    && (forall p <- s.world.daemons ::
          && v.world.daemons[p].dir == s.world.daemons[p].dir && v.world.daemons[p].sock == s.world.daemons[p].sock
          && v.world.daemons[p].conns == s.world.daemons[p].conns)
    && (forall d <- v.world.dirs :: d.Private? ==> d in s.world.dirs)
  }

  lemma UnmovedTight(s: System, v: System)
    requires Tight(s) && Unmoved(s, v)
    ensures Tight(v)
  {
    hide AllServed, ExactConns, Inhabited;
    UnmovedServed(s, v);
    UnmovedConns(s, v);
    forall d | Inhabited(s, d) ensures Inhabited(v, d) {
      var i := Dweller(s, d);
      LivesHere(v, i, d);
    }
  }

  lemma LivesHere(v: System, i: ClientId, d: Dir)
    requires LivesIn(v, i, d)
    ensures Inhabited(v, d)
  {
  }

  lemma UnmovedServed(s: System, v: System)
    requires AllServed(s) && Unmoved(s, v)
    ensures AllServed(v)
  {
    hide AllServed;
    forall i | Running(v, i) ensures exists p :: ServedBy(v.world, v.clients[i], p) {
      var p := ServerOf(s, i);
      assert ServedBy(v.world, v.clients[i], p);
    }
    AllServedIntro(v);
  }

  lemma UnmovedConns(s: System, v: System)
    requires ExactConns(s) && Unmoved(s, v)
    ensures ExactConns(v)
  {
    forall p <- v.world.daemons, i: ClientId
      ensures v.world.daemons[p].conns[i] == if LivesIn(v, i, v.world.daemons[p].dir) then 1 else 0
    {
      TightConns(s, p, i);
    }
  }

  /** A client joined: with a new daemon of its own, or as one more connection of the daemon of its
      directory. */
  ghost predicate JoinedTightly(s: System, v: System, id: ClientId, p: nat) {
    && !Running(s, id) && Running(v, id)
    && (forall i :: i != id ==> (i in v.clients <==> i in s.clients))
    && (forall i <- s.clients :: i != id ==> v.clients[i] == s.clients[i])
    && ServedBy(v.world, v.clients[id], p)
    && v.world.daemons.Keys == s.world.daemons.Keys + {p}
    && (forall q <- s.world.daemons :: q != p ==>
        v.world.daemons[q] == s.world.daemons[q] && s.world.daemons[q].dir != v.clients[id].dbdir)
    && (if p in s.world.daemons
        then v.world.daemons[p] == s.world.daemons[p].(conns := s.world.daemons[p].conns[id := 1])
        else v.world.daemons[p].conns == multiset{id} && forall i :: !LivesIn(s, i, v.clients[id].dbdir))
    && (forall d <- v.world.dirs :: d.Private? ==> d in s.world.dirs || d == v.clients[id].dbdir)
  }

  lemma JoinServed(s: System, v: System, id: ClientId, p: nat)
    requires AllServed(s) && JoinedTightly(s, v, id, p)
    ensures AllServed(v)
  {
    hide AllServed;
    forall i | Running(v, i) ensures exists q :: ServedBy(v.world, v.clients[i], q) {
      if i != id {
        var q := ServerOf(s, i);
        assert ServedBy(v.world, v.clients[i], q);
      }
    }
    AllServedIntro(v);
  }

  lemma JoinConns(s: System, v: System, id: ClientId, p: nat)
    requires ExactConns(s) && JoinedTightly(s, v, id, p)
    ensures ExactConns(v)
  {
    var d0 := v.clients[id].dbdir;
    forall q <- v.world.daemons, i: ClientId
      ensures v.world.daemons[q].conns[i] == if LivesIn(v, i, v.world.daemons[q].dir) then 1 else 0
    {
      var d := v.world.daemons[q].dir;
      assert LivesIn(v, i, d) <==> LivesIn(s, i, d) || (i == id && d == d0);
      if q in s.world.daemons {
        TightConns(s, q, i);
      }
    }
  }

  lemma JoinTight(s: System, v: System, id: ClientId, p: nat)
    requires Tight(s) && JoinedTightly(s, v, id, p)
    ensures Tight(v)
  {
    hide AllServed, ExactConns, Inhabited;
    JoinServed(s, v, id, p);
    JoinConns(s, v, id, p);
    LivesHere(v, id, v.clients[id].dbdir);
    forall d | Inhabited(s, d) ensures Inhabited(v, d) {
      var i := Dweller(s, d);
      assert LivesIn(v, i, d);
      LivesHere(v, i, d);
    }
  }

  /** Nobody lives in a directory without a daemon. */
  lemma NobodyWithoutDaemon(s: System, d: Dir, i: ClientId)
    requires Inv(s) && AllServed(s) && PidOf(s.world, d) == 0
    ensures !LivesIn(s, i, d)
  {
    hide WorldInv, AllServed;
    if LivesIn(s, i, d) {
      var p := ServerOf(s, i);
      DaemonIsPid(s.world, p);
    }
  }

  lemma OpenTight(s: System, id: ClientId, target: Option<Dir>, seen: OpenSeen)
    requires Inv(s) && Tight(s) && Enabled(s, OpenClient(id, target, seen)) && !Leaks(s.world, target, seen)
    ensures Tight(Step(s, OpenClient(id, target, seen)))
  {
    hide WorldInv, ClientOk, MayStart, AttachOrStart, Prepare, Touch, ConnectionsOk, Started, CleanedUp,
      AllServed, ExactConns, NoOrphans, OwnSocket, UndoStops, StopsAfterStart, Stuck;
    var w := s.world;
    var r := Prepare(w, target, seen.fault);
    var t := Step(s, OpenClient(id, target, seen));
    if r.client.None? {
      PrepareFails(w, target, seen);
      UnmovedTight(s, t);
      return;
    }
    PreparedOk(w, id, target, seen.fault);
    var c, v := r.client.value, r.world.(hooks := r.world.hooks + {id});
    AttachOrStartOutcome(v, id, c, seen);
    UndoStopsIff(w, target, seen);
    var o := AttachOrStart(v, id, c, seen);
    if PidOf(w, c.dbdir) != 0 {
      AttachTight(s, t, v, id, c, o.client);
    } else if o.client.None? {
      UndoneIdle(v, o.world, id, c);
      UnmovedTight(s, t);
    } else {
      forall i ensures !LivesIn(s, i, c.dbdir) {
        NobodyWithoutDaemon(s, c.dbdir, i);
      }
      PidFacts(w, None);
      ServedIffPid(w, c.dbdir, None);
      StartedJoinsTightly(s, t, v, id, c);
      JoinTight(s, t, id, w.nextPid);
    }
  }

  /** A failure before the try block adds no directory but the user's own, unless it leaks. */
  lemma PrepareFails(w: World, target: Option<Dir>, seen: OpenSeen)
    requires Prepare(w, target, seen.fault).client.None?
    ensures var fault, v := seen.fault, Prepare(w, target, seen.fault).world;
            && (fault.DirFault? || fault.SocketDirFault?)
            && v == w.(dirs := v.dirs, nextTemp := v.nextTemp)
            && v.dirs == w.dirs + (if fault.DirFault? then {} else if target.Some? then
                {target.value} else {Private(w.nextTemp)})
            && (Leaks(w, target, seen) <==> target.None? && !fault.DirFault?)
  {
  }

  lemma StartedJoinsTightly(s: System, t: System, v: World, id: ClientId, c: Client)
    requires t.world == Started(v, id, c) && t.clients == s.clients[id := c.(running := true, conf := Some(c.dbdir))]
    requires v == s.world.(dirs := v.dirs, nextTemp := v.nextTemp, hooks := v.hooks)
    requires Unknown(s, id) && v.nextPid !in v.daemons
    requires forall p <- v.daemons :: v.daemons[p].dir != c.dbdir
    requires forall i :: !LivesIn(s, i, c.dbdir)
    requires forall d <- v.dirs :: d.Private? ==> d in s.world.dirs || PrivateDir(c) == {d}
    ensures JoinedTightly(s, t, id, v.nextPid)
  {
    forall d <- t.world.dirs | d.Private? ensures d in s.world.dirs || d == c.dbdir {
      assert PrivateDir(c) == {d} ==> d in PrivateDir(c);
    }
  }

  lemma AttachTight(s: System, t: System, v: World, id: ClientId, c: Client, client: Option<Client>)
    requires Inv(s) && Tight(s) && Unknown(s, id)
    requires v == s.world.(dirs := v.dirs, nextTemp := v.nextTemp, hooks := s.world.hooks + {id})
    requires PidOf(v, c.dbdir) != 0 && c.registry.Some?
    requires c.sockDir.Some? ==> c.sockDir == Some(c.socket) && forall p <- v.daemons :: v.daemons[p].sock != c.socket
    requires forall d <- v.dirs :: d.Private? ==> d in s.world.dirs || PrivateDir(c) == {d}
    requires var p := PidOf(v, c.dbdir);
             var u := RmTreeOpt(v, c.sockDir);
             if client.None? then t == System(u.(hooks := v.hooks - {id}), s.clients)
             else && p in v.daemons
                  && client.value == c.(running := true, socket := v.daemons[p].sock, sockDir := None)
                  && t == System(Touch(u, id, v.daemons[p].sock), s.clients[id := client.value])
    ensures Tight(t)
  {
    hide WorldInv, AllServed, ExactConns, NoOrphans, ClientOk;
    var p := PidOf(v, c.dbdir);
    var u := RmTreeOpt(v, c.sockDir);
    if client.None? {
      UnmovedTight(s, t);
    } else {
      PidOfDaemon(s.world, c.dbdir);
      OneDaemonPerDir(s.world, p);
      DaemonIsPid(s.world, p);
      AttachTouch(v, c, id, p);
      var conns := s.world.daemons[p].conns;
      assert conns[id] == 0;
      assert conns + multiset{id} == conns[id := 1];
      JoinTight(s, t, id, p);
    }
  }

  /** Joining adds one connection, once the unused socket directory is gone. */
  lemma AttachTouch(v: World, c: Client, id: ClientId, p: nat)
    requires p in v.daemons && Reach(v, v.daemons[p].sock) == p && p != 0
    requires c.sockDir != Some(v.daemons[p].sock) && id !in v.daemons[p].conns
    ensures var u := RmTreeOpt(v, c.sockDir);
            Touch(u, id, v.daemons[p].sock)
            == u.(daemons := v.daemons[p := v.daemons[p].(conns := v.daemons[p].conns + multiset{id})])
  {
  }

  lemma PidOfDaemon(w: World, d: Dir)
    requires WorldInv(w, None) && PidOf(w, d) != 0
    ensures PidOf(w, d) in w.daemons && w.daemons[PidOf(w, d)].dir == d
  {
  }

  lemma SimpleStepTight(s: System, e: Event)
    requires Inv(s) && Tight(s) && Enabled(s, e) && Simple(s, e)
    ensures Tight(Step(s, e))
  {
    hide Inv, AllServed, ExactConns, NoOrphans, Touch;
    match e {
      case OpenClient(id, target, seen) => OpenTight(s, id, target, seen);
      case CloseClient(id, seen) => CloseTight(s, id, seen);
      case SetKey(id, _, _) =>
        TouchIsIdle(s, id);
        UnmovedTight(s, Step(s, e));
      case GetKey(id, _) =>
        TouchIsIdle(s, id);
      case BackgroundSave(_) =>
        UnmovedTight(s, Step(s, e));
    }
  }

  predicate SimpleRun(s: System, es: seq<Event>)
    requires EnabledRun(s, es)
    decreases |es|
  {
    es == [] || (Simple(s, es[0]) && SimpleRun(Step(s, es[0]), es[1..]))
  }

  /** Every run of simple clients stays tight. */
  lemma {:induction false} SimpleRunTight(s: System, es: seq<Event>)
    requires Inv(s) && Tight(s) && EnabledRun(s, es) && SimpleRun(s, es)
    ensures Inv(Run(s, es)) && Tight(Run(s, es))
    decreases |es|
  {
    hide Inv, Tight, Step;
    if es == [] {
    } else {
      StepInv(s, es[0]);
      SimpleStepTight(s, es[0]);
      SimpleRunTight(Step(s, es[0]), es[1..]);
    }
  }

  /** In a tight state a database's registry leads to a live daemon exactly while somebody has it open. */
  lemma RegistryIffClients(s: System, d: Dir)
    requires Inv(s) && Tight(s) && d.User?
    ensures Load(s.world, d).Attached? <==> Inhabited(s, d)
  {
    hide WorldInv, AllServed, ExactConns, NoOrphans, ClientOk;
    LoadOutcome(s.world, d);
    if Inhabited(s, d) {
      var id := Dweller(s, d);
      TouchIsIdle(s, id);
      var p := ServerOf(s, id);
      assert PidOf(s.world, d) == p;
    } else if PidOf(s.world, d) != 0 {
      DaemonInhabited(s, PidOf(s.world, d));
    }
  }

  lemma DaemonInhabited(s: System, p: nat)
    requires NoOrphans(s) && p in s.world.daemons
    ensures Inhabited(s, s.world.daemons[p].dir)
  {
  }

  /** After every run of simple clients: a database's registry leads to a live daemon exactly while some
      running client has the database open, and each running client's pidfile and socket lead to its own
      daemon, on which it holds exactly one connection. */
  lemma EverySimpleRun(s: System, es: seq<Event>, d: Dir, id: ClientId)
    requires Initial(s) && (forall x <- s.world.dirs :: !x.Private?) && EnabledRun(s, es) && SimpleRun(s, es)
    ensures var t := Run(s, es);
            && (d.User? ==> (Load(t.world, d).Attached? <==> Inhabited(t, d)))
            && (Running(t, id) ==>
                  var c, p := t.clients[id], PidOf(t.world, t.clients[id].pidfile);
                  && p != 0 && ServedBy(t.world, c, p) && Reach(t.world, c.socket) == p
                  && t.world.daemons[p].conns[id] == 1)
  {
    hide WorldInv, AllServed, ExactConns, NoOrphans, Step, ConnectionsOk, ClientOk;
    InitialInv(s);
    InitialTight(s);
    SimpleRunTight(s, es);
    var t := Run(s, es);
    hide Run;
    if d.User? {
      RegistryIffClients(t, d);
    }
    if Running(t, id) {
      TouchIsIdle(t, id);
      var p := ServerOf(t, id);
      TightConns(t, p, id);
      PidfileIsHome(t, id);
    }
  }

  lemma PidfileIsHome(s: System, id: ClientId)
    requires Inv(s) && Running(s, id)
    ensures s.clients[id].pidfile == s.clients[id].dbdir
  {
  }
}
