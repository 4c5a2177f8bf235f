/** What closing leaves behind depends only on who closed, not on the order, nor on how the daemons'
    processes end: in every state in which no client holds two connections and the clients of a served
    database agree on its socket, whatever crashed, failed or was disconnected before. */
module Confluence {
  import opened Wrappers
  import opened Processes
  import opened HostWorld
  import opened Lifecycle
  import opened Discipline
  import opened Conservation

  // ---- Where it holds ----

  /** The clients of a served directory use its daemon's socket. */
  ghost predicate Agree(s: System) {
    forall p <- s.world.daemons, id: ClientId ::
      LivesIn(s, id, s.world.daemons[p].dir) ==> s.clients[id].socket == s.world.daemons[p].sock
  }

  /** They always do if their sockets fit under their directories. */
  lemma SocketsInPlaceAllAgree(s: System)
    requires Inv(s) && forall id :: Running(s, id) ==> !Overflows(s.clients[id].dbdir, s.world.tempLen)
    ensures Agree(s)
  {
    forall p <- s.world.daemons, id: ClientId | LivesIn(s, id, s.world.daemons[p].dir)
      ensures s.clients[id].socket == s.world.daemons[p].sock
    {
      SocketsInPlaceAgree(s, id, p);
    }
  }

  /** Simple clients meet both conditions. */
  lemma TightAgrees(s: System)
    requires Inv(s) && Tight(s)
    ensures AtMostOne(s) && Agree(s)
  {
    hide WorldInv, AllServed, NoOrphans;
    forall p <- s.world.daemons, id: ClientId | LivesIn(s, id, s.world.daemons[p].dir)
      ensures s.clients[id].socket == s.world.daemons[p].sock
    {
      OneDaemonPerDir(s.world, p);
      var q := ServerOf(s, id);
    }
  }

  // ---- What everybody sees ----

  datatype Serving = Serving(pid: nat, sock: Dir, data: Data, conns: set<ClientId>)

  datatype Home = Home(dir: Dir, socket: Dir)

  /** The world as far as it must not depend on the order: everything but the RDB files, which turn on
      the saves, and conf files, signals and relocated socket directories. `homes` lists the running
      clients with their directories and sockets. */
  datatype View = View(
    serving: map<Dir, Serving>,
    registry: map<Dir, Json>,
    pidfile: map<Dir, Pidfile>,
    sockets: map<Dir, nat>,
    dirs: set<Dir>,
    hooks: set<ClientId>,
    homes: map<ClientId, Home>)

  function ServingBy(p: nat, d: Daemon): Serving {
    Serving(p, d.sock, d.data, set id | id in d.conns)
  }

  function ServingIn(w: World): map<Dir, Serving> {
    map d | d in w.pidfile && PidOf(w, d) in w.daemons :: ServingBy(PidOf(w, d), w.daemons[PidOf(w, d)])
  }

  function Homes(s: System): map<ClientId, Home> {
    map id | id in s.clients && s.clients[id].running :: Home(s.clients[id].dbdir, s.clients[id].socket)
  }

  function DirsOf(w: World): set<Dir> {
    set d | d in w.dirs && !d.SockTemp?
  }

  function ViewOf(s: System): View {
    var w := s.world;
    View(ServingIn(w), w.registry, w.pidfile, w.sockets, DirsOf(w), w.hooks, Homes(s))
  }

  // ---- What closing some clients leaves of it ----

  function PrivateOf(ds: set<Dir>): set<Dir> {
    set d | d in ds && d.Private?
  }

  /** The directories that the clients `ids` give up by closing: one of them lives there, and the daemon, if
      any, has no other connection. */
  function Emptied(o: View, ids: set<ClientId>): set<Dir> {
    set id | id in ids && id in o.homes && (o.homes[id].dir in o.serving ==> o.serving[o.homes[id].dir].conns <= ids) ::
      o.homes[id].dir
  }

  /** The sockets of those of the clients `ids` whose directories are given up. */
  function SocketsOf(o: View, ids: set<ClientId>, gone: set<Dir>): set<Dir> {
    set id | id in ids && id in o.homes && o.homes[id].dir in gone :: o.homes[id].socket
  }

  /** The servers, without these clients' connections. */
  function Lessened(m: map<Dir, Serving>, ids: set<ClientId>): map<Dir, Serving> {
    map d | d in m :: m[d].(conns := m[d].conns - ids)
  }

  function SavedBy(o: View, ds: set<Dir>): map<Dir, Data> {
    map d | d in ds && d in o.serving && d.User? :: o.serving[d].data
  }

  /** The world once these clients have closed: the directories they give up have lost their servers,
      registries, pidfiles and sockets, and private ones are removed. */
  function Without(o: View, ids: set<ClientId>): View {
    var gone := Emptied(o, ids);
    View(Lessened(o.serving - gone, ids), o.registry - gone, o.pidfile - gone,
         o.sockets - SocketsOf(o, ids, gone) - PrivateOf(gone),
         o.dirs - PrivateOf(gone), o.hooks - ids, o.homes - ids)
  }

  /** The RDB files then: shared data is on disk. */
  function RdbWithout(o: View, rdb: map<Dir, Data>, ids: set<ClientId>): map<Dir, Data> {
    var gone := Emptied(o, ids);
    (rdb + SavedBy(o, gone)) - PrivateOf(gone)
  }

  /** Connections are those of clients who live there, and clients agree with their servers. */
  predicate Coherent(o: View) {
    && (forall d <- o.serving, id <- o.serving[d].conns :: id in o.homes && o.homes[id].dir == d)
    && (forall id <- o.homes :: o.homes[id].dir in o.serving ==> o.homes[id].socket == o.serving[o.homes[id].dir].sock)
  }

  lemma EmptiedHas(o: View, ids: set<ClientId>, d: Dir)
    ensures d in Emptied(o, ids) <==>
              && (exists id :: id in ids && id in o.homes && o.homes[id].dir == d)
              && (d in o.serving ==> o.serving[d].conns <= ids)
  {
    if id :| id in ids && id in o.homes && o.homes[id].dir == d {
    }
  }

  lemma SocketsHas(o: View, ids: set<ClientId>, gone: set<Dir>, x: Dir)
    ensures x in SocketsOf(o, ids, gone) <==>
              exists id :: id in ids && id in o.homes && o.homes[id].dir in gone && o.homes[id].socket == x
  {
  }

  /** A directory is given up by two groups exactly if the first gives it up, or the second does then. */
  lemma EmptiedSplits(o: View, a: set<ClientId>, b: set<ClientId>)
    requires Coherent(o)
    ensures Emptied(o, a + b) == Emptied(o, a) + Emptied(Without(o, a), b)
  {
    var o1 := Without(o, a);
    forall d ensures d in Emptied(o, a + b) <==> d in Emptied(o, a) + Emptied(o1, b) {
      hide Emptied;
      EmptiedHas(o, a + b, d);
      EmptiedHas(o, a, d);
      EmptiedHas(o1, b, d);
      if d in Emptied(o, a + b) && d !in Emptied(o, a) {
        LaterCloser(o, a, b, d);
      }
    }
  }

  /** Whoever gives up a directory that the first group did not give up closes in the second. */
  lemma LaterCloser(o: View, a: set<ClientId>, b: set<ClientId>, d: Dir)
    requires Coherent(o) && d in Emptied(o, a + b) && d !in Emptied(o, a)
    ensures exists id :: id in b && id in o.homes - a && o.homes[id].dir == d
    ensures d in o.serving ==> o.serving[d].conns - a <= b
  {
    hide Emptied;
    EmptiedHas(o, a + b, d);
    EmptiedHas(o, a, d);
    var id :| id in a + b && id in o.homes && o.homes[id].dir == d;
    if d in o.serving && !(o.serving[d].conns <= a) {
      var other :| other in o.serving[d].conns && other !in a;
      assert other in b && other in o.homes - a && o.homes[other].dir == d;
    } else {
      assert id !in a && id in b && id in o.homes - a;
    }
  }

  /** The sockets given up by two groups are those given up by the first, and then by the second. */
  lemma SocketsSplit(o: View, a: set<ClientId>, b: set<ClientId>)
    requires Coherent(o)
    ensures var o1 := Without(o, a);
            SocketsOf(o, a + b, Emptied(o, a + b)) == SocketsOf(o, a, Emptied(o, a)) + SocketsOf(o1, b, Emptied(o1, b))
  {
    var o1 := Without(o, a);
    var ga, gb, g := Emptied(o, a), Emptied(o1, b), Emptied(o, a + b);
    EmptiedSplits(o, a, b);
    WithoutFields(o, a);
    hide Emptied, SocketsOf, Without;
    forall x ensures x in SocketsOf(o, a + b, g) <==> x in SocketsOf(o, a, ga) + SocketsOf(o1, b, gb) {
      SocketsHas(o, a + b, g, x);
      SocketsHas(o, a, ga, x);
      SocketsHas(o1, b, gb, x);
      if x in SocketsOf(o, a + b, g) {
        var id :| id in a + b && id in o.homes && o.homes[id].dir in g && o.homes[id].socket == x;
        SocketGoesOnce(o, a, b, id);
      }
      if x in SocketsOf(o1, b, gb) {
        var id :| id in b && id in o1.homes && o1.homes[id].dir in gb && o1.homes[id].socket == x;
        assert id in o.homes && o.homes[id] == o1.homes[id];
      }
    }
  }

  lemma WithoutFields(o: View, ids: set<ClientId>)
    ensures var v := Without(o, ids);
            && v.homes == o.homes - ids && v.serving.Keys == o.serving.Keys - Emptied(o, ids)
            && (forall d <- v.serving :: v.serving[d] == o.serving[d].(conns := o.serving[d].conns - ids))
  {
  }

  /** A closing client's socket goes with the first group or with the second. */
  lemma SocketGoesOnce(o: View, a: set<ClientId>, b: set<ClientId>, id: ClientId)
    requires Coherent(o) && id in a + b && id in o.homes && o.homes[id].dir in Emptied(o, a) + Emptied(Without(o, a), b)
    ensures var o1, x := Without(o, a), o.homes[id].socket;
            x in SocketsOf(o, a, Emptied(o, a)) || x in SocketsOf(o1, b, Emptied(o1, b))
  {
    WithoutFields(o, a);
    hide Emptied, SocketsOf, Without;
    var o1, d, x := Without(o, a), o.homes[id].dir, o.homes[id].socket;
    EmptiedHas(o, a, d);
    EmptiedHas(o1, b, d);
    SocketsHas(o, a, Emptied(o, a), x);
    SocketsHas(o1, b, Emptied(o1, b), x);
    if id !in a {
      assert id in o1.homes && o1.homes[id] == o.homes[id];
      assert d in Emptied(o1, b);
    } else if d !in Emptied(o, a) {
      var later :| later in b && later in o1.homes && o1.homes[later].dir == d;
      assert o.homes[later] == o1.homes[later] && d in o.serving;
      assert o1.homes[later].socket == x;
    }
  }

  lemma MinusMinus<K, V>(m: map<K, V>, a: set<K>, b: set<K>)
    ensures m - a - b == m - (a + b)
  {
  }

  lemma LessenedTwice(m: map<Dir, Serving>, ga: set<Dir>, gb: set<Dir>, a: set<ClientId>, b: set<ClientId>)
    ensures Lessened(Lessened(m - ga, a) - gb, b) == Lessened(m - (ga + gb), a + b)
  {
    var x, y := Lessened(Lessened(m - ga, a) - gb, b), Lessened(m - (ga + gb), a + b);
    forall d | d in y ensures d in x && x[d] == y[d] {
      assert m[d].conns - a - b == m[d].conns - (a + b);
    }
    assert x.Keys == y.Keys;
  }

  lemma SocketsCompose(m: map<Dir, nat>, sa: set<Dir>, pa: set<Dir>, sb: set<Dir>, pb: set<Dir>)
    ensures m - sa - pa - sb - pb == m - (sa + sb) - (pa + pb)
  {
  }

  /** Closing some and then others is closing them all. */
  lemma WithoutComposes(o: View, a: set<ClientId>, b: set<ClientId>)
    requires Coherent(o)
    ensures Without(Without(o, a), b) == Without(o, a + b)
  {
    hide Emptied, SocketsOf, PrivateOf, Lessened, Coherent;
    var o1 := Without(o, a);
    var ga, gb := Emptied(o, a), Emptied(o1, b);
    EmptiedSplits(o, a, b);
    SocketsSplit(o, a, b);
    PrivateSum(ga, gb);
    LessenedTwice(o.serving, ga, gb, a, b);
    MinusMinus(o.registry, ga, gb);
    MinusMinus(o.pidfile, ga, gb);
    MinusMinus(o.homes, a, b);
    SocketsCompose(o.sockets, SocketsOf(o, a, ga), PrivateOf(ga), SocketsOf(o1, b, gb), PrivateOf(gb));
    assert o.dirs - PrivateOf(ga) - PrivateOf(gb) == o.dirs - (PrivateOf(ga) + PrivateOf(gb));
    assert o.hooks - a - b == o.hooks - (a + b);
  }

  lemma PrivateSum(a: set<Dir>, b: set<Dir>)
    ensures PrivateOf(a + b) == PrivateOf(a) + PrivateOf(b)
  {
  }

  lemma SavedSplits(o: View, o1: View, ga: set<Dir>, gb: set<Dir>)
    requires o1.serving.Keys == o.serving.Keys - ga && forall d <- o1.serving :: o1.serving[d].data == o.serving[d].data
    ensures SavedBy(o, ga + gb) == SavedBy(o, ga) + SavedBy(o1, gb)
    ensures SavedBy(o1, gb).Keys !! PrivateOf(ga)
  {
  }

  lemma RdbComposes(m: map<Dir, Data>, sa: map<Dir, Data>, sb: map<Dir, Data>, pa: set<Dir>, pb: set<Dir>)
    requires sb.Keys !! pa
    ensures ((m + sa) - pa + sb) - pb == (m + (sa + sb)) - (pa + pb)
  {
  }

  lemma RdbWithoutComposes(o: View, rdb: map<Dir, Data>, a: set<ClientId>, b: set<ClientId>)
    requires Coherent(o)
    ensures RdbWithout(Without(o, a), RdbWithout(o, rdb, a), b) == RdbWithout(o, rdb, a + b)
  {
    var o1 := Without(o, a);
    var ga, gb := Emptied(o, a), Emptied(o1, b);
    EmptiedSplits(o, a, b);
    WithoutFields(o, a);
    hide Emptied, SavedBy, PrivateOf, Coherent, Without;
    PrivateSum(ga, gb);
    SavedSplits(o, o1, ga, gb);
    RdbComposes(rdb, SavedBy(o, ga), SavedBy(o1, gb), PrivateOf(ga), PrivateOf(gb));
  }

  // ---- One close ----

  lemma HomePid(w: World, e: Dir)
    requires WorldInv(w, None)
    ensures PidOf(w, e) in w.daemons ==> w.daemons[PidOf(w, e)].dir == e && e in w.pidfile
    ensures 0 !in w.daemons && w.live == w.daemons.Keys
  {
  }

  lemma ViewIsCoherent(s: System)
    requires Inv(s) && AtMostOne(s) && Agree(s)
    ensures Coherent(ViewOf(s))
  {
    ConnectionsCohere(s);
    SocketsCohere(s);
    hide Inv, AtMostOne, Agree, ViewOf;
  }

  lemma ServedHere(w: World, d: Dir)
    requires WorldInv(w, None)
    ensures d in ServingIn(w) ==>
              var p := PidOf(w, d);
              p in w.daemons && w.daemons[p].dir == d && ServingIn(w)[d] == ServingBy(p, w.daemons[p])
  {
    HomePid(w, d);
  }

  lemma ConnectionsCohere(s: System)
    requires Inv(s) && AtMostOne(s)
    ensures var o := ViewOf(s);
            forall d <- o.serving, id <- o.serving[d].conns :: id in o.homes && o.homes[id].dir == d
  {
    hide WorldInv, ClientOk, ConnectionsOk, Distinct, AtMostOne, ServingIn;
    forall d <- ServingIn(s.world), id <- ServingIn(s.world)[d].conns
      ensures id in Homes(s) && Homes(s)[id].dir == d
    {
      ServedHere(s.world, d);
      Connected(s, PidOf(s.world, d), id);
    }
  }

  lemma SocketsCohere(s: System)
    requires Inv(s) && Agree(s)
    ensures var o := ViewOf(s);
            forall id <- o.homes :: o.homes[id].dir in o.serving ==>
              o.homes[id].socket == o.serving[o.homes[id].dir].sock
  {
    hide WorldInv, ClientOk, ConnectionsOk, Distinct, ServingIn;
    forall id <- Homes(s) | Homes(s)[id].dir in ServingIn(s.world)
      ensures Homes(s)[id].socket == ServingIn(s.world)[Homes(s)[id].dir].sock
    {
      ServedHere(s.world, Homes(s)[id].dir);
      assert LivesIn(s, id, Homes(s)[id].dir);
    }
  }

  /** A client's close is the last of its directory: there is no daemon, or no other connection. */
  predicate IsLast(s: System, id: ClientId)
    requires id in s.clients
  {
    var p := PidOf(s.world, s.clients[id].dbdir);
    p in s.world.daemons ==> forall other <- s.world.daemons[p].conns :: other == id
  }

  lemma EmptiedByOne(s: System, id: ClientId)
    requires Inv(s)
    ensures Emptied(ViewOf(s), {id}) == if Running(s, id) && IsLast(s, id) then {s.clients[id].dbdir} else {}
  {
    hide WorldInv, ClientOk, ConnectionsOk;
    var o := ViewOf(s);
    if Running(s, id) {
      var d := s.clients[id].dbdir;
      HomePid(s.world, d);
      assert o.homes[id] == Home(d, s.clients[id].socket);
      assert d in o.serving <==> PidOf(s.world, d) in s.world.daemons;
      if d in o.serving {
        OnlyThis(s.world.daemons[PidOf(s.world, d)].conns, id);
      }
      forall e ensures e in Emptied(o, {id}) <==> e == d && IsLast(s, id) {
        EmptiedHas(o, {id}, e);
      }
    } else {
      assert id !in o.homes;
    }
  }

  lemma OnlyThis(conns: multiset<ClientId>, id: ClientId)
    ensures (set i | i in conns) <= {id} <==> forall other <- conns :: other == id
  {
    var all := set i | i in conns;
    if all <= {id} {
      forall other <- conns ensures other == id {
        assert other in all;
        assert other in {id};
      }
    }
  }

  /** The count elects exactly the last closer. */
  lemma LastIsElected(s: System, id: ClientId)
    requires Inv(s) && AtMostOne(s) && Agree(s) && Running(s, id)
    ensures var c := s.clients[id];
            var w1 := if c.registry.Some? then Touch(s.world, id, c.socket) else s.world;
            IsLast(s, id) <==> c.registry.None? || ConnectionCount(w1, c.socket) <= 1
  {
    hide WorldInv, ConnectionsOk, AtMostOne;
    var c := s.clients[id];
    var p := PidOf(s.world, c.dbdir);
    HomePid(s.world, c.dbdir);
    if p in s.world.daemons {
      DaemonIsPid(s.world, p);
      assert LivesIn(s, id, s.world.daemons[p].dir);
      Connected(s, p, id);
      if c.registry.None? {
        forall other <- s.world.daemons[p].conns ensures other == id {
          Connected(s, p, other);
          IsolatedAlone(s, id);
        }
      } else {
        OwnCount(s.world, id, c.socket, p);
      }
    } else {
      NobodyAnswers(s.world, c);
    }
  }

  lemma OwnCount(w: World, id: ClientId, sock: Dir, p: nat)
    requires Reach(w, sock) == p && p != 0 && w.daemons[p].conns[id] <= 1
    ensures ConnectionCount(Touch(w, id, sock), sock) <= 1 <==> forall other <- w.daemons[p].conns :: other == id
  {
    var after := Touch(w, id, sock).daemons[p].conns;
    assert id in after && after[id] == 1;
    CountedAlone(after, id);
    if forall other <- w.daemons[p].conns :: other == id {
      assert after == multiset{id};
    } else {
      var other :| other in w.daemons[p].conns && other != id;
      assert other in after;
    }
  }

  /** Without a daemon in the client's directory nobody answers on its socket. */
  lemma NobodyAnswers(w: World, c: Client)
    requires WorldInv(w, None) && ClientOk(w, c) && PidOf(w, c.dbdir) !in w.daemons
    ensures Reach(w, c.socket) == 0 && PidOf(w, c.dbdir) == 0
  {
    ServedIffPid(w, c.dbdir, None);
    PidFacts(w, None);
    InterruptedIs(w, c, CloseSeen(false, false, false, Quiet));
  }

  /** A close of a shared database that saves if it stops the server. */
  predicate SavesShared(c: Client, seen: CloseSeen) {
    c.registry.Some? ==> seen.accepted || seen.ending == ByTerm(true)
  }

  /** The files and directories after the last close of a directory, served or not. */
  lemma StopFields(w: World, c: Client, seen: CloseSeen)
    requires WorldInv(w, None) && ClientOk(w, c)
    requires var p := PidOf(w, c.dbdir); p in w.daemons ==> w.daemons[p].sock == c.socket
    ensures var v := StopServer(w, c, seen);
            var own, p := PrivateDir(c), PidOf(w, c.dbdir);
            && v.registry == w.registry - {c.dbdir} && v.pidfile == w.pidfile - {c.dbdir}
            && v.sockets == w.sockets - {c.socket} - own && v.dirs == w.dirs - own - OwnSockDir(c)
            && v.daemons == w.daemons - {p} && v.live == w.live - {p} && v.hooks == w.hooks
            && (SavesShared(c, seen) ==>
                  v.rdb == if c.registry.None? then w.rdb - own
                           else if p in w.daemons then w.rdb[c.dbdir := w.daemons[p].data] else w.rdb)
  {
    StopIsDown(w, c, seen);
    StopServerKeeps(w, c, seen);
    RegistriesAreUsers(w, c.dbdir);
    PidFacts(w, None);
    var u := Stopped(w, c, seen);
    if PidOf(w, c.dbdir) in w.daemons {
      DaemonIsPid(w, PidOf(w, c.dbdir));
    }
    DownFields(w, c, seen);
    RemovedFields(u, c);
  }

  lemma DownFields(w: World, c: Client, seen: CloseSeen)
    requires 0 !in w.daemons && 0 !in w.live
    requires var p := PidOf(w, c.dbdir);
             p in w.daemons ==> w.daemons[p].dir == c.dbdir && w.daemons[p].sock == c.socket && Reach(w, c.socket) == p
    requires PidOf(w, c.dbdir) != 0 ==> PidOf(w, c.dbdir) in w.daemons
    ensures var u, p := Stopped(w, c, seen), PidOf(w, c.dbdir);
            && u.registry == w.registry && u.live == w.live - {p}
            && u.pidfile.Keys <= w.pidfile.Keys && u.rdb.Keys <= w.rdb.Keys + {c.dbdir}
            && u.pidfile - {c.dbdir} == w.pidfile - {c.dbdir} && u.sockets - {c.socket} == w.sockets - {c.socket}
            && u.rdb - {c.dbdir} == w.rdb - {c.dbdir}
            && (c.registry.Some? && SavesShared(c, seen) ==>
                  u.rdb == if p in w.daemons then w.rdb[c.dbdir := w.daemons[p].data] else w.rdb)
  {
    hide PidOf, Reach;
    assert w.live - {0} == w.live;
  }

  lemma RemovedFields(u: World, c: Client)
    requires c.pidfile == c.dbdir && (c.registry.Some? ==> c.registry.value == c.dbdir)
    requires c.sockDir.Some? ==> c.sockDir.value == c.socket && c.socket.SockTemp?
    requires c.registry.None? ==> c.sockDir.Some? || c.socket == c.dbdir
    requires forall d <- u.pidfile :: !d.SockTemp?
    requires forall d <- u.rdb :: !d.SockTemp?
    requires forall d <- u.registry :: d.User?
    ensures var v := RemoveFiles(u, c);
            && v.registry == u.registry - {c.dbdir} && v.pidfile == u.pidfile - {c.dbdir}
            && v.sockets == u.sockets - {c.socket} - PrivateDir(c)
            && v.rdb == u.rdb - PrivateDir(c)
            && v.live == u.live
  {
    var w1 := RemoveFiles(u, c.(sockDir := None));
    assert w1.registry == u.registry - {c.dbdir} && w1.pidfile == u.pidfile - {c.dbdir};
    assert w1.rdb == u.rdb - PrivateDir(c);
    assert w1.sockets - {c.socket} == u.sockets - {c.socket} - PrivateDir(c);
    if c.sockDir.Some? {
      assert w1.registry - {c.socket} == w1.registry && w1.pidfile - {c.socket} == w1.pidfile;
      assert w1.rdb - {c.socket} == w1.rdb;
    }
  }

  lemma DirsAfterStop(w: World, c: Client)
    requires c.sockDir.Some? ==> c.socket.SockTemp?
    ensures (set d | d in w.dirs - PrivateDir(c) - OwnSockDir(c) && !d.SockTemp?) == DirsOf(w) - PrivateDir(c)
  {
  }

  /** The servers after a close: one directory may have lost its own, the others lost a connection. */
  lemma ServingAfter(w: World, v: World, id: ClientId, gone: set<Dir>)
    requires WorldInv(w, None) && WorldInv(v, None) && v.pidfile == w.pidfile - gone
    requires forall p <- w.daemons :: p in v.daemons <==> w.daemons[p].dir !in gone
    requires forall p <- v.daemons :: p in w.daemons && v.daemons[p] == Parted(w.daemons[p], id)
    ensures ServingIn(v) == Lessened(ServingIn(w) - gone, {id})
  {
    forall d ensures (PidOf(v, d) in v.daemons <==> PidOf(w, d) in w.daemons && d !in gone)
                     && (PidOf(v, d) in v.daemons ==> PidOf(v, d) == PidOf(w, d) && d in w.pidfile && d in v.pidfile) {
      HomePid(w, d);
      HomePid(v, d);
    }
    hide WorldInv;
    ServingPointwise(w, v, id, gone);
  }

  lemma ServingPointwise(w: World, v: World, id: ClientId, gone: set<Dir>)
    requires forall d :: (PidOf(v, d) in v.daemons <==> PidOf(w, d) in w.daemons && d !in gone)
                         && (PidOf(v, d) in v.daemons ==>
                             PidOf(v, d) == PidOf(w, d) && d in w.pidfile && d in v.pidfile)
    requires forall d :: PidOf(w, d) in w.daemons ==> d in w.pidfile
    requires forall p <- v.daemons :: p in w.daemons && v.daemons[p] == Parted(w.daemons[p], id)
    ensures ServingIn(v) == Lessened(ServingIn(w) - gone, {id})
  {
    hide PidOf;
    var x, y := ServingIn(v), Lessened(ServingIn(w) - gone, {id});
    assert x.Keys == y.Keys;
    forall d | d in y ensures x[d] == y[d] {
      OneLess(w.daemons[PidOf(w, d)], id, PidOf(w, d));
    }
  }

  lemma OneLess(d: Daemon, id: ClientId, p: nat)
    ensures ServingBy(p, Parted(d, id)) == ServingBy(p, d).(conns := ServingBy(p, d).conns - {id})
  {
    var c := d.conns[id := 0];
    assert (set i | i in c) == (set i | i in d.conns) - {id};
  }

  /** The fields of the world after a finished close, in its two cases. */
  lemma CloseFields(s: System, id: ClientId, seen: CloseSeen)
    requires Inv(s) && AtMostOne(s) && Agree(s) && Running(s, id) && !CloseRaises(s, id, seen)
    ensures var w, c, v := s.world, s.clients[id], Step(s, CloseClient(id, seen)).world;
            var own := PrivateDir(c);
            if IsLast(s, id) then
              && v.registry == w.registry - {c.dbdir} && v.pidfile == w.pidfile - {c.dbdir}
              && v.sockets == w.sockets - {c.socket} - own && v.dirs == w.dirs - own - OwnSockDir(c)
              && v.daemons.Keys == w.daemons.Keys - {PidOf(w, c.dbdir)}
              && (SavesShared(c, seen) ==>
                    v.rdb == if c.registry.None? then w.rdb - own
                             else if PidOf(w, c.dbdir) in w.daemons then
                                 w.rdb[c.dbdir := w.daemons[PidOf(w, c.dbdir)].data]
                             else w.rdb)
            else
              && v.registry == w.registry && v.pidfile == w.pidfile && v.sockets == w.sockets && v.dirs == w.dirs
              && v.daemons.Keys == w.daemons.Keys && v.rdb == w.rdb
  {
    hide WorldInv, ConnectionsOk, AtMostOne, Agree, StopServer, IsLast, Distinct, Interrupted, Touch, Disconnect,
      Parted, PidOf;
    var w, c := s.world, s.clients[id];
    var w1 := if c.registry.Some? then Touch(w, id, c.socket) else w;
    LastIsElected(s, id);
    ClientsAreOk(s, id);
    TouchShape(w, id, c.socket);
    ShapeKeeps(w, w1, None);
    TouchThenGone(w, id, c.socket);
    OwnServer(s, id);
    TouchPid(w, id, c.socket, c.dbdir);
    if IsLast(s, id) {
      StopFields(w1, c, seen);
      var u := StopServer(w1, c, seen);
      PartedDaemons(u.(hooks := u.hooks - {id}), id);
    } else {
      PartedDaemons(w1.(hooks := w1.hooks - {id}), id);
    }
  }

  lemma TouchPid(w: World, id: ClientId, sock: Dir, d: Dir)
    ensures var v := Touch(w, id, sock);
            PidOf(v, d) == PidOf(w, d) && forall p <- w.daemons :: v.daemons[p].data == w.daemons[p].data
  {
  }

  lemma OwnServer(s: System, id: ClientId)
    requires Inv(s) && Agree(s) && Running(s, id)
    ensures var p := PidOf(s.world, s.clients[id].dbdir);
            p in s.world.daemons ==> ServedBy(s.world, s.clients[id], p)
  {
    hide WorldInv;
    HomePid(s.world, s.clients[id].dbdir);
    assert LivesIn(s, id, s.clients[id].dbdir);
  }

  lemma HomesAfter(s: System, id: ClientId, seen: CloseSeen)
    requires id in s.clients && !CloseRaises(s, id, seen)
    ensures Homes(Step(s, CloseClient(id, seen))) == Homes(s) - {id}
  {
    hide StopServer, Interrupted, Touch, Disconnect;
  }

  /** One close that does not raise, first or repeated, changes the view as specified, and the RDB files
      too if it saves. */
  lemma CloseView(s: System, id: ClientId, seen: CloseSeen)
    requires Inv(s) && AtMostOne(s) && Agree(s) && id in s.clients && !CloseRaises(s, id, seen)
    ensures var t := Step(s, CloseClient(id, seen));
            && ViewOf(t) == Without(ViewOf(s), {id})
            && (SavesShared(s.clients[id], seen) ==> t.world.rdb == RdbWithout(ViewOf(s), s.world.rdb, {id}))
  {
    hide WorldInv, ClientOk, ConnectionsOk, Distinct, AtMostOne, Agree, Step, CloseRaises, Emptied, SocketsOf,
      PrivateOf, Lessened,
      ServingIn, DirsOf, SavedBy, IsLast;
    var t := Step(s, CloseClient(id, seen));
    StepInv(s, CloseClient(id, seen));
    EmptiedByOne(s, id);
    HomesAfter(s, id, seen);
    CloseHooks(s, id, seen);
    CloseDaemons(s, id, seen);
    if Running(s, id) {
      CloseFields(s, id, seen);
      OwnServer(s, id);
      if IsLast(s, id) {
        LastView(s, t, id);
        LastRdb(s, t, id, seen);
      } else {
        NotLastView(s, t, id);
      }
    } else {
      RepeatedClose(s, id, seen);
      StrangerHasNoHook(s, id);
      NotLastView(s, t, id);
    }
  }

  lemma StrangerHasNoHook(s: System, id: ClientId)
    requires Inv(s) && id in s.clients && !Running(s, id)
    ensures s.world.hooks - {id} == s.world.hooks
  {
    assert id !in Strays(s);
  }

  lemma NotLastView(s: System, t: System, id: ClientId)
    requires Inv(s) && WorldInv(t.world, None) && Emptied(ViewOf(s), {id}) == {}
    requires var w, v := s.world, t.world;
             && v.registry == w.registry && v.pidfile == w.pidfile && v.sockets == w.sockets && v.dirs == w.dirs
             && v.daemons.Keys == w.daemons.Keys && v.hooks == w.hooks - {id} && Homes(t) == Homes(s) - {id}
             && forall p <- v.daemons :: p in w.daemons && v.daemons[p] == Parted(w.daemons[p], id)
    ensures ViewOf(t) == Without(ViewOf(s), {id})
    ensures RdbWithout(ViewOf(s), s.world.rdb, {id}) == s.world.rdb
  {
    hide WorldInv, ClientOk, ConnectionsOk, Emptied, ServingIn, Homes;
    ServingAfter(s.world, t.world, id, {});
    NothingGone(ViewOf(s), s.world.rdb, {id});
  }

  lemma NothingGone(o: View, rdb: map<Dir, Data>, ids: set<ClientId>)
    ensures PrivateOf({}) == {} && SocketsOf(o, ids, {}) == {} && SavedBy(o, {}) == map[]
    ensures o.serving - {} == o.serving && o.registry - {} == o.registry && o.pidfile - {} == o.pidfile
    ensures o.sockets - {} - {} == o.sockets && (rdb + map[]) - {} == rdb && o.dirs - {} == o.dirs
  {
  }

  lemma LastView(s: System, t: System, id: ClientId)
    requires Inv(s) && Running(s, id) && WorldInv(t.world, None) && Emptied(ViewOf(s), {id}) == {s.clients[id].dbdir}
    requires var w, c, v := s.world, s.clients[id], t.world;
             var own, p := PrivateDir(c), PidOf(w, c.dbdir);
             && v.registry == w.registry - {c.dbdir} && v.pidfile == w.pidfile - {c.dbdir}
             && v.sockets == w.sockets - {c.socket} - own && v.dirs == w.dirs - own - OwnSockDir(c)
             && v.daemons.Keys == w.daemons.Keys - {p} && v.hooks == w.hooks - {id} && Homes(t) == Homes(s) - {id}
             && (forall p <- v.daemons :: p in w.daemons && v.daemons[p] == Parted(w.daemons[p], id))
    ensures ViewOf(t) == Without(ViewOf(s), {id})
  {
    var c := s.clients[id];
    HomeKind(s, id);
    DirsAfterStop(s.world, c);
    OnePrivate(c);
    OneSocket(s, id);
    DaemonsAfterLast(s.world, t.world, c.dbdir);
    ServingAfter(s.world, t.world, id, {c.dbdir});
    hide Inv, WorldInv, Emptied, ServingIn, Homes, SocketsOf, PrivateOf, Lessened, DirsOf;
    LastDirs(s.world, t.world, c);
  }

  lemma HomeKind(s: System, id: ClientId)
    requires Inv(s) && Running(s, id)
    ensures var c := s.clients[id];
            && (if c.registry.Some? then c.dbdir.User? else c.dbdir.Private?)
            && (c.sockDir.Some? ==> c.socket.SockTemp?)
  {
    ClientsAreOk(s, id);
  }

  lemma LastDirs(w: World, v: World, c: Client)
    requires v.dirs == w.dirs - PrivateDir(c) - OwnSockDir(c) && (c.sockDir.Some? ==> c.socket.SockTemp?)
    ensures DirsOf(v) == DirsOf(w) - PrivateDir(c)
  {
    DirsAfterStop(w, c);
  }

  lemma DaemonsAfterLast(w: World, v: World, d: Dir)
    requires WorldInv(w, None) && v.daemons.Keys == w.daemons.Keys - {PidOf(w, d)}
    ensures forall p <- w.daemons :: p in v.daemons <==> w.daemons[p].dir !in {d}
  {
    HomePid(w, d);
    forall p <- w.daemons ensures p in v.daemons <==> w.daemons[p].dir !in {d} {
      DaemonIsPid(w, p);
    }
  }

  lemma OneSocket(s: System, id: ClientId)
    requires Running(s, id)
    ensures SocketsOf(ViewOf(s), {id}, {s.clients[id].dbdir}) == {s.clients[id].socket}
  {
    var o, d := ViewOf(s), s.clients[id].dbdir;
    assert id in o.homes && o.homes[id] == Home(d, s.clients[id].socket);
    forall x ensures x in SocketsOf(o, {id}, {d}) <==> x == s.clients[id].socket {
      SocketsHas(o, {id}, {d}, x);
    }
  }

  lemma OnePrivate(c: Client)
    requires if c.registry.Some? then c.dbdir.User? else c.dbdir.Private?
    ensures PrivateOf({c.dbdir}) == PrivateDir(c)
  {
  }

  lemma LastRdb(s: System, t: System, id: ClientId, seen: CloseSeen)
    requires Inv(s) && Running(s, id) && Emptied(ViewOf(s), {id}) == {s.clients[id].dbdir}
    requires var w, c, v := s.world, s.clients[id], t.world;
             SavesShared(c, seen) ==>
               v.rdb == if c.registry.None? then w.rdb - PrivateDir(c)
                        else if PidOf(w, c.dbdir) in w.daemons then w.rdb[c.dbdir := w.daemons[PidOf(w, c.dbdir)].data]
                        else w.rdb
    ensures SavesShared(s.clients[id], seen) ==> t.world.rdb == RdbWithout(ViewOf(s), s.world.rdb, {id})
  {
    hide Inv, Emptied, SavedBy, PrivateOf, ServingIn, ViewOf, PidOf;
    var c, rdb, p := s.clients[id], s.world.rdb, PidOf(s.world, s.clients[id].dbdir);
    HomeKind(s, id);
    OnePrivate(c);
    SavedByOne(s, c.dbdir);
    assert rdb + map[] == rdb;
    RemoveNothingMore(rdb);
    if c.registry.Some? && p in s.world.daemons {
      assert rdb + map[c.dbdir := s.world.daemons[p].data] == rdb[c.dbdir := s.world.daemons[p].data];
      RemoveNothingMore(rdb[c.dbdir := s.world.daemons[p].data]);
    }
  }

  lemma RemoveNothingMore(m: map<Dir, Data>)
    ensures m - {} == m
  {
  }

  lemma SavedByOne(s: System, d: Dir)
    requires Inv(s)
    ensures var p := PidOf(s.world, d);
            SavedBy(ViewOf(s), {d}) == if p in s.world.daemons && d.User? then
                map[d := s.world.daemons[p].data] else map[]
  {
    HomePid(s.world, d);
  }

  // ---- Any number of closes ----

  lemma CloseKeepsOne(s: System, id: ClientId, seen: CloseSeen)
    requires Inv(s) && AtMostOne(s) && Agree(s) && id in s.clients && !CloseRaises(s, id, seen)
    ensures AtMostOne(Step(s, CloseClient(id, seen))) && Agree(Step(s, CloseClient(id, seen)))
  {
    hide WorldInv, ClientOk, ConnectionsOk, Distinct, Step;
    var t := Step(s, CloseClient(id, seen));
    CloseDaemons(s, id, seen);
    if Running(s, id) {
      FinishedClose(s, id, seen);
      SocketsStay(s, id, seen);
      forall p <- t.world.daemons, i: ClientId
        ensures t.world.daemons[p].conns[i] <= if LivesIn(t, i, t.world.daemons[p].dir) then 1 else 0
      {
        Connected(s, p, i);
      }
    } else {
      RepeatedClose(s, id, seen);
    }
  }

  lemma SocketsStay(s: System, id: ClientId, seen: CloseSeen)
    requires id in s.clients
    ensures var t := Step(s, CloseClient(id, seen));
            && t.clients.Keys == s.clients.Keys
            && (forall i <- s.clients :: t.clients[i].socket == s.clients[i].socket)
            && (forall i <- s.clients :: t.clients[i].registry == s.clients[i].registry)
  {
    hide StopServer, Interrupted, Touch, Disconnect;
  }

  /** Every close of a shared database saves if it stops the server. */
  predicate AllSave(s: System, cs: seq<Closing>) {
    forall c <- cs :: c.0 in s.clients && SavesShared(s.clients[c.0], c.1)
  }

  lemma {:induction false} CloseAllView(s: System, cs: seq<Closing>)
    requires Inv(s) && AtMostOne(s) && Agree(s) && AllFinish(s, cs)
    ensures Inv(CloseAll(s, cs)) && AtMostOne(CloseAll(s, cs)) && Agree(CloseAll(s, cs))
    ensures ViewOf(CloseAll(s, cs)) == Without(ViewOf(s), Closers(cs))
    ensures AllSave(s, cs) ==> CloseAll(s, cs).world.rdb == RdbWithout(ViewOf(s), s.world.rdb, Closers(cs))
    decreases |cs|
  {
    hide Inv, AtMostOne, Agree, Step, Without, RdbWithout, ViewOf, CloseRaises, SavesShared, Coherent;
    if cs == [] {
      assert Closers(cs) == {};
      NobodyCloses(s);
    } else {
      var id, seen := cs[0].0, cs[0].1;
      var t := Step(s, CloseClient(id, seen));
      StepInv(s, CloseClient(id, seen));
      CloseKeepsOne(s, id, seen);
      CloseView(s, id, seen);
      CloseAllView(t, cs[1..]);
      ViewIsCoherent(s);
      WithoutComposes(ViewOf(s), {id}, Closers(cs[1..]));
      RdbWithoutComposes(ViewOf(s), s.world.rdb, {id}, Closers(cs[1..]));
      SavesLater(s, id, seen, cs);
      assert cs == [cs[0]] + cs[1..];
      assert Closers(cs) == {id} + Closers(cs[1..]);
    }
  }

  lemma SavesLater(s: System, id: ClientId, seen: CloseSeen, cs: seq<Closing>)
    requires id in s.clients && cs != []
    ensures AllSave(s, cs) ==> AllSave(Step(s, CloseClient(id, seen)), cs[1..])
  {
    SocketsStay(s, id, seen);
    hide Step;
  }

  lemma NobodyCloses(s: System)
    requires Inv(s)
    ensures Without(ViewOf(s), {}) == ViewOf(s) && RdbWithout(ViewOf(s), s.world.rdb, {}) == s.world.rdb
  {
    hide Inv, ServingIn;
    var o := ViewOf(s);
    assert o.homes - {} == o.homes && o.hooks - {} == o.hooks;
    assert Emptied(o, {}) == {};
    NothingGone(o, s.world.rdb, {});
    forall d <- o.serving ensures o.serving[d].conns - {} == o.serving[d].conns {
    }
    assert Lessened(o.serving, {}) == o.serving;
  }

  /** Confluence: two ways of closing the same clients, in any order, with any repetitions, whether or not
      SHUTDOWN is accepted and however the daemons' processes end, leave the same servers with the same
      connections, the same files, directories and hooks; and the same RDB files if every close saves. */
  lemma CloseIsConfluent(s: System, cs: seq<Closing>, ds: seq<Closing>)
    requires Inv(s) && AtMostOne(s) && Agree(s) && AllFinish(s, cs) && AllFinish(s, ds) && Closers(cs) == Closers(ds)
    ensures ViewOf(CloseAll(s, cs)) == ViewOf(CloseAll(s, ds))
    ensures AllSave(s, cs) && AllSave(s, ds) ==> CloseAll(s, cs).world.rdb == CloseAll(s, ds).world.rdb
  {
    hide Inv, AtMostOne, Agree, Without, RdbWithout, ViewOf;
    CloseAllView(s, cs);
    CloseAllView(s, ds);
  }

  /** Which servers survive any sequence of closes: those to which a client is connected that does not
      close, and those of whose clients none closes. */
  lemma ServerSurvives(s: System, cs: seq<Closing>, d: Dir)
    requires Inv(s) && AtMostOne(s) && Agree(s) && AllFinish(s, cs) && d in ServingIn(s.world)
    ensures d in ServingIn(CloseAll(s, cs).world) <==>
              || (exists id :: id in ServingIn(s.world)[d].conns && id !in Closers(cs))
              || (forall id :: LivesIn(s, id, d) ==> id !in Closers(cs))
  {
    hide Inv, AtMostOne, Agree, ServingIn, Emptied, Closers;
    CloseAllView(s, cs);
    var o, ids := ViewOf(s), Closers(cs);
    WithoutFields(o, ids);
    EmptiedHas(o, ids, d);
    forall id ensures id in o.homes && o.homes[id].dir == d <==> LivesIn(s, id, d) {
    }
    assert ViewOf(CloseAll(s, cs)).serving == ServingIn(CloseAll(s, cs).world);
  }

  /** With one connection each, a server survives exactly as long as one of its clients has not closed. */
  lemma ServerLivesWithItsClients(s: System, cs: seq<Closing>, d: Dir)
    requires Inv(s) && Tight(s) && AllFinish(s, cs) && d in ServingIn(s.world)
    ensures d in ServingIn(CloseAll(s, cs).world) <==> exists id :: LivesIn(s, id, d) && id !in Closers(cs)
  {
    hide Inv, Tight, AtMostOne, Agree, ServingIn, CloseAll, Closers, AllFinish;
    TightAgrees(s);
    ServerSurvives(s, cs, d);
    ConnsAreResidents(s, d);
  }

  /** With one connection each, the connections of a server are its residents, and there is one. */
  lemma ConnsAreResidents(s: System, d: Dir)
    requires Inv(s) && Tight(s) && d in ServingIn(s.world)
    ensures forall id :: id in ServingIn(s.world)[d].conns <==> LivesIn(s, id, d)
    ensures exists id :: LivesIn(s, id, d)
  {
    hide WorldInv, ClientOk, ConnectionsOk, Distinct, AllServed, ServingIn;
    ServedHere(s.world, d);
    var p := PidOf(s.world, d);
    forall id ensures id in ServingIn(s.world)[d].conns <==> LivesIn(s, id, d) {
      TightConns(s, p, id);
    }
    DaemonInhabited(s, p);
    var id := Dweller(s, d);
  }
}
