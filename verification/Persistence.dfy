/** What each database file holds after any run, data lost or not: the dataset that was being served at
    the last step that saved it. */
module Persistence {
  import opened Wrappers
  import opened Processes
  import opened HostWorld
  import opened Lifecycle
  import opened Discipline
  import opened Guarantees
  import opened Refinement

  /** This step writes the dataset served in a directory to its RDB file: a snapshot, or a close that takes
      the server down, orderly and saving, or by a SIGTERM on which it saves. */
  predicate SavesTo(s: System, e: Event, d: Dir)
    requires Enabled(s, e)
  {
    match e
    case BackgroundSave(pid) => s.world.daemons[pid].dir == d
    case CloseClient(id, seen) =>
      && Running(s, id) && s.clients[id].dbdir == d
      && PidOf(s.world, d) in s.world.daemons && PidOf(s.world, d) !in Step(s, e).world.daemons
      && StopSaves(s.world, s.clients[id], seen)
    case _ => false
  }

  // ---- One step ----

  /** Opening writes no other dataset than the one on disk. */
  lemma OpenDisk(s: System, id: ClientId, target: Option<Dir>, seen: OpenSeen, d: Dir)
    requires Inv(s) && Enabled(s, OpenClient(id, target, seen)) && d.User?
    ensures OnDisk(Step(s, OpenClient(id, target, seen)).world, d) == OnDisk(s.world, d)
  {
    hide WorldInv, ClientOk, MayStart, AttachOrStart, Prepare, Touch, ConnectionsOk, Started, CleanedUp, OwnSocket,
      Stuck, OnDisk;
    var w, t := s.world, Step(s, OpenClient(id, target, seen));
    var r := Prepare(w, target, seen.fault);
    PrepareKeeps(w, target, seen.fault);
    OnDiskOf(w, r.world, d);
    if r.client.Some? {
      PreparedOk(w, id, target, seen.fault);
      var c, v := r.client.value, r.world.(hooks := r.world.hooks + {id});
      OnDiskOf(w, v, d);
      HomeOfRegistry(v, c);
      AttachOrStartOutcome(v, id, c, seen);
      var o := AttachOrStart(v, id, c, seen);
      PidFacts(v, None);
      if PidOf(w, c.dbdir) != 0 {
        AttachContents(v, o.world, id, c, d, o.client.Some?);
      } else if o.client.Some? {
        StartedRdb(v, id, c);
        OnDiskOf(v, o.world, d);
      } else if StopsAfterStart(c.registry, seen) {
        StuckDisk(v, c, seen, d);
      } else {
        UndoneContents(v, o.world, id, c, d);
      }
    }
  }

  lemma StartedRdb(w: World, id: ClientId, c: Client)
    ensures Started(w, id, c).rdb == w.rdb
  {
  }

  lemma StopDisk(w: World, c: Client, seen: CloseSeen)
    requires WorldInv(w, None) && ClientOk(w, c) && c.registry.Some?
    ensures var p := PidOf(w, c.dbdir);
            OnDisk(StopServer(w, c, seen), c.dbdir) ==
              if p in w.daemons && StopSaves(w, c, seen) then w.daemons[p].data else OnDisk(w, c.dbdir)
    ensures PidOf(w, c.dbdir) !in StopServer(w, c, seen).daemons
  {
    StopContents(w, c, seen);
    StopServerKeeps(w, c, seen);
    ContentsAfterStop(w, c, seen);
    PidFacts(w, None);
  }

  lemma ContentsAfterStop(w: World, c: Client, seen: CloseSeen)
    requires WorldInv(w, None) && ClientOk(w, c)
    ensures var v := StopServer(w, c, seen); Contents(v, c.dbdir) == OnDisk(v, c.dbdir)
  {
    var v := StopServer(w, c, seen);
    StopServerKeeps(w, c, seen);
    hide StopServer;
    PidOfDaemonOrNone(w, c.dbdir);
    PidOfDaemonOrNone(v, c.dbdir);
    if PidOf(v, c.dbdir) in v.daemons {
      PidOfDaemon(v, c.dbdir);
      OneDaemonPerDir(w, PidOf(v, c.dbdir));
      ServedIffPid(w, c.dbdir, None);
      PidOfDaemon(w, c.dbdir);
    }
  }

  lemma ConnectionsAreNoFiles(w: World, id: ClientId, sock: Dir, hooks: set<ClientId>, d: Dir)
    ensures OnDisk(Disconnect(w, id), d) == OnDisk(w, d)
    ensures OnDisk(Touch(w, id, sock), d) == OnDisk(w, d)
    ensures OnDisk(w.(hooks := hooks), d) == OnDisk(w, d)
  {
  }

  lemma InterruptedDisk(w: World, c: Client, seen: CloseSeen)
    requires WorldInv(w, None) && ClientOk(w, c) && PidOf(w, c.dbdir) != 0
    ensures var p := PidOf(w, c.dbdir);
            p in w.daemons && OnDisk(Interrupted(w, c, seen), c.dbdir) ==
              if GoesDown(w, c, seen) && StopSaves(w, c, seen) then w.daemons[p].data else OnDisk(w, c.dbdir)
    ensures PidOf(w, c.dbdir) in Interrupted(w, c, seen).daemons <==> !GoesDown(w, c, seen)
  {
    hide Interrupted, WorldInv, ClientOk, StopSaves, GoesDown, Down, OnDisk, PidOf;
    InterruptedIs(w, c, seen);
    var signals := w.signals + PartlyDelivered(seen.ending, PidOf(w, c.dbdir));
    DownDisk(w, PidOf(w, c.dbdir), StopSaves(w, c, seen), signals);
    OnDiskOf(w, w.(signals := signals), c.dbdir);
  }

  /** A close writes its own shared database's dataset exactly if it takes the server down and saves. */
  lemma OwnDisk(s: System, id: ClientId, seen: CloseSeen)
    requires Inv(s) && Running(s, id) && s.clients[id].registry.Some?
    ensures var d, e := s.clients[id].dbdir, CloseClient(id, seen);
            OnDisk(Step(s, e).world, d) == if SavesTo(s, e, d) then Contents(s.world, d) else OnDisk(s.world, d)
  {
    hide WorldInv, ClientOk, ConnectionsOk, Distinct, Contents, OnDisk, StopServer, Interrupted, Touch, Disconnect;
    var w, c := s.world, s.clients[id];
    var w1 := Touch(w, id, c.socket);
    ClientsAreOk(s, id);
    TouchShape(w, id, c.socket);
    ShapeKeeps(w, w1, None);
    TouchKeepsData(w, id, c.socket);
    TouchReaches(w, id, c.socket);
    ConnectionsAreNoFiles(w, id, c.socket, {}, c.dbdir);
    ConnectionsAreNoFiles(w1, id, c.socket, {}, c.dbdir);
    PidOfDaemonOrNone(w, c.dbdir);
    HomePidfile(w1, c);
    var last := ConnectionCount(w1, c.socket) <= 1;
    if seen.countRaises {
      DisconnectKeepsDaemons(w1, id);
    } else if last && CleanupRaises(w1, c, seen) {
      InterruptedDisk(w1, c, seen);
      ConnectionsAreNoFiles(Interrupted(w1, c, seen), id, c.socket, {}, c.dbdir);
      DisconnectKeepsDaemons(Interrupted(w1, c, seen), id);
    } else {
      var u := if last then StopServer(w1, c, seen) else w1;
      var hooks := u.hooks - {id};
      ConnectionsAreNoFiles(u, id, c.socket, hooks, c.dbdir);
      ConnectionsAreNoFiles(u.(hooks := hooks), id, c.socket, {}, c.dbdir);
      DisconnectKeepsDaemons(u.(hooks := hooks), id);
      if last {
        StopDisk(w1, c, seen);
      }
    }
  }

  lemma SameFile(w: World, v: World, d: Dir)
    requires SameAt(w, v, d)
    ensures OnDisk(v, d) == OnDisk(w, d)
  {
  }

  lemma CloseDisk(s: System, id: ClientId, seen: CloseSeen, d: Dir)
    requires Inv(s) && id in s.clients && d.User?
    ensures var e := CloseClient(id, seen);
            OnDisk(Step(s, e).world, d) == if SavesTo(s, e, d) then Contents(s.world, d) else OnDisk(s.world, d)
  {
    hide WorldInv, ClientOk, ConnectionsOk, Distinct, OnDisk, Contents, Step, SameAt, Elsewhere;
    var e := CloseClient(id, seen);
    if !Running(s, id) {
      RepeatedClose(s, id, seen);
    } else if d == s.clients[id].dbdir {
      OwnIsShared(s, id);
      OwnDisk(s, id, seen);
    } else {
      OtherHomesAreElsewhere(s, id, d);
      CloseElsewhere(s, id, seen, d);
      SameFile(s.world, Step(s, e).world, d);
    }
  }

  lemma OwnIsShared(s: System, id: ClientId)
    requires Inv(s) && Running(s, id) && s.clients[id].dbdir.User?
    ensures s.clients[id].registry.Some?
  {
    ClientsAreOk(s, id);
  }

  lemma OutsideDisk(s: System, e: Event, d: Dir)
    requires Inv(s) && Enabled(s, e) && !e.OpenClient? && !e.CloseClient?
    ensures OnDisk(Step(s, e).world, d) == if SavesTo(s, e, d) then Contents(s.world, d) else OnDisk(s.world, d)
  {
    hide Inv, Contents, OnDisk, Step;
    if e.BackgroundSave? {
      SnapshotDisk(s, e.pid, d);
    } else {
      OutsideRdb(s, e);
      OnDiskOf(s.world, Step(s, e).world, d);
    }
  }

  lemma OutsideRdb(s: System, e: Event)
    requires Enabled(s, e) && !e.OpenClient? && !e.CloseClient? && !e.BackgroundSave?
    ensures Step(s, e).world.rdb == s.world.rdb
  {
  }

  lemma SnapshotDisk(s: System, pid: nat, d: Dir)
    requires Inv(s) && pid in s.world.daemons
    ensures OnDisk(Step(s, BackgroundSave(pid)).world, d)
            == if s.world.daemons[pid].dir == d then Contents(s.world, d) else OnDisk(s.world, d)
  {
    ContentsOfDaemon(s.world, pid);
    hide Inv, WorldInv, Contents;
  }

  /** Every step leaves a database file as it is, or writes to it what its server holds. */
  lemma DiskStep(s: System, e: Event, d: Dir)
    requires Inv(s) && Enabled(s, e) && d.User?
    ensures OnDisk(Step(s, e).world, d) == if SavesTo(s, e, d) then Contents(s.world, d) else OnDisk(s.world, d)
  {
    match e {
      case OpenClient(id, target, seen) =>
        hide Inv, Step, OnDisk;
        OpenDisk(s, id, target, seen, d);
      case CloseClient(id, seen) =>
        hide Inv, Step, OnDisk;
        CloseDisk(s, id, seen, d);
      case _ =>
        hide Inv, Step, OnDisk;
        OutsideDisk(s, e, d);
    }
  }

  // ---- Whole runs ----

  /** Event number i of the run saves this database. */
  predicate SavesAt(s: System, es: seq<Event>, i: nat, d: Dir) {
    && i < |es| && EnabledRun(s, es[..i]) && Enabled(Run(s, es[..i]), es[i])
    && SavesTo(Run(s, es[..i]), es[i], d)
  }

  ghost predicate LastSave(s: System, es: seq<Event>, i: nat, d: Dir) {
    SavesAt(s, es, i, d) && forall j: nat :: i < j < |es| ==> !SavesAt(s, es, j, d)
  }

  ghost predicate NeverSaved(s: System, es: seq<Event>, d: Dir) {
    forall i: nat :: i < |es| ==> !SavesAt(s, es, i, d)
  }

  /** Moments after the first step are moments of the rest of the run. */
  lemma LaterMoment(s: System, es: seq<Event>, i: nat)
    requires es != [] && Enabled(s, es[0]) && 0 < i <= |es|
    ensures var t := Step(s, es[0]);
            && (EnabledRun(s, es[..i]) <==> EnabledRun(t, es[1..][..i - 1]))
            && (EnabledRun(s, es[..i]) ==> Run(s, es[..i]) == Run(t, es[1..][..i - 1]))
  {
    assert es[..i][0] == es[0] && es[..i][1..] == es[1..][..i - 1];
    hide Step, Enabled;
  }

  lemma SavesLater(s: System, es: seq<Event>, i: nat, d: Dir)
    requires es != [] && Enabled(s, es[0]) && 0 < i
    ensures SavesAt(s, es, i, d) <==> SavesAt(Step(s, es[0]), es[1..], i - 1, d)
  {
    if i < |es| {
      LaterMoment(s, es, i);
      assert es[1..][i - 1] == es[i];
    }
    hide Step, Enabled, SavesTo, Run, EnabledRun;
  }

  lemma SavesFirst(s: System, es: seq<Event>, d: Dir)
    requires es != [] && Enabled(s, es[0])
    ensures SavesAt(s, es, 0, d) <==> SavesTo(s, es[0], d)
    ensures EnabledRun(s, es[..0]) && Run(s, es[..0]) == s
  {
    assert es[..0] == [];
    hide Step, Enabled, SavesTo;
  }

  /** Every run, losing data or not: a user's database file holds the complete dataset that its server held
      just before the last step that saved it, or what it held at first if none did. */
  lemma {:induction false} DiskIsLastSave(s: System, es: seq<Event>, d: Dir) returns (last: Option<nat>)
    requires Inv(s) && EnabledRun(s, es) && d.User?
    ensures last.None? ==> NeverSaved(s, es, d) && OnDisk(Run(s, es).world, d) == OnDisk(s.world, d)
    ensures last.Some? ==>
              && LastSave(s, es, last.value, d)
              && OnDisk(Run(s, es).world, d) == Contents(Run(s, es[..last.value]).world, d)
    decreases |es|
  {
    hide Inv, Step, Enabled, SavesTo, OnDisk, Contents;
    if es == [] {
      last := None;
    } else {
      var t := Step(s, es[0]);
      StepInv(s, es[0]);
      DiskStep(s, es[0], d);
      SavesFirst(s, es, d);
      forall i: nat | 0 < i ensures SavesAt(s, es, i, d) <==> SavesAt(t, es[1..], i - 1, d) {
        SavesLater(s, es, i, d);
      }
      var later := DiskIsLastSave(t, es[1..], d);
      hide SavesAt;
      if later.Some? {
        last := Some(later.value + 1);
        LaterMoment(s, es, last.value);
        forall j: nat | last.value < j < |es| ensures !SavesAt(s, es, j, d) {
          assert !SavesAt(t, es[1..], j - 1, d);
        }
      } else if SavesTo(s, es[0], d) {
        last := Some(0);
        forall j: nat | 0 < j < |es| ensures !SavesAt(s, es, j, d) {
          assert !SavesAt(t, es[1..], j - 1, d);
        }
      } else {
        last := None;
        forall j: nat | j < |es| ensures !SavesAt(s, es, j, d) {
          assert j > 0 ==> !SavesAt(t, es[1..], j - 1, d);
        }
      }
    }
  }

  /** Reopening loads it: an open that starts a server serves what is on disk. */
  lemma ReopenLoadsTheFile(s: System, id: ClientId, d: Dir, seen: OpenSeen)
    requires Inv(s) && Enabled(s, OpenClient(id, Some(d), seen)) && PidOf(s.world, d) == 0
    requires Running(Step(s, OpenClient(id, Some(d), seen)), id)
    ensures Contents(Step(s, OpenClient(id, Some(d), seen)).world, d) == OnDisk(s.world, d)
  {
    OpenContents(s, id, Some(d), seen, d);
    PidFacts(s.world, None);
    hide WorldInv, Step;
  }
}
