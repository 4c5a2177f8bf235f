/** What holds over every sequence of starts, stops, terminations, crashes, writes, snapshots, foreign
    SHUTDOWNs and process exits of one `ValkeyServer`. */
module ServerRuns {
  import opened Wrappers
  import opened Processes
  import opened ServerWorld

  datatype Event =
    | StartUp(start: StartSeen)
    | StopDown(stop: StopSeen)
    | TerminateNow(obstacle: Obstacle)
    | Crash
    | Put(key: string, value: string)
    | Snapshot
    | AskedToShutDown(save: bool)
    | ProcessExit(stop: StopSeen)

  function Step(u: Setup, s: State, e: Event): State {
    var pid := PidOf(s);
    match e
    case StartUp(seen) => Start(u, s, seen).state
    case StopDown(seen) => Stop(u, s, seen)
    case TerminateNow(o) => Terminate(u, s, o)
    case ProcessExit(seen) => if s.hooks > 0 then Stop(u, s, seen) else s
    case Crash => Gone(s, pid)
    case Put(k, v) =>
      if pid in s.daemons then s.(daemons := s.daemons[pid := s.daemons[pid].(data := s.daemons[pid].data[k := v])])
      else s
    case Snapshot => if pid in s.daemons then s.(rdb := Some(s.daemons[pid].data)) else s
    case AskedToShutDown(save) => if pid in s.daemons then Gone(StopServing(s, pid, save), pid) else s
  }

  function After(u: Setup, s: State, es: seq<Event>): State {
    if es == [] then s else Step(u, After(u, s, es[..|es| - 1]), es[|es| - 1])
  }

  // ---- The invariant ----

  /** Everything around a live daemon belongs to it. */
  predicate InPlace(u: Setup, s: State, p: nat)
    requires p in s.daemons
  {
    var port := s.daemons[p].port;
    && s.pidfile == Some(Pid(p)) && s.port == Some(port)
    && s.dir && s.conf && s.socket && s.hookFlag
    && (u.farSocket ==> s.socketDir)
    && (port > 0 ==> port in s.listeners && s.listeners[port] == p)
  }

  ghost predicate Inv(u: Setup, first: nat, s: State) {
    && 0 < first <= s.nextPid
    && s.live == s.daemons.Keys
    && (forall p <- s.daemons :: first <= p < s.nextPid && InPlace(u, s, p))
    && (s.hookFlag <==> s.hooks > 0)
    && (u.requested.Some? ==> s.port.None? || s.port == u.requested)
    && 0 !in s.listeners
    && (s.socketDir ==> u.farSocket)
    && (Kept(u) ==> s.dir)
    && (!s.dir ==> s.rdb.None? && s.pidfile.None? && !s.conf)
    && (forall sig <- s.signals :: first <= sig.pid < s.nextPid)
  }

  lemma FreshInv(u: Setup, s: State)
    requires Fresh(u, s)
    ensures Inv(u, s.nextPid, s)
  {
  }

  /** The pid property tells exactly whether a daemon lives. */
  lemma PidTells(u: Setup, first: nat, s: State)
    requires Inv(u, first, s)
    ensures PidOf(s) == 0 <==> s.daemons == map[]
    ensures PidOf(s) != 0 ==> PidOf(s) in s.daemons && s.daemons.Keys == {PidOf(s)} && IsRunning(s)
    ensures PidOf(s) != 0 ==> InPlace(u, s, PidOf(s)) && s.hooks > 0
    ensures Reach(s) != 0 ==> Reach(s) == PidOf(s)
    ensures PidOf(s) != 0 && s.daemons[PidOf(s)].port > 0 ==> Reach(s) == PidOf(s)
  {
    if p :| p in s.daemons {
      assert InPlace(u, s, p);
      forall q | q in s.daemons ensures q == p {
        assert InPlace(u, s, q);
      }
      assert s.daemons.Keys == {p};
    }
  }

  /** Preparing the files of an idle server. */
  lemma PreparedInv(u: Setup, first: nat, s: State, conf: bool)
    requires Inv(u, first, s) && s.daemons == map[]
    ensures u.farSocket ==> Inv(u, first, s.(socketDir := true))
    ensures s.dir ==> Inv(u, first, s.(conf := conf))
    ensures s.dir ==> Inv(u, first, s.(hooks := s.hooks + 1, hookFlag := true))
    ensures forall port: nat :: (u.requested.Some? ==> u.requested == Some(port)) ==>
              Inv(u, first, s.(port := Some(port)))
  {
  }

  lemma LaunchInv(u: Setup, first: nat, s: State, port: nat)
    requires Inv(u, first, s) && s.daemons == map[] && s.port == Some(port) && s.dir && s.conf && s.hookFlag
    requires u.farSocket ==> s.socketDir
    ensures var t := Launch(s, port);
            && Inv(u, first, t)
            && PidOf(t) == s.nextPid && Memory(t) == Some(Disk(s)) && IsRunning(t)
  {
    var t := Launch(s, port);
    assert t.live == {s.nextPid} == t.daemons.Keys;
  }

  lemma BringInv(u: Setup, first: nat, s: State, seen: StartSeen)
    requires Inv(u, first, s) && s.daemons == map[] && s.port.Some?
    ensures var t := Bring(u, s, seen).state;
            && Inv(u, first, t)
            && t.port == s.port && Disk(t) == Disk(s)
            && (IsRunning(t) <==> s.dir && seen.up && Passes(u, seen.fault))
            && (IsRunning(t) ==> Memory(t) == Some(Disk(s)))
  {
    hide Bring, Passes, WriteAndLaunch;
    PreparedInv(u, first, s, s.conf);
    PidTells(u, first, s);
    if s.dir && Passes(u, seen.fault) {
      BringPasses(u, s, seen);
      BringPassesInv(u, first, s, seen.up);
    } else {
      hide Inv;
      BringFails(u, first, s, if u.farSocket then s.(socketDir := true) else s, seen);
    }
  }

  /** The server about to be launched, its exit hook registered. */
  function Ready(u: Setup, s: State): State {
    s.(socketDir := s.socketDir || u.farSocket, conf := true, hooks := s.hooks + 1, hookFlag := true)
  }

  lemma BringPasses(u: Setup, s: State, seen: StartSeen)
    requires s.port.Some? && s.dir && Passes(u, seen.fault)
    ensures Bring(u, s, seen).state == if seen.up then Launch(Ready(u, s), s.port.value) else Ready(u, s)
  {
    WritePasses(u, s, seen);
    hide WriteAndLaunch, Passes;
  }

  lemma WritePasses(u: Setup, s: State, seen: StartSeen)
    requires s.port.Some? && s.dir && Passes(u, seen.fault)
    ensures var s1 := s.(socketDir := s.socketDir || u.farSocket, conf := true);
            WriteAndLaunch(u, s, seen.fault, seen.up) == Started(if seen.up then Launch(s1, s.port.value) else s1, true)
  {
    hide Launch;
    var s1 := if u.farSocket then s.(socketDir := true) else s;
    assert s1.(conf := true) == s.(socketDir := s.socketDir || u.farSocket, conf := true);
  }

  lemma BringPassesInv(u: Setup, first: nat, s: State, up: bool)
    requires Inv(u, first, s) && s.daemons == map[] && s.port.Some? && s.dir && PidOf(s) == 0
    ensures var t := if up then Launch(Ready(u, s), s.port.value) else Ready(u, s);
            && Inv(u, first, t) && t.port == s.port && Disk(t) == Disk(s)
            && (IsRunning(t) <==> up)
            && (IsRunning(t) ==> Memory(t) == Some(Disk(s)))
  {
    assert Inv(u, first, Ready(u, s));
    if up {
      LaunchInv(u, first, Ready(u, s), s.port.value);
    }
  }

  lemma BringFails(u: Setup, first: nat, s: State, s1: State, seen: StartSeen)
    requires Inv(u, first, s) && s.daemons == map[] && s.port.Some? && PidOf(s) == 0
    requires s1 == (if u.farSocket then s.(socketDir := true) else s) && Inv(u, first, s1)
    requires !(s.dir && Passes(u, seen.fault))
    ensures var t := Bring(u, s, seen).state;
            Inv(u, first, t) && t.port == s.port && Disk(t) == Disk(s) && PidOf(t) == 0
  {
    hide Inv;
    if s1.dir {
      PreparedInv(u, first, s1, true);
      PreparedInv(u, first, s1, s.conf);
    }
  }

  lemma StartInv(u: Setup, first: nat, s: State, seen: StartSeen)
    requires Inv(u, first, s)
    ensures Inv(u, first, Start(u, s, seen).state)
  {
    PidTells(u, first, s);
    hide Inv, Bring;
    if !IsRunning(s) && !(u.requested.None? && seen.fault.PortFault?) {
      PreparedInv(u, first, s, s.conf);
      BringInv(u, first, s.(port := Some(if u.requested.Some? then u.requested.value else seen.free)), seen);
    }
  }

  /** A start returns normally exactly if the server ran already, or the directory is there, nothing failed
      and PING was answered. It gets a server running exactly if one ran already, or the directory is there,
      nothing failed and the launched daemon came up; then it serves what was on disk, on the requested port or else on
      the offered one. */
  lemma StartOutcome(u: Setup, first: nat, s: State, seen: StartSeen)
    requires Inv(u, first, s)
    ensures Start(u, s, seen).ok <==> IsRunning(s) || (s.dir && Launches(u, seen.fault) && seen.ready)
    ensures var t := Start(u, s, seen).state;
            && (IsRunning(t) <==> IsRunning(s) || (s.dir && seen.up && Launches(u, seen.fault)))
            && (!IsRunning(s) && IsRunning(t) ==>
                  Memory(t) == Some(Disk(s)) && t.port ==
                      Some(if u.requested.Some? then u.requested.value else seen.free))
            && Disk(t) == Disk(s)
  {
    StartReturns(u, s, seen);
    hide Passes;
    PidTells(u, first, s);
    hide Inv, Bring;
    if !IsRunning(s) && !(u.requested.None? && seen.fault.PortFault?) {
      PreparedInv(u, first, s, s.conf);
      BringInv(u, first, s.(port := Some(if u.requested.Some? then u.requested.value else seen.free)), seen);
    }
  }

  lemma StartReturns(u: Setup, s: State, seen: StartSeen)
    ensures Start(u, s, seen).ok <==> IsRunning(s) || (s.dir && Launches(u, seen.fault) && seen.ready)
  {
    hide Launch;
  }

  /** Everything a start leaves, however far it gets: a server that runs and a port that cannot be found leave
      all as it was; otherwise the port is exposed, whatever fails after that; the directories and files are
      made in their order up to the failure; the exit hook is registered once more exactly if the binary was
      launched; nothing is signalled. */
  lemma WhatAStartLeaves(u: Setup, s: State, seen: StartSeen)
    ensures var t := Start(u, s, seen).state;
            && (IsRunning(s) || (u.requested.None? && seen.fault.PortFault?) ==> t == s)
            && (!IsRunning(s) && !(u.requested.None? && seen.fault.PortFault?) ==>
                  && t.port == Some(if u.requested.Some? then u.requested.value else seen.free)
                  && t.socketDir == (s.socketDir || (u.farSocket && !seen.fault.SocketDirFault?))
                  && t.conf == (s.conf || (s.dir && seen.fault != ConfFault(false)
                                           && !(u.farSocket && seen.fault.SocketDirFault?)))
                  && t.hooks == s.hooks + (if s.dir && Launches(u, seen.fault) then 1 else 0)
                  && t.dir == s.dir && t.rdb == s.rdb && t.signals == s.signals)
  {
    hide Launch, Bring;
    if !IsRunning(s) && !(u.requested.None? && seen.fault.PortFault?) {
      BringLeaves(u, s.(port := Some(if u.requested.Some? then u.requested.value else seen.free)), seen);
    }
  }


  lemma BringLeaves(u: Setup, s: State, seen: StartSeen)
    requires s.port.Some?
    ensures var t := Bring(u, s, seen).state;
            && t.port == s.port && t.socketDir == (s.socketDir || (u.farSocket && !seen.fault.SocketDirFault?))
            && t.conf == (s.conf || (s.dir && seen.fault != ConfFault(false)
                                     && !(u.farSocket && seen.fault.SocketDirFault?)))
            && t.hooks == s.hooks + (if s.dir && Passes(u, seen.fault) then 1 else 0)
            && t.dir == s.dir && t.rdb == s.rdb && t.signals == s.signals
  {
    if s.dir && Passes(u, seen.fault) {
      BringPasses(u, s, seen);
      LaunchLeaves(Ready(u, s), s.port.value);
      hide Launch, Bring;
    } else {
      hide Launch;
    }
  }

  lemma LaunchLeaves(s: State, port: nat)
    ensures var t := Launch(s, port);
            && t.port == s.port && t.socketDir == s.socketDir && t.conf == s.conf && t.hooks == s.hooks
            && t.dir == s.dir && t.rdb == s.rdb && t.signals == s.signals
  {
  }

  // ---- Stopping ----

  /** A stop, or the exit hook, writes the dataset: an accepted SHUTDOWN does if the server persists; if
      SHUTDOWN did not get through, a daemon that yields to SIGTERM may. */
  predicate SavingStop(u: Setup, s: State, seen: StopSeen) {
    if seen.accepted && Reach(s) != 0 then u.persist else seen.ending == ByTerm(true)
  }

  /** Everything that a stop and a termination leave behind. */
  predicate Down(u: Setup, s: State, t: State) {
    && t.daemons == map[] && t.live == {} && t.port.None?
    && t.dir == (s.dir && Kept(u))
    && t.pidfile.None? && !t.socket && !t.conf && !t.socketDir
    && t.nextPid == s.nextPid && t.listeners == s.listeners
  }

  /** Just before the files are cleaned up: no process is left, the RDB is settled. */
  lemma StopProcesses(u: Setup, first: nat, s: State, seen: StopSeen)
    requires Inv(u, first, s) && PidOf(s) != 0
    ensures var t := Terminated(ShutDown(s, u.persist, seen.accepted), PidOf(s), seen.ending);
            && t.daemons == map[] && t.live == {}
            && t.signals == s.signals + Delivered(seen.ending, PidOf(s))
            && t.rdb == (if SavingStop(u, s, seen) then Memory(s) else s.rdb)
            && t == s.(daemons := t.daemons, live := t.live, signals := t.signals, rdb := t.rdb,
                       pidfile := t.pidfile, socket := t.socket)
  {
    PidTells(u, first, s);
  }

  /** A stop that raises takes the daemon down all the same if SHUTDOWN or SIGTERM got through. */
  predicate GoesDown(s: State, seen: StopSeen) {
    PidOf(s) != 0 && ((seen.accepted && Reach(s) != 0) || seen.ending.ByTerm?)
  }

  lemma StopOutcome(u: Setup, first: nat, s: State, seen: StopSeen)
    requires Inv(u, first, s) && !StopRaises(s, seen)
    ensures var t := Stop(u, s, seen);
            && Down(u, s, t) && !t.hookFlag && t.hooks == 0
            && t.signals == s.signals + (if PidOf(s) != 0 then Delivered(seen.ending, PidOf(s)) else [])
            && t.rdb == (if !Kept(u) then None
                         else if PidOf(s) != 0 && SavingStop(u, s, seen) then Memory(s)
                         else s.rdb)
  {
    PidTells(u, first, s);
    if PidOf(s) != 0 {
      StopProcesses(u, first, s, seen);
    }
  }

  /** A stop that raises cleans nothing up: port, hook, directory and files stay. The daemon serves on, or
      is down and has saved as in any stop. */
  lemma RaisingStopOutcome(u: Setup, first: nat, s: State, seen: StopSeen)
    requires Inv(u, first, s) && StopRaises(s, seen)
    ensures var t := Stop(u, s, seen);
            var signals := s.signals + PartlyDelivered(seen.ending, PidOf(s));
            t == if GoesDown(s, seen)
                 then s.(daemons := map[], live := {}, signals := signals, pidfile := None, socket := false,
                         rdb := if SavingStop(u, s, seen) then Memory(s) else s.rdb)
                 else s.(signals := signals)
  {
    PidTells(u, first, s);
    var p := PidOf(s);
    assert s.live == {p};
    assert s.daemons - {p} == map[] && s.live - {p} == {};
    assert s.daemons - {p} - {p} == map[];
  }

  lemma TerminateOutcome(u: Setup, first: nat, s: State, o: Obstacle)
    requires Inv(u, first, s) && !TerminateRaises(s, o)
    ensures var t := Terminate(u, s, o);
            && Down(u, s, t) && t.hookFlag == s.hookFlag && t.hooks == s.hooks
            && t.signals == s.signals + (if PidOf(s) != 0 then [Sent(KILL, PidOf(s))] else [])
            && t.rdb == if Kept(u) then s.rdb else None
  {
    PidTells(u, first, s);
  }

  /** A termination that raises either did nothing, or killed the daemon and cleaned nothing up. */
  lemma RaisingTerminateOutcome(u: Setup, first: nat, s: State, o: Obstacle)
    requires Inv(u, first, s) && TerminateRaises(s, o)
    ensures Terminate(u, s, o) ==
              if o.Barred? then s
              else s.(daemons := map[], live := {}, signals := s.signals + [Sent(KILL, PidOf(s))])
  {
    PidTells(u, first, s);
    assert s.live == {PidOf(s)};
    assert s.daemons - {PidOf(s)} == map[] && s.live - {PidOf(s)} == {};
  }

  /** The daemon is gone or not, and signals went to it: the object is as before. */
  lemma HeldInv(u: Setup, first: nat, s: State, t: State)
    requires Inv(u, first, s) && PidOf(s) != 0
    requires t == s.(daemons := t.daemons, live := t.live, signals := t.signals, pidfile := t.pidfile,
                     socket := t.socket, rdb := t.rdb)
    requires (t.daemons == map[] && t.live == {}) || (t == s.(signals := t.signals))
    requires s.signals <= t.signals && forall sig <- t.signals[|s.signals|..] :: sig.pid == PidOf(s)
    ensures Inv(u, first, t)
  {
    PidTells(u, first, s);
    forall sig | sig in t.signals ensures first <= sig.pid < t.nextPid {
      assert t.signals == s.signals + t.signals[|s.signals|..];
    }
  }

  lemma DownInv(u: Setup, first: nat, s: State, t: State)
    requires Inv(u, first, s) && Down(u, s, t) && (t.hookFlag <==> t.hooks > 0)
    requires !Kept(u) ==> t.rdb.None?
    requires s.signals <= t.signals && forall sig <- t.signals[|s.signals|..] :: sig.pid == PidOf(s) != 0
    ensures Inv(u, first, t)
  {
    PidTells(u, first, s);
    forall sig | sig in t.signals ensures first <= sig.pid < t.nextPid {
      assert t.signals == s.signals + t.signals[|s.signals|..];
    }
  }

  lemma StopInv(u: Setup, first: nat, s: State, seen: StopSeen)
    requires Inv(u, first, s)
    ensures Inv(u, first, Stop(u, s, seen))
  {
    hide Inv, Down, Stop;
    if StopRaises(s, seen) {
      RaisingStopInv(u, first, s, seen);
    } else {
      StopOutcome(u, first, s, seen);
      DeliveredIsEscalation(seen.ending, PidOf(s));
      var t := Stop(u, s, seen);
      assert t.signals[|s.signals|..] == if PidOf(s) != 0 then Delivered(seen.ending, PidOf(s)) else [];
      DownInv(u, first, s, t);
    }
  }

  lemma RaisingStopInv(u: Setup, first: nat, s: State, seen: StopSeen)
    requires Inv(u, first, s) && StopRaises(s, seen)
    ensures Inv(u, first, Stop(u, s, seen))
  {
    RaisingStopOutcome(u, first, s, seen);
    hide Inv, Stop, GoesDown, SavingStop;
    var t := Stop(u, s, seen);
    assert t.signals[|s.signals|..] == PartlyDelivered(seen.ending, PidOf(s));
    HeldInv(u, first, s, t);
  }

  lemma TerminateInv(u: Setup, first: nat, s: State, o: Obstacle)
    requires Inv(u, first, s)
    ensures Inv(u, first, Terminate(u, s, o))
  {
    HookMatches(u, first, s);
    hide Inv, Down, Terminate;
    var t := Terminate(u, s, o);
    if TerminateRaises(s, o) {
      RaisingTerminateOutcome(u, first, s, o);
      assert t.signals[|s.signals|..] == if o.Barred? then [] else [Sent(KILL, PidOf(s))];
      HeldInv(u, first, s, t);
    } else {
      TerminateOutcome(u, first, s, o);
      assert t.signals[|s.signals|..] == if PidOf(s) != 0 then [Sent(KILL, PidOf(s))] else [];
      DownInv(u, first, s, t);
    }
  }

  lemma HookMatches(u: Setup, first: nat, s: State)
    requires Inv(u, first, s)
    ensures s.hookFlag <==> s.hooks > 0
  {
  }

  /** The daemon disappears without the object's doing. */
  lemma LostInv(u: Setup, first: nat, s: State, e: Event)
    requires Inv(u, first, s) && (e.Crash? || e.AskedToShutDown?)
    ensures Inv(u, first, Step(u, s, e))
  {
    PidTells(u, first, s);
    if PidOf(s) != 0 {
      assert Step(u, s, e).live == {};
    } else {
      assert s.live == {} && s.live - {0} == {};
      assert s.daemons - {0} == map[];
    }
  }

  lemma ServeInv(u: Setup, first: nat, s: State, e: Event)
    requires Inv(u, first, s) && (e.Put? || e.Snapshot?)
    ensures Inv(u, first, Step(u, s, e))
  {
    PidTells(u, first, s);
    if PidOf(s) != 0 {
      assert Step(u, s, e).daemons.Keys == s.daemons.Keys;
      assert InPlace(u, s, PidOf(s));
    }
  }

  lemma StepInv(u: Setup, first: nat, s: State, e: Event)
    requires Inv(u, first, s)
    ensures Inv(u, first, Step(u, s, e))
  {
    match e
    case StartUp(seen) => StartInv(u, first, s, seen);
    case StopDown(seen) => StopInv(u, first, s, seen);
    case ProcessExit(seen) => StopInv(u, first, s, seen);
    case TerminateNow(o) => TerminateInv(u, first, s, o);
    case Crash => LostInv(u, first, s, e);
    case AskedToShutDown(_) => LostInv(u, first, s, e);
    case Put(_, _) => ServeInv(u, first, s, e);
    case Snapshot => ServeInv(u, first, s, e);
  }

  lemma {:induction false} RunInv(u: Setup, s0: State, es: seq<Event>)
    requires Fresh(u, s0)
    ensures Inv(u, s0.nextPid, After(u, s0, es))
    decreases |es|
  {
    if es == [] {
      FreshInv(u, s0);
    } else {
      RunInv(u, s0, es[..|es| - 1]);
      StepInv(u, s0.nextPid, After(u, s0, es[..|es| - 1]), es[|es| - 1]);
    }
  }

  // ---- Safety of every run ----

  /** A stop or a termination that does not raise. */
  predicate Ends(s: State, e: Event) {
    (e.StopDown? && !StopRaises(s, e.stop)) || (e.TerminateNow? && !TerminateRaises(s, e.obstacle))
  }

  /** No start came after the last stop or termination that did not raise. */
  predicate LastCommandEnds(u: Setup, s0: State, es: seq<Event>) {
    es != [] &&
    var init, e := es[..|es| - 1], es[|es| - 1];
    Ends(After(u, s0, init), e) || (!e.StartUp? && LastCommandEnds(u, s0, init))
  }

  /** Nothing runs, nothing is exposed, no runtime file is left, and the directory is there iff kept. */
  predicate AllDown(u: Setup, t: State) {
    && t.daemons == map[] && t.live == {} && t.port.None? && t.dir == Kept(u)
    && t.pidfile.None? && !t.socket && !t.conf && !t.socketDir
  }

  lemma {:induction false} EndedStaysDown(u: Setup, s0: State, es: seq<Event>)
    requires Fresh(u, s0) && LastCommandEnds(u, s0, es)
    ensures AllDown(u, After(u, s0, es))
    decreases |es|
  {
    hide AllDown, Inv, Step;
    var before := es[..|es| - 1];
    var s, e := After(u, s0, before), es[|es| - 1];
    RunInv(u, s0, before);
    if Ends(s, e) {
      DirGoesOnlyIfOwned(u, s0, before);
      EndIsDown(u, s0.nextPid, s, e);
    } else {
      EndedStaysDown(u, s0, before);
      DownStaysDown(u, s0.nextPid, s, e);
    }
  }

  lemma EndIsDown(u: Setup, first: nat, s: State, e: Event)
    requires Inv(u, first, s) && Ends(s, e) && (Kept(u) ==> s.dir)
    ensures AllDown(u, Step(u, s, e))
  {
    hide Inv, Stop, Terminate;
    if e.StopDown? {
      StopOutcome(u, first, s, e.stop);
    } else {
      TerminateOutcome(u, first, s, e.obstacle);
    }
  }

  lemma DownStaysDown(u: Setup, first: nat, s: State, e: Event)
    requires Inv(u, first, s) && AllDown(u, s) && !e.StartUp? && !Ends(s, e)
    ensures AllDown(u, Step(u, s, e))
  {
    if e.ProcessExit? && s.hooks > 0 {
      StopOutcome(u, first, s, e.stop);
    }
  }

  lemma DirGoesOnlyIfOwned(u: Setup, s0: State, es: seq<Event>)
    requires Fresh(u, s0)
    ensures Kept(u) ==> After(u, s0, es).dir
  {
    RunInv(u, s0, es);
  }

  /** Over every run: never more than one live daemon, and the pid property shows exactly it; its
      pidfile, sockets and port are its own; a requested port is the only port ever exposed; the flag
      says whether an exit hook is registered, and one is whenever a daemon lives; every signal went to
      a daemon that this object launched; after a stop or a termination that did not raise nothing runs, no
      port is exposed, and the directory is there exactly if it is the user's or persists. */
  lemma EveryServerRun(u: Setup, s0: State, es: seq<Event>)
    requires Fresh(u, s0)
    ensures var t := After(u, s0, es);
            && t.live == t.daemons.Keys == (if PidOf(t) == 0 then {} else {PidOf(t)})
            && (forall p <- t.daemons :: InPlace(u, t, p) && IsRunning(t))
            && (u.requested.Some? && t.port.Some? ==> t.port == u.requested)
            && (t.hookFlag <==> t.hooks > 0)
            && (forall sig <- t.signals :: s0.nextPid <= sig.pid < t.nextPid)
            && (LastCommandEnds(u, s0, es) ==> t.daemons == map[] && t.port.None? && t.dir == Kept(u))
  {
    RunInv(u, s0, es);
    PidTells(u, s0.nextPid, After(u, s0, es));
    if LastCommandEnds(u, s0, es) {
      EndedStaysDown(u, s0, es);
    }
  }

  /** A stop that raises can be retried: the object still exposes its port, its hook is still registered,
      and the next stop that does not raise takes everything down. */
  lemma RaisingStopIsRetryable(u: Setup, first: nat, s: State, seen: StopSeen, again: StopSeen)
    requires Inv(u, first, s) && StopRaises(s, seen) && !again.raises
    ensures var t := Stop(u, s, seen);
            && t.port == s.port && t.port.Some? && t.hookFlag && t.hooks == s.hooks && t.dir == s.dir
            && t.conf == s.conf
            && (t.daemons == map[] <==> GoesDown(s, seen))
            && Down(u, t, Stop(u, t, again)) && Stop(u, t, again).hooks == 0
  {
    PidTells(u, first, s);
    StopInv(u, first, s, seen);
    RaisingStopOutcome(u, first, s, seen);
    var t := Stop(u, s, seen);
    hide Stop, Inv, Down;
    StopOutcome(u, first, t, again);
  }

  /** After a stop that did not raise, another one does nothing, whatever the outside does during it. */
  lemma SecondStopIsNoOp(u: Setup, first: nat, s: State, seen: StopSeen, again: StopSeen)
    requires Inv(u, first, s) && !StopRaises(s, seen)
    ensures Stop(u, Stop(u, s, seen), again) == Stop(u, s, seen)
  {
    StopOutcome(u, first, s, seen);
    var t := Stop(u, s, seen);
    hide Stop;
    StopWhenDown(u, s, t, again);
  }

  lemma StopWhenDown(u: Setup, s: State, t: State, again: StopSeen)
    requires Down(u, s, t) && !t.hookFlag && t.hooks == 0 && (!Kept(u) ==> t.rdb.None?)
    ensures Stop(u, t, again) == t
  {
  }

  /** The object neither stops its server nor loses it. */
  predicate KeepsServing(e: Event) {
    e.StartUp? || e.Put? || e.Snapshot?
  }

  /** While a server runs, starts change nothing, and nothing but a stop, a termination, a crash, a
      foreign SHUTDOWN or the exit of the process changes its pid and port. */
  lemma {:induction false} RunningServerIsStable(u: Setup, first: nat, s: State, es: seq<Event>)
    requires Inv(u, first, s) && IsRunning(s) && forall e <- es :: KeepsServing(e)
    ensures Inv(u, first, After(u, s, es))
    ensures PidOf(After(u, s, es)) == PidOf(s) && After(u, s, es).port == s.port
    ensures After(u, s, es).signals == s.signals && After(u, s, es).hooks == s.hooks
    decreases |es|
  {
    if es == [] {
    } else {
      RunningServerIsStable(u, first, s, es[..|es| - 1]);
      StepInv(u, first, After(u, s, es[..|es| - 1]), es[|es| - 1]);
      assert KeepsServing(es[|es| - 1]);
    }
  }

  /** After a stop or a termination, a faultless start brings the server up again exactly if the
      directory was kept; otherwise it fails, and yet exposes the port. */
  lemma RestartNeedsAKeptDirectory(u: Setup, s0: State, es: seq<Event>, free: nat)
    requires Fresh(u, s0) && LastCommandEnds(u, s0, es)
    ensures var r := Start(u, After(u, s0, es), StartSeen(NoFault, free, true, true));
            && (r.ok <==> Kept(u)) && (IsRunning(r.state) <==> Kept(u)) && r.state.port.Some?
  {
    EndedStaysDown(u, s0, es);
    RunInv(u, s0, es);
    StartOutcome(u, s0.nextPid, After(u, s0, es), StartSeen(NoFault, free, true, true));
  }

  /** When the process exits and the exit hook does not raise, no daemon outlives it. A temporary,
      non-persistent directory outlives it exactly if it is still there and no hook is registered: the
      object was never started, or its starts failed before launching. If the hook raises, the directory
      stays, and the daemon does exactly if neither SHUTDOWN nor SIGTERM got through. */
  lemma AtExit(u: Setup, s0: State, es: seq<Event>, seen: StopSeen)
    requires Fresh(u, s0)
    ensures var s, t := After(u, s0, es), After(u, s0, es + [ProcessExit(seen)]);
            if StopRaises(s, seen) then
              t.dir == s.dir && t.hooks == s.hooks && (t.daemons == map[] <==> GoesDown(s, seen))
            else
              && t.daemons == map[] && t.live == {} && t.hooks == 0
              && (!Kept(u) ==> (t.dir <==> s.dir && s.hooks == 0))
  {
    var all := es + [ProcessExit(seen)];
    assert all[..|all| - 1] == es;
    var s := After(u, s0, es);
    RunInv(u, s0, es);
    PidTells(u, s0.nextPid, s);
    if StopRaises(s, seen) {
      RaisingStopOutcome(u, s0.nextPid, s, seen);
    } else if s.hooks > 0 {
      StopOutcome(u, s0.nextPid, s, seen);
    }
  }

  /** Why one object per directory is assumed: beside a daemon that another object started there, a
      start makes a second one exactly if this object exposes no port and the start launches. */
  lemma OneObjectPerDirectory(u: Setup, s: State, seen: StartSeen)
    requires PidOf(s) in s.daemons && s.daemons.Keys == s.live == {PidOf(s)} && PidOf(s) < s.nextPid && s.dir
    requires PidOf(s) != 0
    ensures |Start(u, s, seen).state.live| == 2 <==> s.port.None? && seen.up && Launches(u, seen.fault)
  {
    StartLive(u, s, seen);
    hide Start;
    assert PidOf(s) != s.nextPid;
    assert |{PidOf(s)} + {s.nextPid}| == 2;
    assert |s.live| == 1;
  }

  lemma StartLive(u: Setup, s: State, seen: StartSeen)
    requires s.dir
    ensures Start(u, s, seen).state.live ==
              if !IsRunning(s) && seen.up && Launches(u, seen.fault) then s.live + {s.nextPid} else s.live
  {
    hide Bring;
    if !IsRunning(s) && !(u.requested.None? && seen.fault.PortFault?) {
      var port := if u.requested.Some? then u.requested.value else seen.free;
      BringLive(u, s.(port := Some(port)), seen);
    }
  }

  lemma BringLive(u: Setup, s: State, seen: StartSeen)
    requires s.dir && s.port.Some?
    ensures Bring(u, s, seen).state.live == if seen.up && Passes(u, seen.fault) then s.live + {s.nextPid} else s.live
  {
    if Passes(u, seen.fault) {
      BringPasses(u, s, seen);
    }
  }

  // ---- The data over whole runs ----

  /** This event writes the dataset to disk. */
  predicate Saves(u: Setup, s: State, e: Event) {
    Memory(s).Some? &&
    match e
    case Snapshot => true
    case AskedToShutDown(save) => save
    case StopDown(seen) => SavingStop(u, s, seen)
    case ProcessExit(seen) => SavingStop(u, s, seen)
    case _ => false
  }

  lemma DiskStep(u: Setup, first: nat, s: State, e: Event)
    requires Inv(u, first, s) && Kept(u)
    ensures Disk(Step(u, s, e)) == if Saves(u, s, e) then Memory(s).value else Disk(s)
  {
    PidTells(u, first, s);
    match e
    case StartUp(seen) => StartOutcome(u, first, s, seen);
    case StopDown(seen) => DiskAfterStop(u, first, s, seen);
    case ProcessExit(seen) => DiskAfterStop(u, first, s, seen);
    case TerminateNow(o) =>
      if TerminateRaises(s, o) {
        RaisingTerminateOutcome(u, first, s, o);
      } else {
        TerminateOutcome(u, first, s, o);
      }
    case _ =>
  }

  lemma DiskAfterStop(u: Setup, first: nat, s: State, seen: StopSeen)
    requires Inv(u, first, s) && Kept(u)
    ensures Disk(Stop(u, s, seen)) == if Memory(s).Some? && SavingStop(u, s, seen) then Memory(s).value else Disk(s)
    ensures Memory(s).Some? <==> PidOf(s) != 0
    ensures Memory(s).Some? ==> s.hooks > 0
  {
    PidTells(u, first, s);
    if StopRaises(s, seen) {
      RaisingStopOutcome(u, first, s, seen);
    } else {
      StopOutcome(u, first, s, seen);
    }
  }

  /** Event number i of the run saves. */
  predicate SavesAt(u: Setup, s0: State, es: seq<Event>, i: nat)
    requires i < |es|
  {
    Saves(u, After(u, s0, es[..i]), es[i])
  }

  ghost predicate NoSave(u: Setup, s0: State, es: seq<Event>) {
    forall i: nat :: i < |es| ==> !SavesAt(u, s0, es, i)
  }

  ghost predicate LastSave(u: Setup, s0: State, es: seq<Event>, i: nat) {
    i < |es| && SavesAt(u, s0, es, i) && forall j: nat :: i < j < |es| ==> !SavesAt(u, s0, es, j)
  }

  lemma OneMoreEvent(u: Setup, s0: State, es: seq<Event>)
    requires es != []
    ensures var init, n := es[..|es| - 1], |es| - 1;
            && (NoSave(u, s0, es) <==> NoSave(u, s0, init) && !SavesAt(u, s0, es, n))
            && (forall i: nat :: LastSave(u, s0, es, i) <==>
                  if i == n then SavesAt(u, s0, es, n) else LastSave(u, s0, init, i) && !SavesAt(u, s0, es, n))
            && (forall i: nat :: LastSave(u, s0, init, i) ==> i < n && init[..i] == es[..i])
  {
    hide SavesAt;
    EarlierSaves(u, s0, es);
  }

  lemma EarlierSaves(u: Setup, s0: State, es: seq<Event>)
    requires es != []
    ensures var init := es[..|es| - 1];
            forall i: nat :: i < |init| ==> SavesAt(u, s0, init, i) == SavesAt(u, s0, es, i) && init[..i] == es[..i]
  {
    hide Saves, After;
    var init := es[..|es| - 1];
    forall i: nat | i < |init| ensures SavesAt(u, s0, init, i) == SavesAt(u, s0, es, i) && init[..i] == es[..i] {
      assert init[..i] == es[..i];
    }
  }

  /** In a kept directory the RDB always holds the complete dataset that was being served at the last
      event that saved, or what it held at first if none did. */
  lemma {:induction false} DiskIsLastSave(u: Setup, s0: State, es: seq<Event>)
    requires Fresh(u, s0) && Kept(u)
    ensures NoSave(u, s0, es) ==> Disk(After(u, s0, es)) == Disk(s0)
    ensures forall i: nat :: LastSave(u, s0, es, i) ==>
              Some(Disk(After(u, s0, es))) == Memory(After(u, s0, es[..i]))
    decreases |es|
  {
    hide After, SavesAt, Inv, Disk, Memory, NoSave, LastSave;
    if es == [] {
      NothingYet(u, s0);
    } else {
      DiskIsLastSave(u, s0, es[..|es| - 1]);
      DiskAfterLast(u, s0, es);
      OneMoreEvent(u, s0, es);
    }
  }

  lemma NothingYet(u: Setup, s0: State)
    ensures After(u, s0, []) == s0
    ensures forall i: nat :: !LastSave(u, s0, [], i)
  {
  }

  lemma DiskAfterLast(u: Setup, s0: State, es: seq<Event>)
    requires Fresh(u, s0) && Kept(u) && es != []
    ensures var n, before := |es| - 1, After(u, s0, es[..|es| - 1]);
            && es[..n] == es[..|es| - 1]
            && if SavesAt(u, s0, es, n) then Some(Disk(After(u, s0, es))) == Memory(before)
               else Disk(After(u, s0, es)) == Disk(before)
  {
    hide Inv, Step;
    var n, init := |es| - 1, es[..|es| - 1];
    RunInv(u, s0, init);
    DiskStep(u, s0.nextPid, After(u, s0, init), es[n]);
    assert es[..n] == init;
  }

  /** Some event of the first `upTo` was the last to save, or none saved. */
  lemma {:induction false} FindLastSave(u: Setup, s0: State, es: seq<Event>, upTo: nat) returns (last: Option<nat>)
    requires upTo <= |es|
    ensures last.None? ==> forall i: nat :: i < upTo ==> !SavesAt(u, s0, es, i)
    ensures last.Some? ==> last.value < upTo && SavesAt(u, s0, es, last.value)
                           && forall j: nat :: last.value < j < upTo ==> !SavesAt(u, s0, es, j)
  {
    hide SavesAt;
    if upTo == 0 {
      last := None;
    } else if SavesAt(u, s0, es, upTo - 1) {
      last := Some(upTo - 1);
    } else {
      last := FindLastSave(u, s0, es, upTo - 1);
    }
  }

  /** Every start in every run loads a dataset that was complete at an earlier moment: the one served at
      the last save before it, or the one found on disk at first. */
  lemma EveryStartLoadsTheLastSave(u: Setup, s0: State, es: seq<Event>, seen: StartSeen)
    requires Fresh(u, s0) && Kept(u)
    requires !IsRunning(After(u, s0, es)) && IsRunning(After(u, s0, es + [StartUp(seen)]))
    ensures var loaded := Memory(After(u, s0, es + [StartUp(seen)]));
            if NoSave(u, s0, es) then loaded == Some(Disk(s0))
            else exists i: nat :: LastSave(u, s0, es, i) && loaded == Memory(After(u, s0, es[..i]))
  {
    var all := es + [StartUp(seen)];
    assert all[..|all| - 1] == es;
    RunInv(u, s0, es);
    var s := After(u, s0, es);
    StartOutcome(u, s0.nextPid, s, seen);
    assert After(u, s0, all) == Start(u, s, seen).state;
    DiskIsLastSave(u, s0, es);
    var last := FindLastSave(u, s0, es, |es|);
    hide After, Start, Inv, SavesAt;
    if last.Some? {
      assert LastSave(u, s0, es, last.value);
    } else {
      assert NoSave(u, s0, es);
    }
  }

  /** What a client would read: the served dataset, else what the next start would load. */
  function Contents(s: State): Data {
    if Memory(s).Some? then Memory(s).value else Disk(s)
  }

  /** The server outlives a stop that raises. */
  predicate Outlives(s: State, seen: StopSeen) {
    StopRaises(s, seen) && !GoesDown(s, seen)
  }

  /** In a kept directory, a stop preserves the contents exactly if nothing ran, or it saves, or
      there was nothing new to save, or the server outlives it. A persisting stop whose SHUTDOWN is
      refused may therefore lose data, and a non-persisting one may overwrite the last snapshot:
      both turn on how the daemon meets SIGTERM. */
  lemma StopKeepsContents(u: Setup, first: nat, s: State, seen: StopSeen)
    requires Inv(u, first, s) && Kept(u)
    ensures Contents(Stop(u, s, seen)) == Contents(s) <==>
              !IsRunning(s) || SavingStop(u, s, seen) || Contents(s) == Disk(s) || Outlives(s, seen)
    ensures Disk(Stop(u, s, seen)) == Disk(s) <==>
              !IsRunning(s) || !SavingStop(u, s, seen) || Contents(s) == Disk(s)
  {
    PidTells(u, first, s);
    DiskAfterStop(u, first, s, seen);
    if StopRaises(s, seen) {
      RaisingStopOutcome(u, first, s, seen);
    } else {
      StopOutcome(u, first, s, seen);
    }
  }

  /** No event of the run loses the dataset in memory: every stop saves, nothing kills the daemon. */
  predicate Careful(u: Setup, s: State, e: Event) {
    match e
    case StopDown(seen) => SavingStop(u, s, seen) || Outlives(s, seen)
    case ProcessExit(seen) => SavingStop(u, s, seen) || Outlives(s, seen)
    case AskedToShutDown(save) => save
    case TerminateNow(o) => Memory(s).None? || o.Barred?
    case Crash => Memory(s).None?
    case _ => true
  }

  ghost predicate CarefulRun(u: Setup, s0: State, es: seq<Event>) {
    forall i: nat :: i < |es| ==> Careful(u, After(u, s0, es[..i]), es[i])
  }

  /** The writes of a run that reached a serving daemon, applied to one map. */
  function Written(u: Setup, s0: State, es: seq<Event>): Data {
    if es == [] then Disk(s0) else
    var init, e := es[..|es| - 1], es[|es| - 1];
    if e.Put? && IsRunning(After(u, s0, init)) then Written(u, s0, init)[e.key := e.value]
    else Written(u, s0, init)
  }

  lemma ContentsStep(u: Setup, first: nat, s: State, e: Event)
    requires Inv(u, first, s) && Kept(u) && Careful(u, s, e)
    ensures Contents(Step(u, s, e)) ==
              if e.Put? && IsRunning(s) then Contents(s)[e.key := e.value] else Contents(s)
  {
    PidTells(u, first, s);
    match e
    case StartUp(seen) =>
      StartOutcome(u, first, s, seen);
      StartInv(u, first, s, seen);
      PidTells(u, first, Start(u, s, seen).state);
    case StopDown(seen) => StopKeepsContents(u, first, s, seen);
    case ProcessExit(seen) => StopKeepsContents(u, first, s, seen);
    case TerminateNow(o) =>
      if TerminateRaises(s, o) {
        RaisingTerminateOutcome(u, first, s, o);
      } else {
        TerminateOutcome(u, first, s, o);
      }
    case _ =>
  }

  lemma CarefulPrefix(u: Setup, s0: State, es: seq<Event>)
    requires es != [] && CarefulRun(u, s0, es)
    ensures CarefulRun(u, s0, es[..|es| - 1])
    ensures Careful(u, After(u, s0, es[..|es| - 1]), es[|es| - 1])
  {
    var init := es[..|es| - 1];
    forall i: nat | i < |init| ensures Careful(u, After(u, s0, init[..i]), init[i]) {
      assert init[..i] == es[..i];
    }
  }

  /** A run whose stops all save or leave the server up, and whose daemon is never killed, is one
      persistent map: across any number of restarts, the contents are the initial ones with every
      accepted write applied in order. */
  lemma {:induction false} CarefulRunsAreOneMap(u: Setup, s0: State, es: seq<Event>)
    requires Fresh(u, s0) && Kept(u) && CarefulRun(u, s0, es)
    ensures Contents(After(u, s0, es)) == Written(u, s0, es)
    decreases |es|
  {
    if es == [] {
    } else {
      var init := es[..|es| - 1];
      CarefulPrefix(u, s0, es);
      CarefulRunsAreOneMap(u, s0, init);
      RunInv(u, s0, init);
      ContentsStep(u, s0.nextPid, After(u, s0, init), es[|es| - 1]);
    }
  }
}
