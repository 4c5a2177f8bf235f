/** server.py on values: one `ValkeyServer`, the only server object of its data directory, together with
    that directory, its processes and the exit hooks, and what each operation does to them. */
module ServerWorld {
  import opened Wrappers
  import opened Processes

  type Data = map<string, string>

  datatype Pidfile = Pid(n: nat) | Garbled

  /** What the constructor arguments fix: the requested port, whether the data directory is a temporary
      one of its own, whether it persists, and whether the socket had to move to a short directory. */
  datatype Setup = Setup(requested: Option<nat>, ownsDir: bool, persist: bool, farSocket: bool)

  /** A serving daemon: the port it was started with (0: no TCP) and its dataset. */
  datatype Serving = Serving(port: nat, data: Data)

  datatype State = State(
    port: Option<nat>,
    hookFlag: bool,             // _atexit_registered
    dir: bool,                  // the data directory exists
    pidfile: Option<Pidfile>,
    socket: bool,
    conf: bool,
    rdb: Option<Data>,
    socketDir: bool,            // the short socket directory exists
    live: set<nat>,
    signals: seq<Sent>,
    daemons: map<nat, Serving>,
    listeners: map<nat, nat>,   // which pid bound a TCP port
    hooks: nat,                 // how often `stop` is registered with atexit
    nextPid: nat)

  // ---- Reading the state ----

  /** The directory outlives a stop: the user's, or persisted. */
  predicate Kept(u: Setup) {
    !u.ownsDir || u.persist
  }

  function PidOf(s: State): nat {
    if s.pidfile.Some? && s.pidfile.value.Pid? && s.pidfile.value.n in s.live then s.pidfile.value.n else 0
  }

  predicate IsRunning(s: State) {
    s.port.Some? && PidOf(s) != 0
  }

  /** The daemon that answers on the object's port, or 0. */
  function Reach(s: State): nat {
    if s.port.Some? && s.port.value in s.listeners && s.listeners[s.port.value] in s.daemons
    then s.listeners[s.port.value] else 0
  }

  /** The dataset being served. */
  function Memory(s: State): Option<Data> {
    if PidOf(s) in s.daemons then Some(s.daemons[PidOf(s)].data) else None
  }

  /** What the RDB file holds. */
  function Disk(s: State): Data {
    if s.rdb.Some? then s.rdb.value else map[]
  }

  /** A server object just constructed: nothing runs in its directory, which may hold an RDB and the
      remains of an earlier server, unless it is a new temporary one. */
  predicate Fresh(u: Setup, s: State) {
    && s.port.None? && !s.hookFlag && s.hooks == 0 && s.dir
    && s.live == {} && s.daemons == map[] && s.listeners == map[] && s.signals == []
    && s.nextPid > 0
    && s.socketDir == u.farSocket
  }

  // ---- Steps of the outside ----

  function Launch(s: State, port: nat): State {
    s.(live := s.live + {s.nextPid},
       daemons := s.daemons[s.nextPid := Serving(port, Disk(s))],
       listeners := if port > 0 then s.listeners[port := s.nextPid] else s.listeners,
       pidfile := Some(Pid(s.nextPid)),
       socket := true,
       nextPid := s.nextPid + 1)
  }

  /** A daemon stops serving in an orderly way; its process may linger. */
  function StopServing(s: State, pid: nat, save: bool): State
    requires pid in s.daemons
  {
    s.(daemons := s.daemons - {pid},
       rdb := if save then Some(s.daemons[pid].data) else s.rdb,
       pidfile := None,
       socket := false)
  }

  function Gone(s: State, pid: nat): State {
    s.(live := s.live - {pid}, daemons := s.daemons - {pid})
  }

  /** `_terminate`: wait, then SIGTERM, then SIGKILL. */
  function Terminated(s: State, pid: nat, ending: Ending): State {
    if pid == 0 || pid !in s.live then s else
    var s1 := s.(signals := s.signals + Delivered(ending, pid));
    Gone(if ending.ByTerm? && pid in s.daemons then StopServing(s1, pid, ending.saves) else s1, pid)
  }

  /** `_terminate` that raises on the way: before any signal, after a SIGTERM that ended the process, or
      after one that it resisted. */
  function Halted(s: State, pid: nat, ending: Ending): State {
    if pid == 0 || pid !in s.live then s else
    var s1 := s.(signals := s.signals + PartlyDelivered(ending, pid));
    if !ending.ByTerm? then s1
    else Gone(if pid in s.daemons then StopServing(s1, pid, ending.saves) else s1, pid)
  }

  // ---- The operations ----

  /** A failure injected into start, in the order in which start meets them. `created` says whether the
      configuration file had been created before writing it failed. */
  datatype Fault =
    | NoFault
    | PortFault
    | SocketDirFault
    | ConfFault(created: bool)
    | BinaryFault
    | LaunchFault

  /** What the outside did during a start: the fault, the free port the system offered, whether the
      launched daemon came up, and whether PING was answered in time. */
  datatype StartSeen = StartSeen(fault: Fault, free: nat, up: bool, ready: bool)

  datatype Started = Started(state: State, ok: bool)

  /** The middle of `start`: socket directory, valkey.conf, binary, launcher. `ok`: it was launched. */
  function WriteAndLaunch(u: Setup, s: State, fault: Fault, up: bool): Started
    requires s.port.Some?
  {
    if u.farSocket && fault.SocketDirFault? then Started(s, false) else
    var s1 := if u.farSocket then s.(socketDir := true) else s;
    if !s.dir then Started(s1, false)
    else if fault.ConfFault? then Started(s1.(conf := s.conf || fault.created), false)
    else if fault.BinaryFault? || fault.LaunchFault? then Started(s1.(conf := true), false)
    else Started(if up then Launch(s1.(conf := true), s.port.value) else s1.(conf := true), true)
  }

  /** The rest of `start` once the port is chosen: launch, register the exit hook, wait. */
  function Bring(u: Setup, s: State, seen: StartSeen): Started
    requires s.port.Some?
  {
    var l := WriteAndLaunch(u, s, seen.fault, seen.up);
    if !l.ok then l
    else Started(l.state.(hooks := l.state.hooks + 1, hookFlag := true), seen.ready)
  }

  /** No fault after the choice of the port keeps this start from launching. */
  predicate Passes(u: Setup, fault: Fault) {
    match fault
    case NoFault => true
    case PortFault => true
    case SocketDirFault => !u.farSocket
    case _ => false
  }

  /** No fault of this start keeps it from launching. */
  predicate Launches(u: Setup, fault: Fault) {
    Passes(u, fault) && (fault.PortFault? ==> u.requested.Some?)
  }

  /** `start`. */
  function Start(u: Setup, s: State, seen: StartSeen): Started {
    if IsRunning(s) then Started(s, true)
    else if u.requested.None? && seen.fault.PortFault? then Started(s, false)
    else Bring(u, s.(port := Some(if u.requested.Some? then u.requested.value else seen.free)), seen)
  }

  /** `_cleanup_files`. */
  function CleanupFiles(u: Setup, s: State): State {
    var s1 :=
      if Kept(u) then s.(pidfile := None, socket := false, conf := false)
      else s.(dir := false, pidfile := None, socket := s.socket && u.farSocket, conf := false, rdb := None);
    if u.farSocket then s1.(socketDir := false, socket := false) else s1
  }

  /** What the outside did during a stop: whether SHUTDOWN was accepted, whether looking at or signalling
      the process raised something that is not caught, and how the process ended, or how far the escalation
      got. */
  datatype StopSeen = StopSeen(accepted: bool, raises: bool, ending: Ending)

  function ShutDown(s: State, save: bool, accepted: bool): State {
    if accepted && Reach(s) != 0 then StopServing(s, Reach(s), save) else s
  }

  predicate StopRaises(s: State, seen: StopSeen) {
    seen.raises && PidOf(s) != 0
  }

  /** A stop that raises: SHUTDOWN went out, the escalation got as far as the ending says, nothing was
      cleaned up. A daemon that accepted SHUTDOWN exits by itself. */
  function Interrupted(u: Setup, s: State, seen: StopSeen): State {
    var s1 := Halted(ShutDown(s, u.persist, seen.accepted), PidOf(s), seen.ending);
    if PidOf(s) in s1.daemons then s1 else Gone(s1, PidOf(s))
  }

  /** `stop`. */
  function Stop(u: Setup, s: State, seen: StopSeen): State {
    if StopRaises(s, seen) then Interrupted(u, s, seen) else
    var pid := PidOf(s);
    var s1 := if pid != 0 then Terminated(ShutDown(s, u.persist, seen.accepted), pid, seen.ending) else s;
    var s2 := CleanupFiles(u, s1).(port := None);
    if s.hookFlag then s2.(hooks := 0, hookFlag := false) else s2
  }

  predicate TerminateRaises(s: State, o: Obstacle) {
    !o.Clear? && PidOf(s) != 0
  }

  /** `terminate`: SIGKILL, no save. The exit hook stays. If it raises, before the signal or while waiting
      for the process to go, nothing is cleaned up. */
  function Terminate(u: Setup, s: State, o: Obstacle): State {
    var pid := PidOf(s);
    var s1 := if pid != 0 && !o.Barred? then Gone(s.(signals := s.signals + [Sent(KILL, pid)]), pid) else s;
    if TerminateRaises(s, o) then s1 else CleanupFiles(u, s1).(port := None)
  }
}
