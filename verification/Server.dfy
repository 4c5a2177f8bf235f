/** `ValkeyServer` from server.py: an object whose methods update its own fields, the files of its
    directory, the process table and the exit hooks step by step. Each method is proved against the
    specification function of the same operation in `ServerWorld`. */
module Server {
  import opened Wrappers
  import opened Processes
  import opened ServerWorld

  /** The machine around the object. */
  class Machine {
    const procs: Table
    var dir: bool
    var pidfile: Option<Pidfile>
    var socket: bool
    var conf: bool
    var rdb: Option<Data>
    var socketDir: bool
    var daemons: map<nat, Serving>
    var listeners: map<nat, nat>
    var hooks: nat
    var nextPid: nat

    /** A data directory with whatever an earlier server left in it, and no process. */
    constructor (dir: bool, pidfile: Option<Pidfile>, socket: bool, conf: bool, rdb: Option<Data>, nextPid: nat)
      ensures fresh(procs) && procs.live == {} && procs.signals == []
      ensures this.dir == dir && this.pidfile == pidfile && this.socket == socket && this.conf == conf
      ensures this.rdb == rdb && !socketDir && daemons == map[] && listeners == map[] && hooks == 0
      ensures this.nextPid == nextPid
    {
      procs := new Table();
      this.dir, this.pidfile, this.socket, this.conf, this.rdb := dir, pidfile, socket, conf, rdb;
      socketDir, daemons, listeners, hooks, this.nextPid := false, map[], map[], 0, nextPid;
    }

    /** An orderly stop of a serving daemon. */
    method EndService(pid: nat, save: bool)
      requires pid in daemons
      modifies this`rdb, this`daemons, this`pidfile, this`socket
      ensures rdb == if save then Some(old(daemons)[pid].data) else old(rdb)
      ensures daemons == old(daemons) - {pid} && pidfile == None && !socket
    {
      if save {
        rdb := Some(daemons[pid].data);
      }
      daemons, pidfile, socket := daemons - {pid}, None, false;
    }

    /** The daemon writes its pidfile, binds its socket and port, and loads the RDB. */
    method Spawn(port: nat)
      modifies this, procs
      ensures procs.live == old(procs.live) + {old(nextPid)} && procs.signals == old(procs.signals)
      ensures daemons == old(daemons)[old(nextPid) := Serving(port, if rdb.Some? then rdb.value else map[])]
      ensures listeners == if port > 0 then old(listeners)[port := old(nextPid)] else old(listeners)
      ensures pidfile == Some(Pid(old(nextPid))) && socket && nextPid == old(nextPid) + 1
      ensures dir == old(dir) && conf == old(conf) && rdb == old(rdb)
      ensures socketDir == old(socketDir) && hooks == old(hooks)
      ensures procs.now == old(procs.now) && procs.naps == old(procs.naps)
    {
      procs.live := procs.live + {nextPid};
      daemons := daemons[nextPid := Serving(port, if rdb.Some? then rdb.value else map[])];
      if port > 0 {
        listeners := listeners[port := nextPid];
      }
      pidfile, socket, nextPid := Some(Pid(nextPid)), true, nextPid + 1;
    }
  }

  /** What the outside is about to do during a start and during a stop. */
  datatype StartPlan = StartPlan(fault: Fault, free: nat, up: bool, replies: nat -> Reply)

  datatype StopPlan = StopPlan(accepted: bool, behaviour: Behaviour, obstacle: Obstacle)

  class ValkeyServer {
    const machine: Machine
    const requested: Option<nat>
    const persist: bool
    const ownsDir: bool
    const farSocket: bool
    var port: Option<nat>
    var hookFlag: bool

    /** `__init__`: create the temporary directory or the user's, and place the socket. */
    constructor (machine: Machine, requested: Option<nat>, dataDirGiven: bool, persist: bool, overflows: bool)
      requires machine.procs.live == {} && machine.procs.signals == [] && machine.nextPid > 0
      requires machine.daemons == map[] && machine.listeners == map[] && machine.hooks == 0 && !machine.socketDir
      requires !dataDirGiven ==> machine.rdb.None? && machine.pidfile.None?
      modifies machine
      ensures this.machine == machine
      ensures Fixed() == Setup(requested, !dataDirGiven, persist, overflows) && Fresh(Fixed(), Now())
      ensures machine.rdb == old(machine.rdb) && machine.pidfile == old(machine.pidfile)
      ensures machine.socket == old(machine.socket) && machine.conf == old(machine.conf)
      ensures machine.nextPid == old(machine.nextPid)
    {
      this.machine, this.requested, this.persist := machine, requested, persist;
      ownsDir, farSocket := !dataDirGiven, overflows;
      port, hookFlag := None, false;
      new;
      machine.dir := true;
      if overflows {
        machine.socketDir := true;
      }
    }

    ghost function Fixed(): Setup {
      Setup(requested, ownsDir, persist, farSocket)
    }

    ghost function Now(): State
      reads this, machine, machine.procs
    {
      State(port, hookFlag, machine.dir, machine.pidfile, machine.socket, machine.conf, machine.rdb,
            machine.socketDir, machine.procs.live, machine.procs.signals, machine.daemons,
            machine.listeners, machine.hooks, machine.nextPid)
    }

    /** The `pid` property. */
    method ReadPid() returns (pid: nat)
      ensures pid == PidOf(Now())
    {
      if machine.pidfile.None? || machine.pidfile.value.Garbled? {
        return 0;
      }
      var n := machine.pidfile.value.n;
      pid := if n in machine.procs.live then n else 0;
    }

    /** `is_running`. */
    method Running() returns (yes: bool)
      ensures yes == IsRunning(Now())
    {
      if port.None? {
        return false;
      }
      var pid := ReadPid();
      yes := pid != 0;
    }

    /** `start`. Readiness is polled at most 100 times within the default 10 s. */
    method Start(timeout: real, plan: StartPlan) returns (ok: bool, seen: StartSeen, polls: nat)
      modifies this, machine, machine.procs
      ensures seen.fault == plan.fault && seen.free == plan.free && seen.up == plan.up
      ensures Started(Now(), ok) == ServerWorld.Start(Fixed(), old(Now()), seen)
      ensures seen.ready <==> polls > 0 && plan.replies(polls - 1) == Pong
      ensures ok <==> IsRunning(old(Now())) || (polls > 0 && plan.replies(polls - 1) == Pong)
      ensures !ok && old(machine.dir) && Launches(Fixed(), plan.fault) ==>
                || machine.procs.now >= old(machine.procs.now) + timeout
                || (polls > 0 && plan.replies(polls - 1) == OtherError)
      ensures timeout <= 10.0 ==> polls <= 100
    {
      hide Bring;
      seen, polls := StartSeen(plan.fault, plan.free, plan.up, false), 0;
      var running := Running();
      if running {
        return true, seen, 0;
      }
      if requested.Some? {
        port := requested;
      } else {
        if plan.fault.PortFault? {
          return false, seen, 0;
        }
        port := Some(plan.free);
      }
      ok, seen, polls := LaunchAndWait(timeout, plan);
    }

    /** `start` after the choice of the port. */
    method LaunchAndWait(timeout: real, plan: StartPlan) returns (ok: bool, seen: StartSeen, polls: nat)
      requires port.Some?
      modifies this`hookFlag, machine, machine.procs
      ensures seen.fault == plan.fault && seen.free == plan.free && seen.up == plan.up
      ensures Started(Now(), ok) == Bring(Fixed(), old(Now()), seen)
      ensures seen.ready <==> polls > 0 && plan.replies(polls - 1) == Pong
      ensures ok <==> polls > 0 && plan.replies(polls - 1) == Pong
      ensures !ok && old(machine.dir) && Passes(Fixed(), plan.fault) ==>
                || machine.procs.now >= old(machine.procs.now) + timeout
                || (polls > 0 && plan.replies(polls - 1) == OtherError)
      ensures timeout <= 10.0 ==> polls <= 100
    {
      hide ServerWorld.WriteAndLaunch;
      ok, seen, polls := false, StartSeen(plan.fault, plan.free, plan.up, false), 0;
      var launched := WriteAndLaunch(plan.fault, plan.up);
      if launched {
        machine.hooks := machine.hooks + 1;
        hookFlag := true;
        ok, polls := WaitUntilReady(timeout, plan.replies);
        seen := seen.(ready := ok);
      }
    }

    /** `_wait_until_ready`. */
    method WaitUntilReady(timeout: real, replies: nat -> Reply) returns (ok: bool, polls: nat)
      modifies machine.procs
      ensures Now() == old(Now())
      ensures ok <==> polls > 0 && replies(polls - 1) == Pong
      ensures forall k: nat :: k < polls - 1 ==> replies(k) in {Falsy, Refused}
      ensures !ok && (polls == 0 || replies(polls - 1) != OtherError) ==>
                && machine.procs.now >= old(machine.procs.now) + timeout
                && machine.procs.naps == old(machine.procs.naps) + Naps(polls, 0.1)
      ensures timeout <= 10.0 ==> polls <= 100
    {
      var r;
      r, polls := machine.procs.WaitUntilReady(timeout, replies);
      ok := r.Ready?;
      if timeout <= 10.0 {
        PollsAreBounded(polls, timeout, 0.1, 100);
      }
    }

    /** The middle of `start`: socket directory, valkey.conf, binary, launcher. */
    method WriteAndLaunch(fault: Fault, up: bool) returns (launched: bool)
      requires port.Some?
      modifies machine, machine.procs
      ensures Started(Now(), launched) == ServerWorld.WriteAndLaunch(Fixed(), old(Now()), fault, up)
      ensures launched <==> old(machine.dir) && Passes(Fixed(), fault)
      ensures machine.procs.now == old(machine.procs.now)
    {
      launched := false;
      if farSocket {
        if fault.SocketDirFault? {
          return;
        }
        machine.socketDir := true;
      }
      if !machine.dir {
        return;
      }
      if fault.ConfFault? {
        machine.conf := machine.conf || fault.created;
        return;
      }
      machine.conf := true;
      if fault.BinaryFault? || fault.LaunchFault? {
        return;
      }
      if up {
        machine.Spawn(port.value);
      }
      launched := true;
    }

    /** `stop`. At most 50 polls within the default 5 s. */
    method Stop(timeout: real, plan: StopPlan) returns (seen: StopSeen, polls: nat, raised: bool)
      modifies this, machine, machine.procs
      ensures seen.accepted == plan.accepted && (raised ==> !plan.obstacle.Clear?)
      ensures raised == StopRaises(old(Now()), seen)
      ensures Now() == ServerWorld.Stop(Fixed(), old(Now()), seen)
      ensures Patient(PidOf(old(Now())) != 0, machine.procs.now - old(machine.procs.now), timeout,
                      plan.behaviour, plan.obstacle, seen.ending, polls, raised)
      ensures machine.procs.naps == old(machine.procs.naps) + Pauses(polls, 0.1, plan.behaviour, seen.ending)
      ensures timeout <= 5.0 ==> polls <= 50
    {
      hide Patient, Pauses;
      var ending;
      ending, polls, raised := ShutDownAndWait(timeout, plan);
      seen := StopSeen(plan.accepted, raised, ending);
      if raised {
        return;
      }
      hide CleanupFiles;
      Cleanup();
      port := None;
      if hookFlag {
        machine.hooks := 0;
        hookFlag := false;
      }
    }

    /** The first half of `stop`, for a pid that exists. */
    method ShutDownAndWait(timeout: real, plan: StopPlan) returns (ending: Ending, polls: nat, raised: bool)
      modifies machine, machine.procs
      ensures raised ==> !plan.obstacle.Clear? && PidOf(old(Now())) != 0
      ensures Now() ==
                var s := old(Now());
                if PidOf(s) == 0 then s
                else if raised then Interrupted(Fixed(), s, StopSeen(plan.accepted, true, ending))
                else Terminated(ShutDown(s, persist, plan.accepted), PidOf(s), ending)
      ensures Patient(PidOf(old(Now())) != 0, machine.procs.now - old(machine.procs.now), timeout,
                      plan.behaviour, plan.obstacle, ending, polls, raised)
      ensures machine.procs.naps == old(machine.procs.naps) + Pauses(polls, 0.1, plan.behaviour, ending)
      ensures timeout <= 5.0 ==> polls <= 50
    {
      ending, polls, raised := Quiet, 0, false;
      var pid := ReadPid();
      if pid != 0 {
        RequestShutdown(plan.accepted);
        ending, polls, raised := Escalate(pid, timeout, plan.behaviour, plan.obstacle);
        if raised && pid !in machine.daemons {
          Vanish(pid);
        }
        if timeout <= 5.0 {
          PollsAreBounded(polls, timeout, 0.1, 50);
        }
      }
    }

    /** A process exits by itself. */
    method Vanish(pid: nat)
      modifies machine`daemons, machine.procs
      ensures Now() == Gone(old(Now()), pid)
      ensures machine.procs.now == old(machine.procs.now) && machine.procs.naps == old(machine.procs.naps)
    {
      machine.procs.live := machine.procs.live - {pid};
      machine.daemons := machine.daemons - {pid};
    }

    /** The try block of `stop`: SHUTDOWN over TCP; every exception is swallowed. */
    method RequestShutdown(accepted: bool)
      modifies machine
      ensures Now() == ShutDown(old(Now()), persist, accepted)
    {
      if accepted && port.Some? && port.value in machine.listeners {
        var p := machine.listeners[port.value];
        if p in machine.daemons && p != 0 {
          machine.EndService(p, persist);
        }
      }
    }

    /** `_terminate`. */
    method Escalate(pid: nat, timeout: real, b: Behaviour, o: Obstacle)
      returns (ending: Ending, polls: nat, raised: bool)
      modifies machine, machine.procs
      ensures raised ==> !o.Clear? && pid != 0
      ensures Now() == if raised then Halted(old(Now()), pid, ending) else Terminated(old(Now()), pid, ending)
      ensures polls > 0 ==> (polls - 1) as real * 0.1 < timeout
      ensures Patient(pid != 0 && pid in old(machine.procs.live), machine.procs.now - old(machine.procs.now), timeout,
                      b, o, ending, polls, raised)
      ensures machine.procs.naps == old(machine.procs.naps) + Pauses(polls, 0.1, b, ending)
    {
      hide Patient, Pauses;
      var there := pid != 0 && pid in machine.procs.live;
      ending, polls, raised := machine.procs.Terminate(pid, timeout, 0.1, b, o);
      if there && (!raised || ending.ByTerm?) {
        if ending.ByTerm? && pid in machine.daemons {
          machine.EndService(pid, ending.saves);
        }
        machine.daemons := machine.daemons - {pid};
      }
    }

    /** `terminate`. */
    method Terminate(o: Obstacle) returns (raised: bool)
      modifies this, machine, machine.procs
      ensures raised == TerminateRaises(old(Now()), o)
      ensures Now() == ServerWorld.Terminate(Fixed(), old(Now()), o)
    {
      raised := false;
      var pid := ReadPid();
      if pid != 0 {
        if !o.Barred? {
          Kill(pid);
        }
        if !o.Clear? {
          return true;
        }
      }
      hide CleanupFiles;
      Cleanup();
      port := None;
    }

    /** SIGKILL, and the wait that reaps the process. */
    method Kill(pid: nat)
      modifies machine`daemons, machine.procs
      ensures Now() == Gone(old(Now()).(signals := old(machine.procs.signals) + [Sent(KILL, pid)]), pid)
    {
      machine.procs.signals := machine.procs.signals + [Sent(KILL, pid)];
      machine.procs.live := machine.procs.live - {pid};
      machine.daemons := machine.daemons - {pid};
    }

    /** `_cleanup_files`. */
    method Cleanup()
      modifies machine
      ensures Now() == CleanupFiles(Fixed(), old(Now()))
    {
      if ownsDir && !persist {
        machine.dir, machine.pidfile, machine.conf, machine.rdb := false, None, false, None;
        machine.socket := machine.socket && farSocket;
      } else {
        machine.pidfile, machine.socket, machine.conf := None, false, false;
      }
      if farSocket {
        machine.socketDir, machine.socket := false, false;
      }
    }
  }
}
