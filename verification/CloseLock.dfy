/** `_cleanup` called by any number of threads on one client object, at the grain of its statements.
    A thread makes one call; the outside may let the ownership check or the process cleanup raise. */
module CloseLock {
  import opened Wrappers

  type Thread = nat

  /** Where a call stands. `Unwinding(complete)` is the finally block before the upstream close, and
      `Releasing(raised)` the way out of the `with` block after it. */
  datatype Pc =
    | Waiting
    | Entered
    | Counting
    | Capturing
    | Shutting
    | Terminating
    | Removing
    | Retiring
    | Unhooking
    | Idling
    | Unwinding(complete: bool)
    | Releasing(raised: bool)
    | Done(raised: bool)

  /** One client object: its lock, `running`, its atexit hook, and what was done so far. */
  datatype State = State(
    shared: bool,
    lock: Option<Thread>,
    running: bool,
    hook: bool,
    pcs: map<Thread, Pc>,
    shutdowns: nat,
    failures: nat,
    upstream: map<Thread, nat>)

  /** What the outside answers to a check or a cleanup. */
  datatype Reply = Raises | Last | NotLast

  function Start(shared: bool): State {
    State(shared, None, true, true, map[], 0, 0, map[])
  }

  predicate Inside(pc: Pc) {
    !pc.Waiting? && !pc.Done?
  }

  predicate CanStep(s: State, t: Thread) {
    if t !in s.pcs then true
    else if s.pcs[t].Waiting? then s.lock.None?
    else Inside(s.pcs[t])
  }

  /** How often a call has closed the upstream client. */
  function Closes(s: State, t: Thread): nat {
    if t in s.upstream then s.upstream[t] else 0
  }

  /** The statement after this one. */
  function Following(pc: Pc, shared: bool, running: bool, reply: Reply): Pc {
    match pc
    case Waiting => Entered
    case Entered => if !running then Idling else if shared then Counting else Capturing
    case Counting => (match reply case Raises => Unwinding(false) case Last => Capturing case NotLast => Retiring)
    case Capturing => Shutting
    case Shutting => Terminating
    case Terminating => if reply.Raises? then Unwinding(false) else Removing
    case Removing => Retiring
    case Retiring => Unhooking
    case Unhooking => Unwinding(true)
    case Idling => Releasing(false)
    case Unwinding(complete) => Releasing(!complete)
    case Releasing(raised) => Done(raised)
    case Done(raised) => Done(raised)
  }

  /** Where a thread goes next. One that has not called yet calls. */
  function NextPc(s: State, t: Thread, reply: Reply): Pc {
    if t !in s.pcs then Waiting else Following(s.pcs[t], s.shared, s.running, reply)
  }

  /** What the statement does to the client object and to the outside. */
  function Effect(s: State, t: Thread, pc: Pc, reply: Reply): State {
    match pc
    case Waiting => s.(lock := Some(t))
    case Counting => if reply.Raises? then s.(failures := s.failures + 1) else s
    case Shutting => s.(shutdowns := s.shutdowns + 1)
    case Terminating => if reply.Raises? then s.(failures := s.failures + 1) else s
    case Retiring => s.(running := false)
    case Unhooking => s.(hook := false)
    case Idling => s.(upstream := s.upstream[t := Closes(s, t) + 1])
    case Unwinding(_) => s.(upstream := s.upstream[t := Closes(s, t) + 1])
    case Releasing(_) => s.(lock := None)
    case _ => s
  }

  /** One step of thread `t`. */
  function Step(s: State, t: Thread, reply: Reply): State
    requires CanStep(s, t)
  {
    var v := if t in s.pcs then Effect(s, t, s.pcs[t], reply) else s.(upstream := s.upstream[t := 0]);
    v.(pcs := s.pcs[t := NextPc(s, t, reply)])
  }

  type Schedule = seq<(Thread, Reply)>

  predicate Possible(s: State, sch: Schedule)
    decreases |sch|
  {
    sch == [] || (CanStep(s, sch[0].0) && Possible(Step(s, sch[0].0, sch[0].1), sch[1..]))
  }

  function Run(s: State, sch: Schedule): State
    requires Possible(s, sch)
    decreases |sch|
  {
    if sch == [] then s else Run(Step(s, sch[0].0, sch[0].1), sch[1..])
  }

  // ---- The invariant ----

  /** A call that has not retired the lifecycle sees it alive. */
  predicate BeforeRetiring(pc: Pc) {
    pc.Counting? || pc.Capturing? || pc.Shutting? || pc.Terminating? || pc.Removing? || pc.Retiring?
      || pc == Unwinding(false) || pc == Releasing(true)
  }

  /** What holds of one thread's call. */
  predicate ThreadOk(s: State, t: Thread)
    requires t in s.pcs
  {
    var pc := s.pcs[t];
    && (Inside(pc) <==> s.lock == Some(t))
    && t in s.upstream && s.upstream[t] == (if pc.Releasing? || pc.Done? then 1 else 0)
    && (BeforeRetiring(pc) ==> s.running && s.hook)
    && (pc.Unhooking? ==> !s.running && s.hook)
    && (pc == Unwinding(true) || pc.Idling? || pc == Releasing(false) || pc == Done(false) ==> !s.running)
  }

  /** Is the holder of the lock carrying out a shutdown, or past one? */
  predicate StoppingNow(s: State) {
    s.lock.Some? && s.lock.value in s.pcs
    && (s.pcs[s.lock.value].Terminating? || s.pcs[s.lock.value].Removing? || s.pcs[s.lock.value].Retiring?)
  }

  /** Every shutdown but one is accounted for by a failed attempt; the one belongs to the call that is
      stopping the server now or has retired the client. */
  predicate Accounted(s: State) {
    s.shutdowns <= s.failures + if StoppingNow(s) || !s.running then 1 else 0
  }

  predicate Inv(s: State) {
    && (s.lock.Some? ==> s.lock.value in s.pcs)
    && (forall t <- s.pcs :: ThreadOk(s, t))
    && Accounted(s)
    && (s.running ==> s.hook)
    && (!s.running && s.hook ==> s.lock.Some? && s.pcs[s.lock.value].Unhooking?)
  }

  /** A step changes nothing for the calls of other threads: those outside are not let in. */
  lemma OthersOk(s: State, t: Thread, reply: Reply, u: Thread)
    requires CanStep(s, t) && (t in s.pcs ==> ThreadOk(s, t)) && u in s.pcs && ThreadOk(s, u) && u != t
    ensures ThreadOk(Step(s, t, reply), u)
  {
  }

  lemma OwnOk(s: State, t: Thread, reply: Reply)
    requires CanStep(s, t) && (t in s.pcs ==> ThreadOk(s, t)) && (s.running ==> s.hook)
    requires s.lock.Some? ==> s.lock.value in s.pcs
    ensures t in Step(s, t, reply).pcs && ThreadOk(Step(s, t, reply), t)
  {
  }

  lemma RestOk(s: State, t: Thread, reply: Reply)
    requires CanStep(s, t) && (t in s.pcs ==> ThreadOk(s, t)) && (s.lock.Some? ==> s.lock.value in s.pcs)
    requires (s.running ==> s.hook) && Accounted(s)
    requires !s.running && s.hook ==> s.lock.Some? && s.pcs[s.lock.value].Unhooking?
    ensures var v := Step(s, t, reply);
            && (v.lock.Some? ==> v.lock.value in v.pcs) && (v.running ==> v.hook) && Accounted(v)
            && (!v.running && v.hook ==> v.lock.Some? && v.pcs[v.lock.value].Unhooking?)
  {
    if t in s.pcs && s.pcs[t].Waiting? {
      assert s.lock.None?;
    }
  }

  lemma StepInv(s: State, t: Thread, reply: Reply)
    requires Inv(s) && CanStep(s, t)
    ensures Inv(Step(s, t, reply))
  {
    hide ThreadOk, Accounted, Step;
    var v := Step(s, t, reply);
    OwnOk(s, t, reply);
    RestOk(s, t, reply);
    StepMovesOne(s, t, reply);
    forall u <- v.pcs ensures ThreadOk(v, u) {
      if u != t {
        OthersOk(s, t, reply, u);
      }
    }
  }

  lemma StepMovesOne(s: State, t: Thread, reply: Reply)
    requires CanStep(s, t)
    ensures var v := Step(s, t, reply); t in v.pcs && v.pcs == s.pcs[t := v.pcs[t]]
    ensures t in s.pcs ==> Remaining(Step(s, t, reply).pcs[t]) < Remaining(s.pcs[t])
  {
  }

  lemma {:induction false} RunInv(s: State, sch: Schedule)
    requires Inv(s) && Possible(s, sch)
    ensures Inv(Run(s, sch))
    decreases |sch|
  {
    if sch == [] {
    } else {
      StepInv(s, sch[0].0, sch[0].1);
      RunInv(Step(s, sch[0].0, sch[0].1), sch[1..]);
    }
  }

  // ---- Theorems about every interleaving ----

  /** From the start, however the calls interleave: at most one thread is inside; shutdowns number at
      most one more than the failed attempts; every finished call closed upstream exactly once and no
      call does so twice; a call that raised, or is about to, leaves `running` and the hook to a retry
      until some call retires the client; the hook outlives `running` only inside that call. */
  lemma EveryInterleaving(shared: bool, sch: Schedule, t: Thread, u: Thread)
    requires Possible(Start(shared), sch)
    ensures var s := Run(Start(shared), sch);
            && (t in s.pcs && u in s.pcs && Inside(s.pcs[t]) && Inside(s.pcs[u]) ==> t == u)
            && s.shutdowns <= 1 + s.failures && (s.running && s.lock.None? ==> s.shutdowns <= s.failures)
            && (t in s.pcs && s.pcs[t].Done? ==> Closes(s, t) == 1) && Closes(s, t) <= 1
            && (t in s.pcs && (s.pcs[t] == Unwinding(false) || s.pcs[t] == Releasing(true)) ==> s.running && s.hook)
            && (s.running ==> s.hook) && (s.lock.None? ==> s.running == s.hook)
  {
    RunInv(Start(shared), sch);
    var s := Run(Start(shared), sch);
    if t in s.pcs {
      assert ThreadOk(s, t);
    } else {
      NoCallNoClose(Start(shared), sch);
    }
    if u in s.pcs {
      assert ThreadOk(s, u);
    }
  }

  lemma {:induction false} NoCallNoClose(s: State, sch: Schedule)
    requires Possible(s, sch) && s.upstream.Keys == s.pcs.Keys
    ensures Run(s, sch).upstream.Keys == Run(s, sch).pcs.Keys
    decreases |sch|
  {
    if sch == [] {
    } else {
      NoCallNoClose(Step(s, sch[0].0, sch[0].1), sch[1..]);
    }
  }

  /** Once retired, a client stays retired and no shutdown is issued any more. */
  lemma {:induction false} RetiredForGood(s: State, sch: Schedule)
    requires Inv(s) && Possible(s, sch) && !s.running
    ensures !Run(s, sch).running && Run(s, sch).shutdowns == s.shutdowns
    decreases |sch|
  {
    if sch == [] {
    } else {
      var t := sch[0].0;
      assert t in s.pcs ==> ThreadOk(s, t);
      StepInv(s, t, sch[0].1);
      RetiredForGood(Step(s, t, sch[0].1), sch[1..]);
    }
  }

  /** Nobody shuts the server down. */
  predicate Sparing(s: State) {
    && s.shared && s.shutdowns == 0
    && forall t <- s.pcs :: var pc := s.pcs[t]; !pc.Capturing? && !pc.Shutting? && !pc.Terminating? && !pc.Removing?
  }

  lemma {:induction false} SparingRun(s: State, sch: Schedule)
    requires Sparing(s) && Possible(s, sch) && forall e <- sch :: e.1 == NotLast
    ensures Sparing(Run(s, sch))
    decreases |sch|
  {
    if sch == [] {
    } else {
      SparingRun(Step(s, sch[0].0, sch[0].1), sch[1..]);
    }
  }

  /** A user of a shared server who is told every time that others are connected never shuts it down,
      however many threads close. */
  lemma OthersAreSpared(sch: Schedule)
    requires Possible(Start(true), sch) && forall e <- sch :: e.1 == NotLast
    ensures Run(Start(true), sch).shutdowns == 0
  {
    SparingRun(Start(true), sch);
  }

  /** A call that is past its shutdown has issued one; only shared clients count. */
  predicate Committed(s: State, pc: Pc) {
    (pc.Counting? ==> s.shared) && (pc.Terminating? || pc.Removing? || pc.Retiring? ==> s.shutdowns >= 1)
  }

  /** So does every call, and whoever retired the client has issued one too. */
  predicate Stopping(s: State) {
    (!s.running ==> s.shutdowns >= 1) && forall t <- s.pcs :: Committed(s, s.pcs[t])
  }

  lemma {:induction false} StoppingRun(s: State, sch: Schedule)
    requires Stopping(s) && Possible(s, sch) && (s.shared ==> forall e <- sch :: e.1 != NotLast)
    ensures Stopping(Run(s, sch))
    decreases |sch|
  {
    hide Step, Stopping;
    if sch == [] {
    } else {
      StoppingStep(s, sch[0].0, sch[0].1);
      StoppingRun(Step(s, sch[0].0, sch[0].1), sch[1..]);
    }
  }


  lemma StoppingStep(s: State, t: Thread, reply: Reply)
    requires Stopping(s) && CanStep(s, t) && (s.shared ==> reply != NotLast)
    ensures Stopping(Step(s, t, reply)) && Step(s, t, reply).shared == s.shared
  {
    var v := Step(s, t, reply);
    OwnCommitted(s, t, reply);
    hide Step, CanStep, Committed;
    StepMovesOne(s, t, reply);
    forall u <- v.pcs ensures Committed(v, v.pcs[u]) {
      if u != t {
        StaysCommitted(s, v, s.pcs[u]);
      }
    }
  }

  lemma StaysCommitted(s: State, v: State, pc: Pc)
    requires Committed(s, pc) && v.shared == s.shared && v.shutdowns >= s.shutdowns
    ensures Committed(v, pc)
  {
  }

  lemma OwnCommitted(s: State, t: Thread, reply: Reply)
    requires CanStep(s, t) && (t in s.pcs ==> Committed(s, s.pcs[t])) && (!s.running ==> s.shutdowns >= 1)
    requires s.shared ==> reply != NotLast
    ensures var v := Step(s, t, reply);
            && v.shared == s.shared && v.shutdowns >= s.shutdowns && (!v.running ==> v.shutdowns >= 1)
            && t in v.pcs && Committed(v, v.pcs[t])
  {
  }

  /** The owner of an isolated server, whatever it is told, and a user of a shared one who is never told that
      others are connected, do not retire without having shut the server down. */
  lemma TheLastUserStops(shared: bool, sch: Schedule)
    requires Possible(Start(shared), sch) && (shared ==> forall e <- sch :: e.1 != NotLast)
    ensures !Run(Start(shared), sch).running ==> Run(Start(shared), sch).shutdowns >= 1
  {
    StoppingRun(Start(shared), sch);
  }

  /** A call's remaining statements. */
  function Remaining(pc: Pc): nat {
    match pc
    case Waiting => 11
    case Entered => 10
    case Counting => 9
    case Capturing => 8
    case Shutting => 7
    case Terminating => 6
    case Removing => 5
    case Retiring => 4
    case Unhooking => 3
    case Idling => 2
    case Unwinding(_) => 2
    case Releasing(_) => 1
    case Done(_) => 0
  }

  /** No deadlock: while any call is unfinished, some unfinished call can step, and each step of a call
      brings it nearer to its end and leaves the others where they are. */
  lemma CallsFinish(shared: bool, sch: Schedule, t: Thread) returns (u: Thread)
    requires Possible(Start(shared), sch)
    requires var s := Run(Start(shared), sch); t in s.pcs && !s.pcs[t].Done?
    ensures var s := Run(Start(shared), sch);
            && u in s.pcs && !s.pcs[u].Done? && CanStep(s, u)
            && forall reply :: var v := Step(s, u, reply);
                 Remaining(v.pcs[u]) < Remaining(s.pcs[u]) && v.pcs == s.pcs[u := v.pcs[u]]
  {
    hide Step, Run, Possible;
    RunInv(Start(shared), sch);
    var s := Run(Start(shared), sch);
    u := Movable(s, t);
    forall reply {
      StepMovesOne(s, u, reply);
    }
  }

  lemma Movable(s: State, t: Thread) returns (u: Thread)
    requires Inv(s) && t in s.pcs && !s.pcs[t].Done?
    ensures u in s.pcs && !s.pcs[u].Done? && CanStep(s, u)
  {
    assert ThreadOk(s, t);
    u := if s.lock.Some? then s.lock.value else t;
    assert ThreadOk(s, u);
  }

  /** A retry finishes: whatever failed before, a call that gets the lock, or has it and has not failed
      itself, and is told that it is the last user and can clean up, returns normally and leaves the
      client retired and its hook gone. */
  lemma {:induction false} RetryFinishes(s: State, t: Thread) returns (sch: Schedule)
    requires Inv(s) && t in s.pcs && CanStep(s, t) && s.pcs[t] != Unwinding(false) && s.pcs[t] != Releasing(true)
    ensures Possible(s, sch)
    ensures var v := Run(s, sch); t in v.pcs && v.pcs[t] == Done(false) && !v.running && !v.hook
    decreases Remaining(s.pcs[t])
  {
    assert ThreadOk(s, t);
    var v := Step(s, t, Last);
    StepInv(s, t, Last);
    assert ThreadOk(v, t);
    var rest := [];
    if v.pcs[t].Done? {
      assert v.lock.None? && !v.running && !v.hook;
    } else {
      rest := RetryFinishes(v, t);
    }
    sch := [(t, Last)] + rest;
    assert sch[1..] == rest;
  }

  /** A call that returned normally has seen the client retired. */
  lemma NormalReturnRetires(shared: bool, sch: Schedule, t: Thread)
    requires Possible(Start(shared), sch)
    requires var s := Run(Start(shared), sch); t in s.pcs && s.pcs[t] == Done(false)
    ensures !Run(Start(shared), sch).running
  {
    RunInv(Start(shared), sch);
    assert ThreadOk(Run(Start(shared), sch), t);
  }
}
