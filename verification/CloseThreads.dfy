/** The threads of `CloseLock` together with the world that their statements act on. Closing one client
    object from any number of threads, in any interleaving, is closing it one call after the other. */
module CloseThreads {
  import opened Wrappers
  import opened Processes
  import opened HostWorld
  import Lock = CloseLock

  type Thread = Lock.Thread

  /** What the outside does during each thread's call. */
  type Plan = Thread -> CloseSeen

  /** What the statements of a call act on: the world, the client's fields, and the pid it captured. */
  datatype Scope = Scope(world: World, client: Client, pid: nat)

  /** What the ownership check and the process cleanup come to, and nothing elsewhere. */
  function Answer(pc: Lock.Pc, x: Scope, id: ClientId, seen: CloseSeen): Lock.Reply {
    if pc.Counting? then
      if seen.countRaises then Lock.Raises
      else if ConnectionCount(Touch(x.world, id, x.client.socket), x.client.socket) <= 1 then Lock.Last
      else Lock.NotLast
    else if pc.Terminating? && seen.cleanupRaises && x.pid != 0 then Lock.Raises
    else Lock.Last
  }

  /** The escalation raised: how far it got, and a daemon that accepted SHUTDOWN exits by itself. */
  function CutShort(w: World, pid: nat, ending: Ending): World {
    var v := Halted(w, pid, ending);
    if pid in v.daemons then v else Exit(v, pid)
  }

  /** One statement. */
  function Act(pc: Lock.Pc, x: Scope, id: ClientId, seen: CloseSeen): Scope {
    var w, c := x.world, x.client;
    match pc
    case Counting => x.(world := Touch(w, id, c.socket))
    case Capturing => x.(pid := PidOf(w, c.pidfile))
    case Shutting => x.(world := Shutdown(w, c.socket, c.registry.Some?, seen.accepted))
    case Terminating =>
      x.(world := if Answer(pc, x, id, seen).Raises? then CutShort(w, x.pid, seen.ending)
                  else Terminated(w, x.pid, seen.ending))
    case Removing => x.(world := RemoveFiles(w, c), client := c.(sockDir := None))
    case Retiring => x.(client := c.(running := false))
    case Unhooking => x.(world := w.(hooks := w.hooks - {id}))
    case Idling => x.(world := Disconnect(w, id))
    case Unwinding(_) => x.(world := Disconnect(w, id))
    case _ => x
  }

  function Next(pc: Lock.Pc, x: Scope, id: ClientId, seen: CloseSeen): Lock.Pc {
    Lock.Following(pc, x.client.registry.Some?, x.client.running, Answer(pc, x, id, seen))
  }

  // ---- One call alone ----

  /** Run a call to its end. */
  function Finish(pc: Lock.Pc, x: Scope, id: ClientId, seen: CloseSeen): Closed
    requires Lock.Inside(pc)
    decreases Lock.Remaining(pc)
  {
    if pc.Releasing? then Closed(x.world, x.client, pc.raised)
    else Finish(Next(pc, x, id, seen), Act(pc, x, id, seen), id, seen)
  }

  lemma FinishRetiring(x: Scope, id: ClientId, seen: CloseSeen)
    ensures Finish(Lock.Retiring, x, id, seen) ==
              Closed(Disconnect(x.world.(hooks := x.world.hooks - {id}), id), x.client.(running := false), false)
  {
    hide Disconnect;
    var x1 := Act(Lock.Retiring, x, id, seen);
    var x2 := Act(Lock.Unhooking, x1, id, seen);
    assert Finish(Lock.Unwinding(true), x2, id, seen) == Closed(Disconnect(x2.world, id), x2.client, false);
    assert Finish(Lock.Unhooking, x1, id, seen) == Finish(Lock.Unwinding(true), x2, id, seen);
  }

  lemma FinishFailing(x: Scope, id: ClientId, seen: CloseSeen)
    ensures Finish(Lock.Unwinding(false), x, id, seen) == Closed(Disconnect(x.world, id), x.client, true)
  {
    hide Disconnect;
  }

  /** The last user's part. */
  lemma FinishCapturing(x: Scope, id: ClientId, seen: CloseSeen)
    ensures Finish(Lock.Capturing, x, id, seen) ==
              var w, c := x.world, x.client;
              if CleanupRaises(w, c, seen) then Closed(Disconnect(Interrupted(w, c, seen), id), c, true)
              else var v := StopServer(w, c, seen);
                Closed(Disconnect(v.(hooks := v.hooks - {id}), id), c.(sockDir := None, running := false), false)
  {
    hide Disconnect, RemoveFiles, Terminated, Halted, Shutdown, Exit, PidOf;
    var x1 := Act(Lock.Capturing, x, id, seen);
    var x2 := Act(Lock.Shutting, x1, id, seen);
    var x3 := Act(Lock.Terminating, x2, id, seen);
    assert Finish(Lock.Capturing, x, id, seen) == Finish(Lock.Shutting, x1, id, seen);
    assert Finish(Lock.Shutting, x1, id, seen) == Finish(Lock.Terminating, x2, id, seen);
    if CleanupRaises(x.world, x.client, seen) {
      FinishFailing(x3, id, seen);
    } else {
      var x4 := Act(Lock.Removing, x3, id, seen);
      assert Finish(Lock.Removing, x3, id, seen) == Finish(Lock.Retiring, x4, id, seen);
      FinishRetiring(x4, id, seen);
    }
  }

  /** A call that nobody disturbs, statement by statement, is the specification of closing. */
  lemma OneCallIsClose(x: Scope, id: ClientId, seen: CloseSeen)
    ensures Finish(Lock.Entered, x, id, seen) == Close(x.world, id, x.client, seen)
  {
    hide Disconnect, Touch, StopServer, Interrupted, ConnectionCount, PidOf;
    if !x.client.running {
      assert Finish(Lock.Idling, x, id, seen) == Closed(Disconnect(x.world, id), x.client, false);
    } else if x.client.registry.None? {
      FinishCapturing(x, id, seen);
    } else {
      var y := Act(Lock.Counting, x, id, seen);
      assert Finish(Lock.Entered, x, id, seen) == Finish(Lock.Counting, x, id, seen);
      FinishFailing(y, id, seen);
      FinishCapturing(y, id, seen);
      FinishRetiring(y, id, seen);
    }
  }

  // ---- Any number of calls ----

  /** The lock machine, the world, the client's fields, the pid each call captured, and the finished calls
      in the order in which they gave the lock back. */
  datatype State = State(calls: Lock.State, world: World, client: Client, pids: map<Thread, nat>, order: seq<Thread>)

  function Start(w: World, id: ClientId, c: Client): State {
    State(Lock.Start(c.registry.Some?), w, c, map[], [])
  }

  function ScopeOf(s: State, t: Thread): Scope
    requires t in s.pids
  {
    Scope(s.world, s.client, s.pids[t])
  }

  function Told(s: State, id: ClientId, plan: Plan, t: Thread): Lock.Reply {
    if t in s.calls.pcs && t in s.pids then Answer(s.calls.pcs[t], ScopeOf(s, t), id, plan(t)) else Lock.Last
  }

  /** One step of thread t: the lock machine's step, and what its statement does. */
  function Step(s: State, id: ClientId, plan: Plan, t: Thread): State
    requires Lock.CanStep(s.calls, t)
  {
    var calls := Lock.Step(s.calls, t, Told(s, id, plan, t));
    if t !in s.calls.pcs || t !in s.pids then s.(calls := calls, pids := s.pids[t := 0]) else
    var x := Act(s.calls.pcs[t], ScopeOf(s, t), id, plan(t));
    State(calls, x.world, x.client, s.pids[t := x.pid],
          if s.calls.pcs[t].Releasing? then s.order + [t] else s.order)
  }

  predicate Possible(s: State, id: ClientId, plan: Plan, ts: seq<Thread>)
    decreases |ts|
  {
    ts == [] || (Lock.CanStep(s.calls, ts[0]) && Possible(Step(s, id, plan, ts[0]), id, plan, ts[1..]))
  }

  function Run(s: State, id: ClientId, plan: Plan, ts: seq<Thread>): State
    requires Possible(s, id, plan, ts)
    decreases |ts|
  {
    if ts == [] then s else Run(Step(s, id, plan, ts[0]), id, plan, ts[1..])
  }

  /** The calls one after the other, each as the specification of closing says; `raised` is that of the last. */
  function InTurn(w: World, id: ClientId, c: Client, plan: Plan, order: seq<Thread>): Closed {
    if order == [] then Closed(w, c, false) else
    var before := InTurn(w, id, c, plan, order[..|order| - 1]);
    Close(before.world, id, before.client, plan(order[|order| - 1]))
  }

  // ---- The invariant ----

  /** The lock machine's view of the client is the client. */
  predicate Agrees(s: State, id: ClientId) {
    && s.calls.shared == s.client.registry.Some? && s.calls.running == s.client.running
    && s.calls.hook == (id in s.world.hooks) && s.pids.Keys == s.calls.pcs.Keys
  }

  /** Between calls the world is what the finished calls in turn make of it; during a call, what is left
      of that call leads to what that call in turn comes to. */
  predicate OnTrack(s: State, id: ClientId, plan: Plan, was: Closed) {
    match s.calls.lock
    case None => s.world == was.world && s.client == was.client
    case Some(t) =>
      && t in s.calls.pcs && t in s.pids && Lock.Inside(s.calls.pcs[t])
      && Finish(s.calls.pcs[t], ScopeOf(s, t), id, plan(t)) == Close(was.world, id, was.client, plan(t))
  }

  /** The finished calls, each once, and how each ended. */
  ghost predicate Recorded(s: State, w: World, id: ClientId, c: Client, plan: Plan) {
    && (forall i, j :: 0 <= i < j < |s.order| ==> s.order[i] != s.order[j])
    && (forall t <- s.calls.pcs :: s.calls.pcs[t].Done? ==> t in s.order)
    && (forall i :: 0 <= i < |s.order| ==>
          s.order[i] in s.calls.pcs
          && s.calls.pcs[s.order[i]] == Lock.Done(InTurn(w, id, c, plan, s.order[..i + 1]).raised))
  }

  ghost predicate Inv(s: State, w: World, id: ClientId, c: Client, plan: Plan) {
    Lock.Inv(s.calls) && Agrees(s, id) && OnTrack(s, id, plan, InTurn(w, id, c, plan, s.order))
    && Recorded(s, w, id, c, plan)
  }

  lemma ActHooks(pc: Lock.Pc, x: Scope, id: ClientId, seen: CloseSeen)
    ensures var y := Act(pc, x, id, seen);
            && y.client.registry == x.client.registry
            && y.client.running == (if pc.Retiring? then false else x.client.running)
            && y.world.hooks == if pc.Unhooking? then x.world.hooks - {id} else x.world.hooks
  {
  }

  lemma StepAgrees(s: State, id: ClientId, plan: Plan, t: Thread)
    requires Lock.CanStep(s.calls, t) && Agrees(s, id)
    ensures Agrees(Step(s, id, plan, t), id)
  {
    hide Act, Answer, Lock.Step;
    LockStepFields(s.calls, t, Told(s, id, plan, t));
    Lock.StepMovesOne(s.calls, t, Told(s, id, plan, t));
    if t in s.calls.pcs {
      ActHooks(s.calls.pcs[t], ScopeOf(s, t), id, plan(t));
    }
  }


  lemma LockStepFields(s: Lock.State, t: Thread, reply: Lock.Reply)
    requires Lock.CanStep(s, t)
    ensures var v := Lock.Step(s, t, reply);
            && v.shared == s.shared
            && v.running == (s.running && !(t in s.pcs && s.pcs[t].Retiring?))
            && v.hook == (s.hook && !(t in s.pcs && s.pcs[t].Unhooking?))
  {
    hide Lock.Following, Lock.NextPc;
  }

  /** Who holds the lock after a step, and where the steps of the holder lead. */
  lemma StepOnTrack(s: State, id: ClientId, plan: Plan, t: Thread, was: Closed)
    requires Lock.Inv(s.calls) && Lock.CanStep(s.calls, t) && Agrees(s, id) && OnTrack(s, id, plan, was)
    ensures var v := Step(s, id, plan, t);
            if t in s.calls.pcs && s.calls.pcs[t].Releasing? then
              && v.calls.lock.None? && v.order == s.order + [t]
              && Closed(v.world, v.client, s.calls.pcs[t].raised) == Close(was.world, id, was.client, plan(t))
            else v.order == s.order && OnTrack(v, id, plan, was)
  {
    hide Close, OnTrack;
    if t !in s.calls.pcs {
      StepOutside(s, id, plan, t, was);
    } else if s.calls.pcs[t].Waiting? {
      StepIn(s, id, plan, t, was);
    } else {
      StepInside(s, id, plan, t, was);
    }
  }


  lemma StepOutside(s: State, id: ClientId, plan: Plan, t: Thread, was: Closed)
    requires Lock.Inv(s.calls) && Agrees(s, id) && OnTrack(s, id, plan, was) && t !in s.calls.pcs
    ensures var v := Step(s, id, plan, t); v.order == s.order && OnTrack(v, id, plan, was)
  {
    hide Close, Finish;
  }

  lemma StepIn(s: State, id: ClientId, plan: Plan, t: Thread, was: Closed)
    requires Agrees(s, id) && OnTrack(s, id, plan, was)
    requires Lock.CanStep(s.calls, t) && t in s.calls.pcs && s.calls.pcs[t].Waiting?
    ensures var v := Step(s, id, plan, t); v.order == s.order && OnTrack(v, id, plan, was)
  {
    hide Close, Finish;
    OneCallIsClose(ScopeOf(s, t), id, plan(t));
  }

  lemma StepInside(s: State, id: ClientId, plan: Plan, t: Thread, was: Closed)
    requires Lock.Inv(s.calls) && Agrees(s, id) && OnTrack(s, id, plan, was)
    requires Lock.CanStep(s.calls, t) && t in s.calls.pcs && !s.calls.pcs[t].Waiting?
    ensures var v := Step(s, id, plan, t);
            if s.calls.pcs[t].Releasing? then
              && v.calls.lock.None? && v.order == s.order + [t]
              && Closed(v.world, v.client, s.calls.pcs[t].raised) == Close(was.world, id, was.client, plan(t))
            else v.order == s.order && OnTrack(v, id, plan, was)
  {
    hide Close, Answer, Lock.Inv;
    InsideHolds(s.calls, t);
    if !s.calls.pcs[t].Releasing? {
      StaysInside(s.calls, t, Told(s, id, plan, t));
    }
  }

  lemma InsideHolds(s: Lock.State, t: Thread)
    requires Lock.Inv(s) && Lock.CanStep(s, t) && t in s.pcs && !s.pcs[t].Waiting?
    ensures s.lock == Some(t)
  {
    assert Lock.ThreadOk(s, t);
  }

  lemma StaysInside(s: Lock.State, t: Thread, reply: Lock.Reply)
    requires s.lock == Some(t) && t in s.pcs && Lock.Inside(s.pcs[t]) && !s.pcs[t].Releasing?
    ensures var v := Lock.Step(s, t, reply); v.lock == Some(t) && t in v.pcs && Lock.Inside(v.pcs[t])
  {
  }

  lemma StepRecorded(s: State, w: World, id: ClientId, c: Client, plan: Plan, t: Thread)
    requires Inv(s, w, id, c, plan) && Lock.CanStep(s.calls, t)
    ensures Recorded(Step(s, id, plan, t), w, id, c, plan)
  {
    hide Act, Answer, Finish, Close, InTurn, Recorded, Lock.Step;
    var v, reply := Step(s, id, plan, t), Told(s, id, plan, t);
    Lock.StepMovesOne(s.calls, t, reply);
    if t in s.calls.pcs && s.calls.pcs[t].Releasing? {
      StepOnTrack(s, id, plan, t, InTurn(w, id, c, plan, s.order));
      InTurnOneMore(w, id, c, plan, s.order, t);
      LockStepPc(s.calls, t, reply);
      OneMoreRecorded(s, v, w, id, c, plan, t);
    } else {
      LockStepPc(s.calls, t, reply);
      SameRecorded(s, v, w, id, c, plan, t);
    }
  }


  lemma LockStepPc(s: Lock.State, t: Thread, reply: Lock.Reply)
    requires Lock.CanStep(s, t)
    ensures var v := Lock.Step(s, t, reply);
            && v.pcs == s.pcs[t := Lock.NextPc(s, t, reply)]
            && (t in s.pcs ==> !s.pcs[t].Done? && (v.pcs[t].Done? <==> s.pcs[t].Releasing?))
            && (t in s.pcs && s.pcs[t].Releasing? ==> v.pcs[t] == Lock.Done(s.pcs[t].raised))
            && (t !in s.pcs ==> v.pcs[t].Waiting?)
  {
  }

  lemma OneMoreRecorded(s: State, v: State, w: World, id: ClientId, c: Client, plan: Plan, t: Thread)
    requires Recorded(s, w, id, c, plan) && t in s.calls.pcs && !s.calls.pcs[t].Done?
    requires v.order == s.order + [t]
    requires v.calls.pcs == s.calls.pcs[t := Lock.Done(InTurn(w, id, c, plan, s.order + [t]).raised)]
    ensures Recorded(v, w, id, c, plan)
  {
    hide InTurn;
    forall i | 0 <= i < |s.order| ensures v.order[i] == s.order[i] && v.order[..i + 1] == s.order[..i + 1] {
    }
    assert v.order[..|v.order|] == v.order;
  }

  lemma SameRecorded(s: State, v: State, w: World, id: ClientId, c: Client, plan: Plan, t: Thread)
    requires Recorded(s, w, id, c, plan) && (t in s.calls.pcs ==> !s.calls.pcs[t].Done?)
    requires v.order == s.order && t in v.calls.pcs && v.calls.pcs == s.calls.pcs[t := v.calls.pcs[t]]
    requires !v.calls.pcs[t].Done?
    ensures Recorded(v, w, id, c, plan)
  {
    hide InTurn;
  }

  lemma InTurnOneMore(w: World, id: ClientId, c: Client, plan: Plan, order: seq<Thread>, t: Thread)
    ensures var was := InTurn(w, id, c, plan, order);
            InTurn(w, id, c, plan, order + [t]) == Close(was.world, id, was.client, plan(t))
  {
    assert (order + [t])[..|order|] == order;
  }

  lemma StepInv(s: State, w: World, id: ClientId, c: Client, plan: Plan, t: Thread)
    requires Inv(s, w, id, c, plan) && Lock.CanStep(s.calls, t)
    ensures Inv(Step(s, id, plan, t), w, id, c, plan)
  {
    StepRecorded(s, w, id, c, plan, t);
    hide Recorded, Act, Answer, Finish, Close, InTurn, Lock.Inv;
    Lock.StepInv(s.calls, t, Told(s, id, plan, t));
    StepAgrees(s, id, plan, t);
    StepOnTrack(s, id, plan, t, InTurn(w, id, c, plan, s.order));
    InTurnOneMore(w, id, c, plan, s.order, t);
  }

  lemma {:induction false} RunInv(s: State, w: World, id: ClientId, c: Client, plan: Plan, ts: seq<Thread>)
    requires Inv(s, w, id, c, plan) && Possible(s, id, plan, ts)
    ensures Inv(Run(s, id, plan, ts), w, id, c, plan)
    decreases |ts|
  {
    hide Inv, Step;
    if ts == [] {
    } else {
      StepInv(s, w, id, c, plan, ts[0]);
      RunInv(Step(s, id, plan, ts[0]), w, id, c, plan, ts[1..]);
    }
  }

  // ---- Theorems ----

  /** However the statements of any number of calls on one open client interleave: whenever no call is
      inside, world and client are those of closing one call after the other, in the order in which the
      calls gave the lock back; every finished call stands in that order exactly once and raised exactly
      if its turn did. */
  lemma EveryInterleavingIsInTurn(w: World, id: ClientId, c: Client, plan: Plan, ts: seq<Thread>)
    requires c.running && id in w.hooks && Possible(Start(w, id, c), id, plan, ts)
    ensures var s := Run(Start(w, id, c), id, plan, ts);
            var all := InTurn(w, id, c, plan, s.order);
            && (s.calls.lock.None? ==> s.world == all.world && s.client == all.client)
            && (forall t :: t in s.order <==> t in s.calls.pcs && s.calls.pcs[t].Done?)
            && (forall i, j :: 0 <= i < j < |s.order| ==> s.order[i] != s.order[j])
            && (forall i :: 0 <= i < |s.order| ==>
                  s.calls.pcs[s.order[i]] == Lock.Done(InTurn(w, id, c, plan, s.order[..i + 1]).raised))
  {
    RunInv(Start(w, id, c), w, id, c, plan, ts);
  }

  /** A close that returns normally leaves a retired client without connections: closing again changes
      nothing. */
  lemma CloseTwice(w: World, id: ClientId, c: Client, seen: CloseSeen, again: CloseSeen)
    requires !Close(w, id, c, seen).raised
    ensures var r := Close(w, id, c, seen); Close(r.world, id, r.client, again) == r
  {
    hide Touch, StopServer, Interrupted, ConnectionCount;
    var r := Close(w, id, c, seen);
    assert !r.client.running;
    if c.running {
      var last := c.registry.None? || ConnectionCount(Touch(w, id, c.socket), c.socket) <= 1;
      var w1 := if c.registry.Some? then Touch(w, id, c.socket) else w;
      var w2 := if last then StopServer(w1, c, seen) else w1;
      DisconnectTwice(w2.(hooks := w2.hooks - {id}), id);
    } else {
      DisconnectTwice(w, id);
    }
  }

  lemma DisconnectTwice(w: World, id: ClientId)
    ensures Disconnect(Disconnect(w, id), id) == Disconnect(w, id)
  {
    var v := Disconnect(w, id);
    forall p <- v.daemons ensures Parted(v.daemons[p], id) == v.daemons[p] {
      assert v.daemons[p].conns[id := 0] == v.daemons[p].conns;
    }
    assert Disconnect(v, id).daemons == v.daemons;
  }

  lemma {:induction false} AfterTheFirstReturn(w: World, id: ClientId, c: Client, plan: Plan, order: seq<Thread>,
                                               i: nat)
    requires i < |order| && !InTurn(w, id, c, plan, order[..i + 1]).raised
    ensures InTurn(w, id, c, plan, order) == InTurn(w, id, c, plan, order[..i + 1])
    decreases |order|
  {
    hide Close;
    var init, last := order[..|order| - 1], order[|order| - 1];
    if i == |order| - 1 {
      assert order[..i + 1] == order;
    } else {
      assert init[..i + 1] == order[..i + 1];
      AfterTheFirstReturn(w, id, c, plan, init, i);
      var upTo := order[..i + 1];
      var before := InTurn(w, id, c, plan, upTo[..i]);
      CloseTwice(before.world, id, before.client, plan(upTo[i]), plan(last));
    }
  }

  predicate Returned(s: State, t: Thread) {
    t in s.calls.pcs && s.calls.pcs[t] == Lock.Done(false)
  }

  /** One call closes for all: once a call has returned normally, the others, finished or still to come,
      leave world and client as that call did, and return normally too. */
  lemma OneCallClosesForAll(w: World, id: ClientId, c: Client, plan: Plan, ts: seq<Thread>, i: nat)
    requires c.running && id in w.hooks && Possible(Start(w, id, c), id, plan, ts)
    requires var s := Run(Start(w, id, c), id, plan, ts);
             s.calls.lock.None? && i < |s.order| && Returned(s, s.order[i])
    ensures var s := Run(Start(w, id, c), id, plan, ts);
            var one := InTurn(w, id, c, plan, s.order[..i + 1]);
            && s.world == one.world && s.client == one.client && !s.client.running
            && forall j :: i <= j < |s.order| ==> Returned(s, s.order[j])
  {
    EveryInterleavingIsInTurn(w, id, c, plan, ts);
    hide Run, Close, Possible, InTurn, Start;
    var order := Run(Start(w, id, c), id, plan, ts).order;
    AfterTheFirstReturn(w, id, c, plan, order, i);
    ReturnedMeansRetired(w, id, c, plan, order[..i + 1]);
    forall j | i <= j < |order| ensures Returned(Run(Start(w, id, c), id, plan, ts), order[j]) {
      LaterOnesReturn(w, id, c, plan, order, i, j);
    }
  }


  lemma LaterOnesReturn(w: World, id: ClientId, c: Client, plan: Plan, order: seq<Thread>, i: nat, j: nat)
    requires i <= j < |order| && !InTurn(w, id, c, plan, order[..i + 1]).raised
    ensures !InTurn(w, id, c, plan, order[..j + 1]).raised
  {
    hide Close, InTurn;
    var upTo := order[..j + 1];
    assert upTo[..i + 1] == order[..i + 1];
    AfterTheFirstReturn(w, id, c, plan, upTo, i);
  }

  lemma ReturnedMeansRetired(w: World, id: ClientId, c: Client, plan: Plan, order: seq<Thread>)
    requires order != [] && !InTurn(w, id, c, plan, order).raised
    ensures !InTurn(w, id, c, plan, order).client.running
  {
    hide Touch, StopServer, Interrupted, ConnectionCount;
  }

  /** What the calls are told, as a schedule of the lock machine. */
  function Schedule(s: State, id: ClientId, plan: Plan, ts: seq<Thread>): Lock.Schedule
    requires Possible(s, id, plan, ts)
    decreases |ts|
  {
    if ts == [] then []
    else [(ts[0], Told(s, id, plan, ts[0]))] + Schedule(Step(s, id, plan, ts[0]), id, plan, ts[1..])
  }

  /** Such a run is a run of the lock machine, so what holds of every schedule there holds here. */
  lemma {:induction false} RunIsLockRun(s: State, id: ClientId, plan: Plan, ts: seq<Thread>)
    requires Possible(s, id, plan, ts)
    ensures var sch := Schedule(s, id, plan, ts);
            Lock.Possible(s.calls, sch) && Lock.Run(s.calls, sch) == Run(s, id, plan, ts).calls
    decreases |ts|
  {
    hide Told, Act, Lock.Step;
    if ts == [] {
    } else {
      var v, rest := Step(s, id, plan, ts[0]), ts[1..];
      RunIsLockRun(v, id, plan, rest);
      var sch := Schedule(s, id, plan, ts);
      assert sch[0] == (ts[0], Told(s, id, plan, ts[0])) && sch[1..] == Schedule(v, id, plan, rest);
    }
  }
}
