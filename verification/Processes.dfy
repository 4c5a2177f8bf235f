/** The process table, the monotonic clock and the two polling loops that client.py and server.py
    share: `_terminate` (wait, then SIGTERM, then SIGKILL) and `_wait_until_ready` (poll PING). */
module Processes {
  datatype Signal = TERM | KILL

  datatype Sent = Sent(signal: Signal, pid: nat)

  /** How a process meets a signal: it is already gone, it exits on SIGTERM, or only SIGKILL ends it. */
  datatype Reaction = Vanishes | Yields | Resists

  /** What a process will do: exit by itself just before poll number `exitPoll`, otherwise react to
      signals; `saves` says whether a daemon ended by SIGTERM writes its dataset first. */
  datatype Behaviour = Behaviour(exitPoll: nat, reaction: Reaction, saves: bool)

  /** How it ended. */
  datatype Ending = Quiet | ByTerm(saves: bool) | ByKill

  /** The signals that an ending implies, in order of delivery. */
  function Delivered(ending: Ending, pid: nat): seq<Sent> {
    match ending
    case Quiet => []
    case ByTerm(_) => [Sent(TERM, pid)]
    case ByKill => [Sent(TERM, pid), Sent(KILL, pid)]
  }

  /** Whatever the ending, the signals are a prefix of [TERM, KILL] and all go to the one pid. */
  lemma DeliveredIsEscalation(ending: Ending, pid: nat)
    ensures Delivered(ending, pid) <= [Sent(TERM, pid), Sent(KILL, pid)]
    ensures forall s <- Delivered(ending, pid) :: s.pid == pid
  {
    var full := [Sent(TERM, pid), Sent(KILL, pid)];
    assert full[..0] == [] && full[..1] == [Sent(TERM, pid)] && full[..2] == full;
  }

  /** The signals that went out when the escalation raised on the way: none, or a SIGTERM that ended the
      process or that it resisted. */
  function PartlyDelivered(ending: Ending, pid: nat): seq<Sent> {
    if ending.Quiet? then [] else [Sent(TERM, pid)]
  }

  /** What stands in the way of looking at a process and signalling it: nothing, or an error other than
      NoSuchProcess and TimeoutExpired, at the first look or during the escalation. */
  datatype Obstacle = Clear | Barred | Midway

  /** The answer to one PING. */
  datatype Reply = Pong | Falsy | Refused | OtherError

  datatype Readiness = Ready | TimedOut | Raised

  /** Multiplying out one more poll. */
  lemma OneMorePoll(polls: nat, interval: real)
    ensures (polls + 1) as real * interval == polls as real * interval + interval
  {
  }

  /** A poll that starts before the deadline leaves room for it in the budget. */
  lemma WithinBudget(polls: nat, interval: real, timeout: real, budget: nat)
    requires interval > 0.0 && polls as real * interval < timeout <= budget as real * interval
    ensures polls < budget
  {
  }

  /** Enough polls to use up the timeout. */
  function Budget(timeout: real, interval: real): (n: nat)
    requires interval > 0.0
    ensures timeout <= n as real * interval
  {
    if timeout <= 0.0 then 0 else
      var q := timeout / interval;
      assert q * interval == timeout;
      var n := q.Floor + 1;
      assert n as real >= q && n as real * interval >= q * interval;
      n
  }

  /** n sleeps of the same length. */
  function Naps(n: nat, d: real): seq<real> {
    seq(n, _ => d)
  }

  lemma OneMoreNap(n: nat, d: real)
    ensures Naps(n, d) + [d] == Naps(n + 1, d)
  {
  }

  /** What an escalation with this deadline does to a process: nothing if there is none; one that a poll
      sees exit gets no signal; any other meets SIGTERM once the deadline has passed and SIGKILL five
      seconds later, as far as it takes to end it, unless an error stops the escalation. */
  predicate Patient(existed: bool, took: real, timeout: real, b: Behaviour, o: Obstacle,
                    ending: Ending, polls: nat, raised: bool)
  {
    && took >= 0.0
    && (!existed ==> ending == Quiet && polls == 0 && !raised)
    && (existed && o.Barred? ==> ending == Quiet && polls == 0 && raised)
    && (existed && !o.Barred? && polls > b.exitPoll ==> polls == b.exitPoll + 1 && ending == Quiet && !raised)
    && (existed && !o.Barred? && polls <= b.exitPoll ==>
          && raised == o.Midway?
          && took >= timeout + (if b.reaction.Resists? then 5.0 else 0.0)
          && ending == match b.reaction
                       case Vanishes => Quiet
                       case Yields => ByTerm(b.saves)
                       case Resists => ByKill)
  }

  /** So the only signals, and the only errors while signalling, come after the deadline. */
  lemma NoSignalBeforeTheDeadline(existed: bool, took: real, timeout: real, b: Behaviour, o: Obstacle,
                                  ending: Ending, polls: nat, raised: bool)
    requires Patient(existed, took, timeout, b, o, ending, polls, raised)
    ensures ending != Quiet || (raised && o.Midway?) ==> took >= timeout && polls <= b.exitPoll
    ensures ending.ByKill? ==> took >= timeout + 5.0
    ensures raised ==> existed && !o.Clear?
  {
  }

  /** The sleeps between its polls, and the wait after a SIGTERM that did not help. */
  function Pauses(polls: nat, interval: real, b: Behaviour, ending: Ending): seq<real> {
    Naps(if polls > b.exitPoll then b.exitPoll else polls, interval) + if ending.ByKill? then [5.0] else []
  }

  class Table {
    var live: set<nat>        // pids for which psutil.pid_exists is true
    var signals: seq<Sent>    // every signal delivered, oldest first
    var now: real             // time.monotonic(), in seconds
    var naps: seq<real>       // every sleep and wait so far

    constructor ()
      ensures live == {} && signals == [] && naps == []
    {
      live, signals, now, naps := {}, [], 0.0, [];
    }

    /** time.monotonic(): never goes back. */
    method Monotonic() returns (t: real)
      modifies this`now
      ensures t == now >= old(now)
    {
      var passed: real :| passed >= 0.0;
      now := now + passed;
      t := now;
    }

    /** time.sleep(d): advances the clock by at least d. */
    method Sleep(d: real)
      modifies this`now, this`naps
      ensures now >= old(now) + d && naps == old(naps) + [d]
    {
      var late: real :| late >= 0.0;
      now := now + d + late;
      naps := naps + [d];
    }

    /** Wait for the process to exit, then escalate. A process already gone, and pid 0, get no signal;
        neither does one that a poll saw exit. Signals are sent only once the deadline has passed. If an
        obstacle makes it raise, the ending says how far it got; SIGKILL was not delivered then. */
    method Terminate(pid: nat, timeout: real, interval: real, b: Behaviour, o: Obstacle)
      returns (ending: Ending, polls: nat, raised: bool)
      requires interval > 0.0
      modifies this
      ensures live == old(live) - (if pid == 0 || (raised && !ending.ByTerm?) then {} else {pid})
      ensures signals == old(signals) + if raised then PartlyDelivered(ending, pid) else Delivered(ending, pid)
      ensures Patient(pid != 0 && pid in old(live), now - old(now), timeout, b, o, ending, polls, raised)
      ensures polls > 0 ==> (polls - 1) as real * interval < timeout
      ensures naps == old(naps) + Pauses(polls, interval, b, ending)
    {
      ending, polls, raised := Quiet, 0, false;
      if pid == 0 {
        return;
      }
      if pid !in live {
        return;
      }
      if o.Barred? {
        raised := true;
        return;
      }
      var start := Monotonic();
      var budget := Budget(timeout, interval);
      var t := start;
      while t < start + timeout
        invariant live == old(live) && signals == old(signals)
        invariant old(now) <= start <= t == now
        invariant polls as real * interval <= t - start
        invariant polls > 0 ==> (polls - 1) as real * interval < timeout
        invariant polls <= b.exitPoll && naps == old(naps) + Naps(polls, interval)
        decreases budget - polls
      {
        WithinBudget(polls, interval, timeout, budget);
        OneMorePoll(polls, interval);
        ghost var spent := polls as real * interval;
        polls := polls + 1;
        assert polls as real * interval == spent + interval;
        if polls > b.exitPoll {
          live := live - {pid};
          return;
        }
        OneMoreNap(polls - 1, interval);
        Sleep(interval);
        t := Monotonic();
      }
      ending, raised := Escalate(pid, b, o);
    }

    /** SIGTERM, five seconds, SIGKILL. */
    method Escalate(pid: nat, b: Behaviour, o: Obstacle) returns (ending: Ending, raised: bool)
      modifies this
      ensures raised == o.Midway?
      ensures live == old(live) - (if raised && !ending.ByTerm? then {} else {pid})
      ensures signals == old(signals) + if raised then PartlyDelivered(ending, pid) else Delivered(ending, pid)
      ensures now >= old(now) + (if ending.ByKill? then 5.0 else 0.0)
      ensures naps == old(naps) + if ending.ByKill? then [5.0] else []
      ensures ending == match b.reaction
                        case Vanishes => Quiet
                        case Yields => ByTerm(b.saves)
                        case Resists => ByKill
    {
      raised := o.Midway?;
      match b.reaction {
        case Vanishes =>
          ending := Quiet;
          if !raised {
            live := live - {pid};
          }
        case Yields =>
          signals := signals + [Sent(TERM, pid)];
          live := live - {pid};
          ending := ByTerm(b.saves);
        case Resists =>
          signals := signals + [Sent(TERM, pid)];
          Sleep(5.0);
          ending := ByKill;
          if !raised {
            signals := signals + [Sent(KILL, pid)];
            live := live - {pid};
          }
      }
    }

    /** Poll PING every 0.1 s. Returns normally exactly when some poll was answered; a ConnectionError
        or a false answer is polled again, any other exception escapes at once. */
    method WaitUntilReady(timeout: real, replies: nat -> Reply) returns (r: Readiness, polls: nat)
      modifies this`now, this`naps
      ensures r.Ready? <==> polls > 0 && replies(polls - 1) == Pong
      ensures r.Raised? <==> polls > 0 && replies(polls - 1) == OtherError
      ensures forall k: nat :: k < polls - 1 ==> replies(k) in {Falsy, Refused}
      ensures now >= old(now) && (r.TimedOut? ==> now >= old(now) + timeout)
      ensures polls > 0 ==> (polls - 1) as real * 0.1 < timeout
      ensures naps == old(naps) + Naps(if r.TimedOut? then polls else polls - 1, 0.1)
    {
      polls := 0;
      var start := Monotonic();
      var budget := Budget(timeout, 0.1);
      var t := start;
      while t < start + timeout
        invariant old(now) <= start <= t == now
        invariant polls as real * 0.1 <= t - start
        invariant polls > 0 ==> (polls - 1) as real * 0.1 < timeout
        invariant forall k: nat :: k < polls ==> replies(k) in {Falsy, Refused}
        invariant naps == old(naps) + Naps(polls, 0.1)
        decreases budget - polls
      {
        WithinBudget(polls, 0.1, timeout, budget);
        var reply := replies(polls);
        polls := polls + 1;
        if reply == Pong {
          return Ready, polls;
        }
        if reply == OtherError {
          return Raised, polls;
        }
        OneMoreNap(polls - 1, 0.1);
        Sleep(0.1);
        t := Monotonic();
      }
      r := TimedOut;
    }
  }

  /** The poll budgets of the source: 50 for the client's 10 s at 0.2 s, 50 for the server's 5 s at
      0.1 s, 100 for readiness within 10 s at 0.1 s; in general never more than the rounded-up
      quotient. */
  lemma PollsAreBounded(polls: nat, timeout: real, interval: real, whole: nat)
    requires interval > 0.0 && timeout <= whole as real * interval
    requires polls > 0 ==> (polls - 1) as real * interval < timeout
    ensures polls <= whole
  {
    if polls > 0 {
      WithinBudget(polls - 1, interval, timeout, whole);
    }
  }
}
