/**
 Who waits for whom. Over any number of processes and servers that share one socket directory, the
 wait-for relation among stopWatcher, stopChan, lifecycleMu and the directory lock has no cycle, so that
 every blocked goroutine waits, in the end, for one that can move.
 */
module DeadlockFreedom {
  import opened Wrappers
  import opened Lifecycle

  /** The goroutine runs: its process has not ended, it has been started and has not returned. */
  ghost predicate Alive(s: State, t: Thread) {
    && t.p < |s.procs|
    && s.procs[t.p].main != Exited
    && match t.who
       case M => true
       case W(k) => k < |s.procs[t.p].servers| && Active(s.procs[t.p].servers[k].watcher)
       case P => s.procs[t.p].periodic != Off && s.procs[t.p].periodic != Ended
  }

  /** The goroutine of the same process that holds lifecycleMu of server k. */
  ghost function MuHolder(s: State, p: nat, k: nat): Option<Thread>
    requires p < |s.procs| && k < |s.procs[p].servers|
  {
    var mu := s.procs[p].servers[k].mu;
    if mu.Some? then Some(Thread(p, mu.value)) else None
  }

  /** The goroutine that t has to wait for, if it is blocked. */
  ghost function WaitsFor(s: State, t: Thread): Option<Thread> {
    if t.p >= |s.procs| || s.procs[t.p].main == Exited then None
    else
      var r := s.procs[t.p];
      if InBody(r, t.who) then
        (match TheBody(r, t.who)
         case WantMu => MuHolder(s, t.p, Place(r, t.who))
         case WantFlock(_) => s.flock
         case _ => None)
      else if t.who != M then None
      else
        match r.main
        case Checking(k, holding) => if !holding && k < |r.servers| then MuHolder(s, t.p, k) else None
        case Signalling(k) =>
          if k < |r.servers| && r.servers[k].watcher != Selecting then Some(Thread(t.p, W(k))) else None
        case StoppingPeriodic => if r.periodic != Ticking then Some(Thread(t.p, P)) else None
        case _ => None
  }

  /**
   The kind of thing t is waiting for, in the order in which they are acquired: 3 for a send, 2 for lifecycleMu,
   1 for the flock.
   */
  ghost function Rank(s: State, t: Thread): nat {
    if t.p >= |s.procs| then 0
    else
      var r := s.procs[t.p];
      if InBody(r, t.who) then
        (match TheBody(r, t.who)
         case WantMu => 2
         case WantFlock(_) => 1
         case _ => 0)
      else if t.who != M then 0
      else if r.main.Signalling? || r.main == StoppingPeriodic then 3
      else if r.main.Checking? && !r.main.holding then 2
      else 0
  }

  /** Who a goroutine waits for is alive and waits, if at all, for something further down. */
  lemma WaitsDown(s: State, t: Thread)
    requires Inv(s) && Alive(s, t) && WaitsFor(s, t).Some?
    ensures Alive(s, WaitsFor(s, t).value)
    ensures Rank(s, WaitsFor(s, t).value) < Rank(s, t)
  {
    var r := s.procs[t.p];
    assert ProcOk(r);
    if InBody(r, t.who) {
      assert ServerOk(r, Place(r, t.who));
    } else if r.main.Checking? || r.main.Signalling? {
      assert ServerOk(r, r.main.k);
    }
  }

  /** Each goroutine in the list waits for the next one. */
  ghost predicate WaitChain(s: State, chain: seq<Thread>) {
    && (forall n :: 0 <= n < |chain| ==> Alive(s, chain[n]))
    && forall n :: 0 <= n < |chain| - 1 ==> WaitsFor(s, chain[n]) == Some(chain[n + 1])
  }

  lemma {:induction false} RanksFall(s: State, chain: seq<Thread>, n: nat)
    requires Inv(s) && WaitChain(s, chain) && 0 < n < |chain|
    ensures Rank(s, chain[n]) < Rank(s, chain[0])
  {
    if n > 1 {
      RanksFall(s, chain, n - 1);
    }
    assert WaitsFor(s, chain[n - 1]) == Some(chain[n - 1 + 1]);
    WaitsDown(s, chain[n - 1]);
  }

  /** In no reachable state do goroutines wait for each other in a cycle. */
  lemma NoWaitCycle(states: seq<State>, actions: seq<Action>, k: nat, chain: seq<Thread>)
    requires Run(states, actions) && k < |states|
    requires |chain| > 1 && WaitChain(states[k], chain)
    ensures chain[0] != chain[|chain| - 1]
  {
    RunKeepsInv(states, actions, k);
    RanksFall(states[k], chain, |chain| - 1);
  }

  /** The goroutine that t waits for in the end: t itself if it does not wait. */
  ghost function Root(s: State, t: Thread): (root: Thread)
    requires Inv(s) && Alive(s, t)
    ensures Alive(s, root) && WaitsFor(s, root).None?
    decreases Rank(s, t)
  {
    if WaitsFor(s, t).None? then t
    else
      WaitsDown(s, t);
      Root(s, WaitsFor(s, t).value)
  }

  /** The goroutine takes part in the action: it performs it, or it is the other side of a rendezvous. */
  ghost predicate TakesPart(s: State, t: Thread, a: Action)
    requires a.p < |s.procs|
  {
    a.p == t.p &&
    match a.move
    case Operate(who, _) => t.who == who
    case Steer(main) =>
      || t.who == M
      || (main == MeetWatcher && s.procs[a.p].main.Signalling? && t.who == W(s.procs[a.p].main.k))
      || (main == MeetPeriodic && t.who == P)
    case Watch(k, _) => t.who == W(k)
    case Refresh(_) => t.who == P
    case Kill => false
  }

  ghost predicate CanMove(s: State, t: Thread) {
    exists a: Action :: Enabled(s, a) && TakesPart(s, t, a)
  }

  /** An action of a goroutine that does not wait. */
  ghost function NextAction(s: State, t: Thread): Action
    requires t.p < |s.procs|
  {
    var r := s.procs[t.p];
    if InBody(r, t.who) then
      Action(t.p, Operate(t.who, match TheBody(r, t.who)
                                 case WantMu => AcquireMu
                                 case HoldMu(_) => Finish(true)
                                 case WantFlock(_) => AcquireFlock
                                 case HoldFlock(_) => ReleaseFlock))
    else match t.who
      case M =>
        Action(t.p, Steer(match r.main
                          case Checking(_, holding) => if holding then CheckUnlock else CheckLock
                          case Signalling(_) => MeetWatcher
                          case StoppingPeriodic => MeetPeriodic
                          case _ => Term))
      case W(k) =>
        if k < |r.servers| && r.servers[k].watcher == Selecting && r.main == Signalling(k)
        then Action(t.p, Steer(MeetWatcher))
        else if k < |r.servers| && r.servers[k].watcher == Selecting then Action(t.p, Watch(k, Select))
        else if k < |r.servers| && r.servers[k].watcher == Looking then Action(t.p, Watch(k, Look(true)))
        else Action(t.p, Watch(k, Wake))
      case P =>
        Action(t.p, Refresh(match r.periodic
                            case Ticking => Tick
                            case Discovering => Discover(true)
                            case _ => UpdateOne))
  }

  lemma UnblockedCanMove(s: State, t: Thread)
    requires Inv(s) && Alive(s, t) && WaitsFor(s, t).None?
    ensures Enabled(s, NextAction(s, t)) && TakesPart(s, t, NextAction(s, t)) && CanMove(s, t)
  {
    var r := s.procs[t.p];
    assert ProcOk(r);
    if InBody(r, t.who) {
      assert ServerOk(r, Place(r, t.who));
    }
    assert Enabled(s, NextAction(s, t)) && TakesPart(s, t, NextAction(s, t));
  }

  /**
   Deadlock-freedom. In every reachable state, for any number of processes and servers, every living
   goroutine can move or waits, along a chain of the wait-for relation, for a living one that can.
   */
  lemma DeadlockFree(states: seq<State>, actions: seq<Action>, k: nat, t: Thread)
    requires Run(states, actions) && k < |states| && Alive(states[k], t)
    ensures Inv(states[k]) && CanMove(states[k], Root(states[k], t))
  {
    RunKeepsInv(states, actions, k);
    UnblockedCanMove(states[k], Root(states[k], t));
  }

  /**
   Stop against Watch. The main goroutine and the watcher of a server never wait for each other; and from
   the moment Stop sends on stopWatcher, the watcher calls Restart at most once before it receives.
   */
  lemma StopAgainstWatch(states: seq<State>, actions: seq<Action>, n: nat, p: nat, k: nat)
    requires Run(states, actions) && n < |states| && p < |states[n].procs| && k < |states[n].procs[p].servers|
    requires states[n].procs[p].main != Exited
    ensures !(WaitsFor(states[n], Thread(p, M)) == Some(Thread(p, W(k)))
              && WaitsFor(states[n], Thread(p, W(k))) == Some(Thread(p, M)))
    ensures states[n].procs[p].main == Signalling(k) ==>
              && Active(states[n].procs[p].servers[k].watcher)
              && states[n].procs[p].servers[k].revived <= 1
              && states[n].procs[p].servers[k].mu != Some(M)
  {
    RunKeepsInv(states, actions, n);
    var s := states[n];
    assert ProcOk(s.procs[p]) && ServerOk(s.procs[p], k);
    var main, watcher := Thread(p, M), Thread(p, W(k));
    if WaitsFor(s, main) == Some(watcher) && WaitsFor(s, watcher) == Some(main) {
      WaitsDown(s, main);
      WaitsDown(s, watcher);
    }
  }

  /** From its first start until its stop a server runs, whatever became of its restarts; its watcher can retry. */
  lemma ServerRunsUntilStopped(states: seq<State>, actions: seq<Action>, n: nat, p: nat, k: nat)
    requires Run(states, actions) && n < |states| && p < |states[n].procs| && k < |states[n].procs[p].servers|
    requires states[n].procs[p].main != Exited && Active(states[n].procs[p].servers[k].watcher)
    ensures states[n].procs[p].servers[k].running
  {
    RunKeepsInv(states, actions, n);
    assert ProcOk(states[n].procs[p]) && ServerOk(states[n].procs[p], k);
  }
}
