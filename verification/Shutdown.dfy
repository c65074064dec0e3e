/**
 The shutdown of a process terminates: the rendezvous with the periodic goroutine, then for each server the
 rendezvous with its watcher and its stop. Other goroutines, of this process and of the others that share
 the socket directory, go on in the meantime.

 A step is helpful when it is one of the goroutine that the main goroutine waits for in the end (itself if it
 does not wait). Another goroutine overtakes when it takes what that goroutine could have taken: a lock, or
 the periodic goroutine's select. Helpful steps bring the shutdown closer to its end, overtaking sets it back
 by a bounded amount, and no other step of any goroutine delays it.
 */
module Shutdown {
  import opened Wrappers
  import opened Lifecycle
  import opened DeadlockFreedom

  ghost predicate ShuttingDown(main: MainPc) {
    main == StoppingPeriodic || main.Checking? || main.Signalling? || main.Stopping?
  }

  // ---------- the distance to the end ----------

  /** The steps a goroutine has left inside an operation, and one more while it waits for the flock. */
  ghost function BodyLeft(b: Body, locked: bool): nat {
    match b
    case WantMu => 10
    case HoldMu(left) => 4 * left + 1
    case WantFlock(left) => if left == 0 then 0 else 4 * left - 1 + if locked then 1 else 0
    case HoldFlock(left) => if left == 0 then 0 else 4 * left - 2
  }

  /** The steps a watcher has left until its select. */
  ghost function WatcherLeft(w: WatcherPc, locked: bool): nat {
    match w
    case Sleeping => 1
    case Looking => 12
    case Reviving(body) => 1 + BodyLeft(body, locked)
    case _ => 0
  }

  /** The steps the watcher of server k has left until it lets go of lifecycleMu. */
  ghost function MuLeft(v: Server, k: nat, locked: bool): nat {
    if v.mu == Some(W(k)) && v.watcher.Reviving? then BodyLeft(v.watcher.body, locked) else 0
  }

  /** The steps the periodic goroutine has left until its select. */
  ghost function PeriodicLeft(r: Process): nat {
    match r.periodic
    case Discovering => |r.servers| + 2
    case Updating(j) => if j <= |r.servers| then |r.servers| - j + 1 else 0
    case _ => 0
  }

  /** What the stops of the servers after k can take. */
  ghost function LaterServers(r: Process, k: nat): nat {
    if k < |r.servers| then 35 * (|r.servers| - 1 - k) else 0
  }

  ghost function Distance(r: Process, locked: bool): nat {
    match r.main
    case StoppingPeriodic => 35 * |r.servers| + 1 + PeriodicLeft(r)
    case Checking(k, holding) =>
      LaterServers(r, k) + if holding || k >= |r.servers| then 24 else 25 + MuLeft(r.servers[k], k, locked)
    case Signalling(k) =>
      LaterServers(r, k) + 11 + if k < |r.servers| then WatcherLeft(r.servers[k].watcher, locked) else 0
    case Stopping(k, body) => LaterServers(r, k) + BodyLeft(body, locked)
    case _ => 0
  }

  ghost function DistanceIn(s: State, p: nat): nat
    requires p < |s.procs|
  {
    Distance(s.procs[p], s.flock.Some?)
  }

  ghost function MainRoot(s: State, p: nat): Thread
    requires Inv(s) && p < |s.procs| && s.procs[p].main != Exited
  {
    Root(s, Thread(p, M))
  }

  ghost predicate Helpful(s: State, p: nat, a: Action)
    requires Inv(s) && p < |s.procs| && s.procs[p].main != Exited && a.p < |s.procs|
  {
    TakesPart(s, MainRoot(s, p), a)
  }

  ghost predicate Overtakes(s: State, p: nat, a: Action)
    requires Inv(s) && p < |s.procs| && s.procs[p].main != Exited && Enabled(s, a)
  {
    !Helpful(s, p, a) && WaitsFor(Apply(s, a), MainRoot(s, p)).Some?
  }

  /** How far overtaking sets the shutdown back. */
  ghost function Setback(s: State, p: nat): nat
    requires p < |s.procs|
  {
    |s.procs[p].servers| + 9
  }

  // ---------- the chain from main ----------

  /** The goroutine of p, in its shutdown, that may be waiting for the flock: main, or the watcher main waits for. */
  ghost function FlockWaiter(r: Process): Option<Who> {
    match r.main
    case Stopping(_, body) => if body.WantFlock? then Some(M) else None
    case Checking(k, holding) =>
      if !holding && k < |r.servers| && r.servers[k].mu == Some(W(k))
         && r.servers[k].watcher.Reviving? && r.servers[k].watcher.body.WantFlock? then Some(W(k)) else None
    case Signalling(k) =>
      if k < |r.servers| && r.servers[k].watcher.Reviving? && r.servers[k].watcher.body.WantFlock?
      then Some(W(k)) else None
    case _ => None
  }

  /** The goroutines of p that its shutdown is waiting for, the flock apart. */
  ghost predicate OnPath(r: Process, who: Who) {
    match who
    case M => true
    case W(k) =>
      || r.main == Signalling(k)
      || (r.main == Checking(k, false) && k < |r.servers| && r.servers[k].mu == Some(W(k)))
    case P => r.main == StoppingPeriodic
  }

  /** The watcher takes the lifecycleMu that main is after. */
  ghost predicate Revival(r: Process, m: Move) {
    r.main.Checking? && !r.main.holding && m == Operate(W(r.main.k), AcquireMu)
  }

  /** If there is one, it - or who it waits for - is where main's chain ends. */
  lemma RootOfFlockWaiter(s: State, p: nat)
    requires Inv(s) && p < |s.procs| && ShuttingDown(s.procs[p].main) && FlockWaiter(s.procs[p]).Some?
    ensures MainRoot(s, p) == if s.flock.Some? then s.flock.value else Thread(p, FlockWaiter(s.procs[p]).value)
  {
    var r := s.procs[p];
    assert ProcOk(r);
    if r.main.Checking? || r.main.Signalling? {
      assert ServerOk(r, r.main.k);
    }
    var t := Thread(p, FlockWaiter(r).value);
    assert WaitsFor(s, t) == s.flock;
    assert Alive(s, t);
    if t.who != M {
      assert WaitsFor(s, Thread(p, M)) == Some(t);
      assert Root(s, Thread(p, M)) == Root(s, t);
    }
    if s.flock.Some? {
      WaitsDown(s, t);
      assert WaitsFor(s, s.flock.value).None?;
      assert Root(s, t) == Root(s, s.flock.value) == s.flock.value;
    }
  }

  /** Otherwise it ends in p. */
  lemma RootWithoutFlock(s: State, p: nat)
    requires Inv(s) && p < |s.procs| && ShuttingDown(s.procs[p].main) && FlockWaiter(s.procs[p]).None?
    ensures MainRoot(s, p) ==
              if WaitsFor(s, Thread(p, M)).Some? then WaitsFor(s, Thread(p, M)).value else Thread(p, M)
    ensures MainRoot(s, p).p == p && OnPath(s.procs[p], MainRoot(s, p).who)
  {
    var r := s.procs[p];
    assert ProcOk(r);
    if r.main.Checking? || r.main.Signalling? || r.main.Stopping? {
      assert ServerOk(r, r.main.k);
    }
    var next := WaitsFor(s, Thread(p, M));
    if next.Some? {
      WaitsDown(s, Thread(p, M));
      assert WaitsFor(s, next.value).None?;
      assert Root(s, Thread(p, M)) == Root(s, next.value) == next.value;
    }
  }

  // ---------- one step ----------

  ghost function Actor(m: Move): Who {
    match m
    case Operate(who, _) => who
    case Steer(_) => M
    case Watch(k, _) => W(k)
    case Refresh(_) => P
    case Kill => M
  }

  lemma MainOperateDecreases(s: State, p: nat, step: BodyStep)
    requires Inv(s) && p < |s.procs| && ShuttingDown(s.procs[p].main) && Enabled(s, Action(p, Operate(M, step)))
    ensures DistanceIn(Apply(s, Action(p, Operate(M, step))), p) < DistanceIn(s, p)
  {
    var r := s.procs[p];
    assert ProcOk(r) && ServerOk(r, r.main.k);
    if r.main.k + 1 < |r.servers| {
      assert ServerOk(r, r.main.k + 1);
    }
  }

  lemma SteerDecreases(s: State, p: nat, main: MainStep)
    requires Inv(s) && p < |s.procs| && ShuttingDown(s.procs[p].main) && Enabled(s, Action(p, Steer(main)))
    ensures DistanceIn(Apply(s, Action(p, Steer(main))), p) < DistanceIn(s, p)
  {
    var r := s.procs[p];
    assert ProcOk(r);
    if !r.main.StoppingPeriodic? {
      assert ServerOk(r, r.main.k);
      if r.main.k + 1 < |r.servers| {
        assert ServerOk(r, r.main.k + 1);
      }
    } else if 0 < |r.servers| {
      assert ServerOk(r, 0);
    }
  }

  lemma WatcherOperateDecreases(s: State, p: nat, k: nat, step: BodyStep)
    requires Inv(s) && p < |s.procs| && ShuttingDown(s.procs[p].main) && Enabled(s, Action(p, Operate(W(k), step)))
    requires OnPath(s.procs[p], W(k))
    ensures DistanceIn(Apply(s, Action(p, Operate(W(k), step))), p) < DistanceIn(s, p)
  {
    var r := s.procs[p];
    assert ProcOk(r) && ServerOk(r, k);
  }

  lemma WatchDecreases(s: State, p: nat, k: nat, watcher: WatcherStep)
    requires Inv(s) && p < |s.procs| && ShuttingDown(s.procs[p].main) && Enabled(s, Action(p, Watch(k, watcher)))
    requires OnPath(s.procs[p], W(k))
    ensures DistanceIn(Apply(s, Action(p, Watch(k, watcher))), p) < DistanceIn(s, p)
  {
    var r := s.procs[p];
    assert ProcOk(r) && ServerOk(r, k);
  }

  lemma RefreshDecreases(s: State, p: nat, periodic: PeriodicStep)
    requires Inv(s) && p < |s.procs| && s.procs[p].main == StoppingPeriodic && Enabled(s, Action(p, Refresh(periodic)))
    requires periodic != Tick
    ensures DistanceIn(Apply(s, Action(p, Refresh(periodic))), p) < DistanceIn(s, p)
  {
    assert ProcOk(s.procs[p]);
  }

  lemma PathDecreases(s: State, p: nat, m: Move)
    requires Inv(s) && p < |s.procs| && ShuttingDown(s.procs[p].main) && Enabled(s, Action(p, m))
    requires OnPath(s.procs[p], Actor(m)) && m != Refresh(Tick) && m != Kill
    ensures DistanceIn(Apply(s, Action(p, m)), p) < DistanceIn(s, p)
  {
    assert ProcOk(s.procs[p]);
    match m
    case Operate(who, step) =>
      if who == M {
        MainOperateDecreases(s, p, step);
      } else {
        WatcherOperateDecreases(s, p, who.k, step);
      }
    case Steer(main) => SteerDecreases(s, p, main);
    case Watch(k, watcher) => WatchDecreases(s, p, k, watcher);
    case Refresh(periodic) => RefreshDecreases(s, p, periodic);
  }

  /** The periodic goroutine takes a tick although main is sending to it. */
  lemma TickOvertakes(s: State, p: nat)
    requires Inv(s) && p < |s.procs| && s.procs[p].main == StoppingPeriodic && Enabled(s, Action(p, Refresh(Tick)))
    ensures Overtakes(s, p, Action(p, Refresh(Tick)))
    ensures DistanceIn(Apply(s, Action(p, Refresh(Tick))), p) <= DistanceIn(s, p) + Setback(s, p)
  {
    RootWithoutFlock(s, p);
    assert WaitsFor(s, Thread(p, M)).None?;
  }

  lemma RevivalOvertakes(s: State, p: nat, k: nat)
    requires Inv(s) && p < |s.procs| && s.procs[p].main == Checking(k, false)
    requires Enabled(s, Action(p, Operate(W(k), AcquireMu)))
    ensures Overtakes(s, p, Action(p, Operate(W(k), AcquireMu)))
    ensures DistanceIn(Apply(s, Action(p, Operate(W(k), AcquireMu))), p) <= DistanceIn(s, p) + Setback(s, p)
  {
    var r := s.procs[p];
    assert ProcOk(r) && ServerOk(r, k);
    RootWithoutFlock(s, p);
    assert WaitsFor(s, Thread(p, M)).None?;
  }

  /** The goroutine's step leaves the shutdown as it is, the flock apart. */
  ghost predicate Aside(r: Process, u: Process, locked: bool) {
    && Distance(u, locked) == Distance(r, locked)
    && FlockWaiter(u) == FlockWaiter(r)
    && u.main == r.main
  }

  lemma SameServerIsAside(r: Process, u: Process, locked: bool)
    requires u.main == r.main && |u.servers| == |r.servers| && u.periodic == r.periodic
    requires (r.main.Checking? && !r.main.holding) || r.main.Signalling? ==>
               r.main.k < |r.servers| && u.servers[r.main.k] == r.servers[r.main.k]
    ensures Aside(r, u, locked)
  {
  }

  lemma SideOperate(r: Process, j: nat, step: BodyStep, locked: bool)
    requires ProcOk(r) && ShuttingDown(r.main) && OperateEnabled(r, W(j), step) && !OnPath(r, W(j))
    requires !(r.main == Checking(j, false) && step == AcquireMu)
    ensures Aside(r, OperateApply(r, W(j), step), locked)
  {
    assert ServerOk(r, j);
    assert r.main != Checking(j, false);
    SameServerIsAside(r, OperateApply(r, W(j), step), locked);
  }

  lemma SideWatch(r: Process, j: nat, watcher: WatcherStep, locked: bool)
    requires ProcOk(r) && ShuttingDown(r.main) && WatchEnabled(r, j, watcher) && !OnPath(r, W(j))
    ensures Aside(r, WatchApply(r, j, watcher), locked)
  {
    assert ServerOk(r, j);
  }

  lemma SideMove(r: Process, m: Move, locked: bool)
    requires ProcOk(r) && ShuttingDown(r.main) && MoveEnabled(r, m) && !OnPath(r, Actor(m))
    requires !Revival(r, m)
    ensures Aside(r, MoveApply(r, m), locked)
  {
    match m
    case Operate(who, step) => SideOperate(r, who.k, step, locked);
    case Watch(j, watcher) => SideWatch(r, j, watcher, locked);
    case Refresh(_) =>
  }

  lemma FlockDelaysByOne(r: Process)
    requires ProcOk(r) && ShuttingDown(r.main)
    ensures Distance(r, true) == Distance(r, false) + if FlockWaiter(r).Some? then 1 else 0
  {
    if r.main.Checking? || r.main.Signalling? {
      assert ServerOk(r, r.main.k);
    }
  }

  /** A step of a goroutine that the shutdown is not waiting for leaves all of the distance but the flock's share. */
  lemma SideStays(s: State, p: nat, a: Action)
    requires Inv(s) && p < |s.procs| && ShuttingDown(s.procs[p].main) && Enabled(s, a)
    requires a.p == p ==> a.move != Kill && !OnPath(s.procs[p], Actor(a.move))
    requires a.p == p ==> !Revival(s.procs[p], a.move)
    ensures ShuttingDown(Apply(s, a).procs[p].main)
    ensures DistanceIn(Apply(s, a), p) == Distance(s.procs[p], Apply(s, a).flock.Some?)
    ensures FlockWaiter(Apply(s, a).procs[p]) == FlockWaiter(s.procs[p])
  {
    assert ProcOk(s.procs[p]);
    if a.p == p {
      SideMove(s.procs[p], a.move, Apply(s, a).flock.Some?);
    }
  }

  /** A step of a goroutine that the shutdown is not waiting for can matter through the flock alone. */
  lemma SideStep(s: State, p: nat, a: Action)
    requires Inv(s) && p < |s.procs| && ShuttingDown(s.procs[p].main) && Enabled(s, a)
    requires a.p == p ==> a.move != Kill && !OnPath(s.procs[p], Actor(a.move))
    requires a.p == p ==> !Revival(s.procs[p], a.move)
    ensures ShuttingDown(Apply(s, a).procs[p].main)
    ensures DistanceIn(Apply(s, a), p) + (if Helpful(s, p, a) then 1 else 0)
         <= DistanceIn(s, p) + (if Overtakes(s, p, a) then Setback(s, p) else 0)
  {
    var r, u := s.procs[p], Apply(s, a);
    SideStays(s, p, a);
    FlockDelaysByOne(r) by { assert ProcOk(r); }
    hide Distance, FlockWaiter, ShuttingDown;
    if FlockWaiter(r).None? {
      RootWithoutFlock(s, p);
    } else {
      RootOfFlockWaiter(s, p);
      var t := Thread(p, FlockWaiter(r).value);
      if s.flock.Some? {
        if Helpful(s, p, a) {
          HolderReleases(s, a);
        }
      } else if u.flock.Some? {
        assert WaitsFor(u, t) == u.flock;
      }
    }
  }

  /** The only step of the flock's holder is to release it. */
  lemma HolderReleases(s: State, a: Action)
    requires Inv(s) && Enabled(s, a) && s.flock.Some? && TakesPart(s, s.flock.value, a)
    ensures Apply(s, a).flock == None
  {
    var r := s.procs[a.p];
    assert ProcOk(r);
    assert HoldsFlock(r, s.flock.value.who);
    assert ServerOk(r, Place(r, s.flock.value.who));
  }

  ghost predicate Progress(s: State, p: nat, a: Action)
    requires Inv(s) && p < |s.procs| && s.procs[p].main != Exited && Enabled(s, a)
  {
    var u := Apply(s, a);
    && (u.procs[p].main == Exited || ShuttingDown(u.procs[p].main))
    && DistanceIn(u, p) + (if Helpful(s, p, a) then 1 else 0)
         <= DistanceIn(s, p) + (if Overtakes(s, p, a) then Setback(s, p) else 0)
  }

  lemma PathStep(s: State, p: nat, m: Move)
    requires Inv(s) && p < |s.procs| && ShuttingDown(s.procs[p].main) && Enabled(s, Action(p, m))
    requires OnPath(s.procs[p], Actor(m)) && m != Refresh(Tick) && m != Kill
    ensures Progress(s, p, Action(p, m))
  {
    PathDecreases(s, p, m);
  }

  /**
   One step. The shutdown goes on; a helpful step brings it closer to its end, an overtaking one sets it
   back by a bounded amount, and no other step delays it.
   */
  lemma StepProgress(s: State, p: nat, a: Action)
    requires Inv(s) && p < |s.procs| && ShuttingDown(s.procs[p].main) && Enabled(s, a)
    ensures Progress(s, p, a)
  {
    var r := s.procs[p];
    if a.p == p && a.move == Refresh(Tick) && r.main == StoppingPeriodic {
      TickOvertakes(s, p);
    } else if a.p == p && Revival(r, a.move) {
      RevivalOvertakes(s, p, r.main.k);
    } else if a.p == p && a.move == Kill {
      assert Apply(s, a).procs[p].main == Exited;
    } else if a.p == p && OnPath(r, Actor(a.move)) {
      PathStep(s, p, a.move);
    } else {
      SideStep(s, p, a);
    }
  }

  lemma ServersStay(r: Process, m: Move)
    requires MoveEnabled(r, m)
    ensures |MoveApply(r, m).servers| == |r.servers|
  {
  }

  // ---------- whole runs ----------

  /** How many of the steps lo..hi help the shutdown of p, and how many overtake it. */
  ghost function HelpfulSteps(states: seq<State>, actions: seq<Action>, p: nat, lo: nat, hi: nat): nat
    requires Run(states, actions) && lo <= hi < |states| && GoesOn(states, p, lo, hi)
  {
    if lo == hi then 0
    else
      RunKeepsInv(states, actions, hi - 1);
      HelpfulSteps(states, actions, p, lo, hi - 1)
      + if Helpful(states[hi - 1], p, actions[hi - 1]) then 1 else 0
  }

  ghost function OvertakingSteps(states: seq<State>, actions: seq<Action>, p: nat, lo: nat, hi: nat): nat
    requires Run(states, actions) && lo <= hi < |states| && GoesOn(states, p, lo, hi)
  {
    if lo == hi then 0
    else
      RunKeepsInv(states, actions, hi - 1);
      OvertakingSteps(states, actions, p, lo, hi - 1)
      + if Overtakes(states[hi - 1], p, actions[hi - 1]) then 1 else 0
  }

  /** Process p has not ended before the last of the states. */
  ghost predicate GoesOn(states: seq<State>, p: nat, lo: nat, hi: nat)
    requires lo <= hi < |states|
  {
    forall n :: lo <= n < hi ==> p < |states[n].procs| && states[n].procs[p].main != Exited
  }

  /** StepProgress, for step n of a run. */
  lemma RunStep(states: seq<State>, actions: seq<Action>, p: nat, n: nat)
    requires Run(states, actions) && n + 1 < |states| && p < |states[n].procs| && ShuttingDown(states[n].procs[p].main)
    ensures Inv(states[n])
    ensures |states[n + 1].procs| == |states[n].procs|
    ensures Setback(states[n + 1], p) == Setback(states[n], p)
    ensures states[n + 1].procs[p].main == Exited || ShuttingDown(states[n + 1].procs[p].main)
    ensures DistanceIn(states[n + 1], p) + (if Helpful(states[n], p, actions[n]) then 1 else 0)
         <= DistanceIn(states[n], p) + (if Overtakes(states[n], p, actions[n]) then Setback(states[n], p) else 0)
  {
    RunKeepsInv(states, actions, n);
    StepProgress(states[n], p, actions[n]);
    if actions[n].p == p {
      ServersStay(states[n].procs[p], actions[n].move);
    }
  }

  lemma OnceMore(setback: nat, times: nat)
    ensures setback * (times + 1) == setback * times + setback
  {
  }

  /**
   Shutdown terminates. However many servers and processes there are and however their goroutines
   interleave, as long as process p is shutting down the number of helpful steps is bounded by the
   distance at its beginning and by how often it was overtaken. Since, by SomeStepHelps, a helpful step can
   always be taken, only endless overtaking can keep the process from its end.
   */
  lemma {:induction false} ShutdownTerminates(states: seq<State>, actions: seq<Action>, p: nat, lo: nat, hi: nat)
    requires Run(states, actions) && lo <= hi < |states| && GoesOn(states, p, lo, hi)
    requires p < |states[lo].procs| && ShuttingDown(states[lo].procs[p].main)
    ensures |states[hi].procs| == |states[lo].procs|
    ensures Setback(states[hi], p) == Setback(states[lo], p)
    ensures states[hi].procs[p].main == Exited || ShuttingDown(states[hi].procs[p].main)
    ensures HelpfulSteps(states, actions, p, lo, hi) + DistanceIn(states[hi], p)
         <= DistanceIn(states[lo], p)
            + Setback(states[lo], p) * OvertakingSteps(states, actions, p, lo, hi)
    decreases hi
  {
    hide Run, ShuttingDown, DistanceIn, Helpful, Overtakes, Setback, Inv;
    if lo < hi {
      ShutdownTerminates(states, actions, p, lo, hi - 1);
      RunStep(states, actions, p, hi - 1);
      OnceMore(Setback(states[lo], p), OvertakingSteps(states, actions, p, lo, hi - 1));
    }
  }

  /** The distance is bounded by the number of servers alone. */
  lemma DistanceIsBounded(states: seq<State>, actions: seq<Action>, p: nat, n: nat)
    requires Run(states, actions) && n < |states| && p < |states[n].procs|
    ensures DistanceIn(states[n], p) <= 36 * |states[n].procs[p].servers| + 3
  {
    RunKeepsInv(states, actions, n);
    var r := states[n].procs[p];
    assert ProcOk(r);
    if r.main.Checking? || r.main.Signalling? {
      assert ServerOk(r, r.main.k);
    }
  }

  /** As long as the process has not ended, some helpful step can be taken. */
  lemma SomeStepHelps(states: seq<State>, actions: seq<Action>, p: nat, n: nat)
    requires Run(states, actions) && n < |states| && p < |states[n].procs| && states[n].procs[p].main != Exited
    ensures Inv(states[n]) && exists a: Action :: Enabled(states[n], a) && Helpful(states[n], p, a)
  {
    DeadlockFree(states, actions, n, Thread(p, M));
    var s := states[n];
    var a: Action :| Enabled(s, a) && TakesPart(s, MainRoot(s, p), a);
    assert Helpful(s, p, a);
  }
}
