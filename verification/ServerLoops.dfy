/**
 What the loops over the servers get done (cmd/k8s-rdma-shared-dp/main.go, pkg/resources/resources_manager.go): a
 shutdown that is not cut short has stopped every server, a SIGHUP restarts every server, a tick updates every server,
 and a watcher restarts its server when the path is missing.
 */
module ServerLoops {
  import opened Lifecycle
  import opened Wrappers

  // ---------- shutdown ----------

  ghost predicate Stops(main: MainPc) {
    main.Checking? || main.Signalling? || main.Stopping?
  }

  /** What step n does to process p. */
  lemma StepOf(states: seq<State>, actions: seq<Action>, n: nat, p: nat)
    requires Run(states, actions) && n < |actions| && p < |states[n].procs|
    ensures p < |states[n + 1].procs| && ProcOk(states[n].procs[p])
    ensures if actions[n].p != p then states[n + 1].procs[p] == states[n].procs[p]
            else MoveEnabled(states[n].procs[p], actions[n].move)
                 && states[n + 1].procs[p] == MoveApply(states[n].procs[p], actions[n].move)
  {
    RunKeepsInv(states, actions, n);
    hide MoveEnabled, MoveApply, ProcOk, FlockOk;
  }

  /** Of a shutdown, the servers before the present one are done with, and so is the periodic goroutine. */
  ghost predicate StoppedOk(r: Process) {
    && (!r.periodicOn || r.main.Starting? ==> r.periodic == Off)
    && (Stops(r.main) ==>
          && (r.periodic == Off || r.periodic == Ended)
          && forall j :: 0 <= j < |r.servers| && j < r.main.k ==> !r.servers[j].running)
  }

  /** Nothing of the process is left to run. */
  ghost predicate AllStopped(r: Process) {
    && (r.periodic == Off || r.periodic == Ended)
    && (forall k :: 0 <= k < |r.servers| ==> !r.servers[k].running)
    && (!r.watchMode ==> forall k :: 0 <= k < |r.servers| ==> r.servers[k].watcher == Returned)
  }

  /** The process ends before its time: it is killed, or a start, a restart or a stop of main fails. */
  ghost predicate CutsShort(m: Move) {
    m == Kill || m == Operate(M, Finish(false))
  }

  lemma OperateKeepsStopped(r: Process, who: Who, step: BodyStep)
    requires ProcOk(r) && StoppedOk(r) && MoveEnabled(r, Operate(who, step))
    ensures StoppedOk(OperateApply(r, who, step))
  {
    if InBody(r, who) {
      assert ServerOk(r, Place(r, who));
    }
  }

  lemma MoveKeepsStopped(r: Process, m: Move)
    requires ProcOk(r) && StoppedOk(r) && MoveEnabled(r, m)
    ensures StoppedOk(MoveApply(r, m))
  {
    match m
    case Operate(who, step) => OperateKeepsStopped(r, who, step);
    case _ =>
  }

  lemma {:induction false} RunKeepsStopped(states: seq<State>, actions: seq<Action>, n: nat, p: nat)
    requires Run(states, actions) && n < |states| && p < |states[n].procs|
    ensures StoppedOk(states[n].procs[p])
  {
    if n > 0 {
      assert |states[n - 1].procs| == |states[n].procs|;
      RunKeepsStopped(states, actions, n - 1, p);
      StepOf(states, actions, n - 1, p);
      hide Run, MoveEnabled, MoveApply, ProcOk, StoppedOk;
      if actions[n - 1].p == p {
        MoveKeepsStopped(states[n - 1].procs[p], actions[n - 1].move);
      }
    }
  }

  lemma LastStopIsComplete(r: Process)
    requires ProcOk(r) && StoppedOk(r) && MoveEnabled(r, Operate(M, Finish(true)))
    requires MoveApply(r, Operate(M, Finish(true))).main == Exited
    ensures AllStopped(MoveApply(r, Operate(M, Finish(true))))
  {
    forall k | 0 <= k < |r.servers|
      ensures !r.watchMode ==> r.servers[k].watcher == Returned
      ensures k != r.main.k ==> !r.servers[k].running
    {
      assert ServerOk(r, k);
    }
  }

  lemma SteeringOutIsComplete(r: Process, main: MainStep)
    requires ProcOk(r) && StoppedOk(r) && MoveEnabled(r, Steer(main)) && SteerApply(r, main).main == Exited
    ensures AllStopped(SteerApply(r, main))
  {
    if main == CheckUnlock {
      CheckGoesOn(r);
    }
  }

  lemma CheckGoesOn(r: Process)
    requires ProcOk(r) && MoveEnabled(r, Steer(CheckUnlock))
    ensures SteerApply(r, CheckUnlock).main != Exited
  {
    assert ServerOk(r, r.main.k);
  }

  lemma ExitIsComplete(r: Process, m: Move)
    requires ProcOk(r) && StoppedOk(r) && MoveEnabled(r, m) && !CutsShort(m) && MoveApply(r, m).main == Exited
    ensures AllStopped(MoveApply(r, m))
  {
    if m == Operate(M, Finish(true)) {
      LastStopIsComplete(r);
    } else if m.Steer? {
      SteeringOutIsComplete(r, m.main);
    } else {
      OnlyMainEnds(r, m);
    }
  }

  lemma OnlyMainEnds(r: Process, m: Move)
    requires MoveEnabled(r, m) && m != Operate(M, Finish(true)) && !m.Steer? && !CutsShort(m)
    ensures MoveApply(r, m).main != Exited
  {
  }

  /**
   A shutdown gets done. When a process ends, and is not killed and no operation of main has failed, then every server
   has been stopped, without watch mode every watcher has returned, and the periodic goroutine has ended.
   */
  lemma ShutdownStopsAll(states: seq<State>, actions: seq<Action>, n: nat)
    requires Run(states, actions) && n < |actions| && !CutsShort(actions[n].move)
    requires actions[n].p < |states[n + 1].procs| && states[n + 1].procs[actions[n].p].main == Exited
    ensures AllStopped(states[n + 1].procs[actions[n].p])
  {
    StepOf(states, actions, n, actions[n].p);
    RunKeepsStopped(states, actions, n, actions[n].p);
    ExitIsComplete(states[n].procs[actions[n].p], actions[n].move);
  }

  /** All through it, the servers before the one at hand are stopped. */
  lemma EarlierServersAreStopped(states: seq<State>, actions: seq<Action>, n: nat, p: nat, j: nat)
    requires Run(states, actions) && n < |states| && p < |states[n].procs| && Stops(states[n].procs[p].main)
    requires j < |states[n].procs[p].servers| && j < states[n].procs[p].main.k
    ensures !states[n].procs[p].servers[j].running
  {
    RunKeepsStopped(states, actions, n, p);
  }

  /** And a failed operation of main, or its death, does end the process. */
  lemma CutShortEnds(states: seq<State>, actions: seq<Action>, n: nat)
    requires Run(states, actions) && n < |actions| && CutsShort(actions[n].move)
    ensures actions[n].p < |states[n + 1].procs| && states[n + 1].procs[actions[n].p].main == Exited
  {
  }

  // ---------- restart and start ----------

  /** What counts up from nothing by single hits has hit everything below where it stands. */
  lemma {:induction false} CountsUp(count: nat -> nat, hit: (nat, nat) -> bool, a: nat, b: nat, k: nat) returns (n: nat)
    requires a < b && count(a + 1) == 0 && k < count(b)
    requires forall m :: a < m < b ==>
               count(m + 1) <= count(m) || (count(m + 1) == count(m) + 1 && hit(m, count(m)))
    ensures a < n < b && hit(n, k)
  {
    n := b - 1;
    if b > a + 1 {
      var m := b - 1;
      assert count(m + 1) == count(b);
      if k < count(m) {
        n := CountsUp(count, hit, a, m, k);
      }
    }
  }

  /** Step n of the run is the successful end of main's restart of server k. */
  ghost predicate Restarted(states: seq<State>, actions: seq<Action>, n: nat, p: nat, k: nat)
    requires n < |actions| < |states|
  {
    && p < |states[n].procs|
    && actions[n] == Action(p, Operate(M, Finish(true)))
    && states[n].procs[p].main.Restarting? && states[n].procs[p].main.k == k
  }

  /** The servers that main has come past since the signal. */
  ghost function Past(r: Process): nat {
    if r.main.Restarting? then r.main.k else |r.servers|
  }

  lemma MoveOfRestarting(r: Process, m: Move)
    requires ProcOk(r) && MoveEnabled(r, m) && r.main.Restarting?
    ensures
      var u := MoveApply(r, m);
      && |u.servers| == |r.servers|
      && (m == Operate(M, Finish(true)) ==>
            u.main == if r.main.k + 1 < |r.servers| then Restarting(r.main.k + 1, WantMu) else Serving)
      && (m != Operate(M, Finish(true)) && u.main.Restarting? ==> u.main.k == r.main.k)
      && (m != Operate(M, Finish(true)) ==> u.main.Restarting? || u.main == Exited)
  {
  }

  lemma RestartingStep(states: seq<State>, actions: seq<Action>, n: nat, p: nat)
    requires Run(states, actions) && n < |actions| && p < |states[n].procs|
    requires states[n].procs[p].main.Restarting?
    requires p < |states[n + 1].procs| && states[n + 1].procs[p].main != Exited
    ensures
      var before, after := Past(states[n].procs[p]), Past(states[n + 1].procs[p]);
      after == before || (after == before + 1 && Restarted(states, actions, n, p, before))
  {
    StepOf(states, actions, n, p);
    hide Run, MoveEnabled, MoveApply, ProcOk;
    if actions[n].p == p {
      MovePastOne(states[n].procs[p], actions[n].move);
    }
  }

  /** At a, main has got a SIGHUP, and up to b it has not served again or ended. */
  ghost predicate SinceHup(states: seq<State>, actions: seq<Action>, p: nat, a: nat, b: nat) {
    && Run(states, actions) && a < b < |states| && p < |states[a].procs| && actions[a] == Action(p, Steer(Hup))
    && (forall m :: a < m < b ==> p < |states[m].procs| && states[m].procs[p].main.Restarting?)
    && p < |states[b].procs| && (states[b].procs[p].main.Restarting? || states[b].procs[p].main == Serving)
  }

  lemma HupPassesNone(r: Process)
    requires MoveEnabled(r, Steer(Hup))
    ensures Past(MoveApply(r, Steer(Hup))) == 0
  {
  }

  lemma MovePastOne(r: Process, m: Move)
    requires ProcOk(r) && MoveEnabled(r, m) && r.main.Restarting?
    ensures
      var u := MoveApply(r, m);
      u.main != Exited ==> Past(u) == Past(r) + if m == Operate(M, Finish(true)) then 1 else 0
  {
    MoveOfRestarting(r, m);
    hide MoveApply, MoveEnabled;
    assert r.main.k < |r.servers|;
  }

  ghost function PastAt(states: seq<State>, p: nat, m: nat): nat {
    if m < |states| && p < |states[m].procs| then Past(states[m].procs[p]) else 0
  }

  ghost predicate RestartedAt(states: seq<State>, actions: seq<Action>, p: nat, m: nat, k: nat) {
    m < |actions| < |states| && Restarted(states, actions, m, p, k)
  }

  lemma SinceHupStep(states: seq<State>, actions: seq<Action>, p: nat, a: nat, b: nat, m: nat)
    requires SinceHup(states, actions, p, a, b) && a < m < b
    ensures
      var before, after := PastAt(states, p, m), PastAt(states, p, m + 1);
      after <= before || (after == before + 1 && RestartedAt(states, actions, p, m, before))
  {
    RestartingStep(states, actions, m, p);
  }

  /** After a SIGHUP main serves again only when it has restarted every server. */
  lemma HupRestartsAll(states: seq<State>, actions: seq<Action>, p: nat, a: nat, b: nat, k: nat) returns (n: nat)
    requires SinceHup(states, actions, p, a, b) && states[b].procs[p].main == Serving
    requires k < |states[b].procs[p].servers|
    ensures a < n < b && RestartedAt(states, actions, p, n, k)
  {
    StepOf(states, actions, a, p);
    HupPassesNone(states[a].procs[p]);
    assert PastAt(states, p, a + 1) == 0 && k < PastAt(states, p, b);
    hide SinceHup, Run, PastAt, RestartedAt;
    forall m | a < m < b
      ensures
        var before, after := PastAt(states, p, m), PastAt(states, p, m + 1);
        after <= before || (after == before + 1 && RestartedAt(states, actions, p, m, before))
    {
      SinceHupStep(states, actions, p, a, b, m);
    }
    n := CountsUp((m: nat) => PastAt(states, p, m), (m: nat, j: nat) => RestartedAt(states, actions, p, m, j), a, b, k);
  }

  /** Main serves only when it has started every server, and without watch mode every watcher. */
  lemma ServingMeansStarted(states: seq<State>, actions: seq<Action>, n: nat, p: nat, k: nat)
    requires Run(states, actions) && n < |states| && p < |states[n].procs| && states[n].procs[p].main == Serving
    requires k < |states[n].procs[p].servers|
    ensures states[n].procs[p].servers[k].running
    ensures !states[n].procs[p].watchMode ==> Active(states[n].procs[p].servers[k].watcher)
  {
    RunKeepsInv(states, actions, n);
    assert ProcOk(states[n].procs[p]) && ServerOk(states[n].procs[p], k);
  }

  // ---------- ticks ----------

  /** Step n of the run is the update of server k. */
  ghost predicate UpdatedAt(states: seq<State>, actions: seq<Action>, n: nat, p: nat, k: nat)
    requires n < |actions| < |states|
  {
    && p < |states[n].procs|
    && actions[n] == Action(p, Refresh(UpdateOne)) && states[n].procs[p].periodic == Updating(k)
  }

  ghost function UpdatedSoFar(r: Process): nat {
    if r.periodic.Updating? then r.periodic.j else |r.servers|
  }

  lemma MoveOfUpdating(r: Process, m: Move)
    requires ProcOk(r) && StoppedOk(r) && MoveEnabled(r, m) && r.periodic.Updating?
    ensures
      var u := MoveApply(r, m);
      && |u.servers| == |r.servers|
      && (m == Refresh(UpdateOne) ==>
            u.periodic == if r.periodic.j < |r.servers| then Updating(r.periodic.j + 1) else Ticking)
      && (m != Refresh(UpdateOne) ==> u.periodic == r.periodic)
  {
    if m.Operate? && InBody(r, m.who) && r.main != Exited {
      assert ServerOk(r, Place(r, m.who));
    }
  }

  lemma UpdatingStep(states: seq<State>, actions: seq<Action>, n: nat, p: nat)
    requires Run(states, actions) && n < |actions| && p < |states[n].procs|
    requires states[n].procs[p].periodic.Updating? && p < |states[n + 1].procs|
    ensures
      var before, after := UpdatedSoFar(states[n].procs[p]), UpdatedSoFar(states[n + 1].procs[p]);
      after <= before || (after == before + 1 && UpdatedAt(states, actions, n, p, before))
  {
    StepOf(states, actions, n, p);
    RunKeepsStopped(states, actions, n, p);
    hide Run, MoveEnabled, MoveApply, ProcOk, StoppedOk;
    if actions[n].p == p {
      MoveOfUpdating(states[n].procs[p], actions[n].move);
    }
  }

  /** At a, the discovery has succeeded, and up to b the goroutine has not waited for a tick again or ended. */
  ghost predicate SinceDiscovery(states: seq<State>, actions: seq<Action>, p: nat, a: nat, b: nat) {
    && Run(states, actions) && a < b < |states| && p < |states[a].procs|
    && actions[a] == Action(p, Refresh(Discover(true)))
    && (forall m :: a < m < b ==> p < |states[m].procs| && states[m].procs[p].periodic.Updating?)
    && p < |states[b].procs|
    && (states[b].procs[p].periodic.Updating? || states[b].procs[p].periodic == Ticking)
  }

  lemma DiscoveryUpdatesNone(r: Process)
    requires MoveEnabled(r, Refresh(Discover(true)))
    ensures UpdatedSoFar(MoveApply(r, Refresh(Discover(true)))) == 0
  {
  }

  ghost function UpdatedAtMost(states: seq<State>, p: nat, m: nat): nat {
    if m < |states| && p < |states[m].procs| then UpdatedSoFar(states[m].procs[p]) else 0
  }

  ghost predicate UpdateAt(states: seq<State>, actions: seq<Action>, p: nat, m: nat, k: nat) {
    m < |actions| < |states| && UpdatedAt(states, actions, m, p, k)
  }

  lemma SinceDiscoveryStep(states: seq<State>, actions: seq<Action>, p: nat, a: nat, b: nat, m: nat)
    requires SinceDiscovery(states, actions, p, a, b) && a < m < b
    ensures
      var before, after := UpdatedAtMost(states, p, m), UpdatedAtMost(states, p, m + 1);
      after <= before || (after == before + 1 && UpdateAt(states, actions, p, m, before))
  {
    UpdatingStep(states, actions, m, p);
  }

  /** After a successful discovery the goroutine waits for the next tick only when it has updated every server. */
  lemma TickUpdatesAll(states: seq<State>, actions: seq<Action>, p: nat, a: nat, b: nat, k: nat) returns (n: nat)
    requires SinceDiscovery(states, actions, p, a, b) && states[b].procs[p].periodic == Ticking
    requires k < |states[b].procs[p].servers|
    ensures a < n < b && UpdateAt(states, actions, p, n, k)
  {
    StepOf(states, actions, a, p);
    DiscoveryUpdatesNone(states[a].procs[p]);
    assert UpdatedAtMost(states, p, a + 1) == 0 && k < UpdatedAtMost(states, p, b);
    hide SinceDiscovery, Run, UpdatedAtMost, UpdateAt;
    forall m | a < m < b
      ensures
        var before, after := UpdatedAtMost(states, p, m), UpdatedAtMost(states, p, m + 1);
        after <= before || (after == before + 1 && UpdateAt(states, actions, p, m, before))
    {
      SinceDiscoveryStep(states, actions, p, a, b, m);
    }
    n := CountsUp((m: nat) => UpdatedAtMost(states, p, m),
                  (m: nat, j: nat) => UpdateAt(states, actions, p, m, j), a, b, k);
  }

  /** After a failed one it updates nobody. */
  lemma FailedDiscoveryUpdatesNone(states: seq<State>, actions: seq<Action>, p: nat, n: nat)
    requires Run(states, actions) && n < |actions| && actions[n] == Action(p, Refresh(Discover(false)))
    ensures p < |states[n + 1].procs| && states[n + 1].procs[p].periodic == Ticking
    ensures p < |states[n].procs| && states[n + 1].procs[p].servers == states[n].procs[p].servers
  {
  }

  // ---------- watchers ----------

  /** A watcher comes to restart its server exactly when it has looked and not found the path. */
  lemma WatcherRevivesIffMissing(states: seq<State>, actions: seq<Action>, n: nat, p: nat, k: nat)
    requires Run(states, actions) && n < |actions| && p < |states[n].procs| && k < |states[n].procs[p].servers|
    requires !states[n].procs[p].servers[k].watcher.Reviving?
    ensures p < |states[n + 1].procs| && k < |states[n + 1].procs[p].servers|
    ensures states[n + 1].procs[p].servers[k].watcher.Reviving? <==> actions[n] == Action(p, Watch(k, Look(false)))
  {
    StepOf(states, actions, n, p);
    hide Run, MoveEnabled, MoveApply, ProcOk;
    if actions[n].p == p {
      MoveOfWatcher(states[n].procs[p], actions[n].move, k);
    }
  }

  lemma MoveOfWatcher(r: Process, m: Move, k: nat)
    requires ProcOk(r) && MoveEnabled(r, m) && k < |r.servers| && !r.servers[k].watcher.Reviving?
    ensures k < |MoveApply(r, m).servers|
    ensures MoveApply(r, m).servers[k].watcher.Reviving? <==> m == Watch(k, Look(false))
  {
    if m.Operate? && InBody(r, m.who) {
      assert ServerOk(r, Place(r, m.who));
    }
  }
}
