/**
 Threads and locks of the plugin: any number of processes, each with a main goroutine, a periodic-update
 goroutine and any number of resource servers with their watchers (cmd/k8s-rdma-shared-dp/main.go,
 pkg/resources/resources_manager.go, pkg/resources/server.go). They meet on the lifecycleMu of each
 server, on the unbuffered channels stopWatcher and stopChan, and on the flock of the socket directory,
 which all processes share.

 A state machine with one move for each acquisition, release and rendezvous.
 */
module Lifecycle {
  import opened Wrappers

  /**
   Where a goroutine is inside Start, Restart or the second part of Stop on one server: it takes
   lifecycleMu, goes through up to left sections under the directory lock, and lets go of lifecycleMu.
   */
  datatype Body = WantMu | HoldMu(left: nat) | WantFlock(left: nat) | HoldFlock(left: nat)

  /**
   The main goroutine: StartAllServers, the wait for a signal, RestartAllServers, and the shutdown: the
   stop function of PeriodicUpdate, then Stop on each server, which checks under lifecycleMu whether the
   server runs, signals the watcher, and stops the server.
   */
  datatype MainPc =
    | Starting(k: nat, body: Body)
    | Serving
    | Restarting(k: nat, body: Body)
    | StoppingPeriodic
    | Checking(k: nat, holding: bool)
    | Signalling(k: nat)
    | Stopping(k: nat, body: Body)
    | Exited

  /** Watch: the select, the Lstat, Restart, the sleep. */
  datatype WatcherPc = NotStarted | Selecting | Looking | Reviving(body: Body) | Sleeping | Returned

  /** The goroutine of PeriodicUpdate: the select, the discovery, and the update of server j. */
  datatype PeriodicPc = Off | Ticking | Discovering | Updating(j: nat) | Ended

  /** A goroutine of a process. */
  datatype Who = M | W(k: nat) | P

  datatype Thread = Thread(p: nat, who: Who)

  /**
   mu: who holds the server's lifecycleMu. revived: how often the watcher has called Restart since the
   main goroutine reached its send on stopWatcher.
   */
  datatype Server = Server(running: bool, mu: Option<Who>, watcher: WatcherPc, revived: nat)

  datatype Process = Process(
    watchMode: bool, periodicOn: bool, main: MainPc, periodic: PeriodicPc, servers: seq<Server>)

  datatype State = State(procs: seq<Process>, flock: Option<Thread>)

  /** A step inside an operation; Finish lets go of lifecycleMu. */
  datatype BodyStep = AcquireMu | AskFlock | AcquireFlock | ReleaseFlock | Finish(ok: bool)

  /** A signal, the two halves of Stop's check, and the two sends. */
  datatype MainStep = Hup | Term | CheckLock | CheckUnlock | MeetWatcher | MeetPeriodic

  /** The select's default branch, the Lstat, the end of the sleep. */
  datatype WatcherStep = Select | Look(present: bool) | Wake

  datatype PeriodicStep = Tick | Discover(found: bool) | UpdateOne

  datatype Move =
    | Operate(who: Who, step: BodyStep)
    | Steer(main: MainStep)
    | Watch(k: nat, watcher: WatcherStep)
    | Refresh(periodic: PeriodicStep)
    | Kill

  datatype Action = Action(p: nat, move: Move)

  // ---------- one process ----------

  /** The server and the body of the operation that the goroutine is in. */
  ghost function BodyOf(r: Process, who: Who): Option<(nat, Body)> {
    match who
    case M =>
      (match r.main
       case Starting(k, body) => Some((k, body))
       case Restarting(k, body) => Some((k, body))
       case Stopping(k, body) => Some((k, body))
       case _ => None)
    case W(k) =>
      if k < |r.servers| && r.servers[k].watcher.Reviving? then Some((k, r.servers[k].watcher.body)) else None
    case P => None
  }

  /** The server the goroutine is at. */
  ghost function Place(r: Process, who: Who): nat {
    if BodyOf(r, who).Some? then BodyOf(r, who).value.0 else 0
  }

  ghost predicate InBody(r: Process, who: Who) {
    BodyOf(r, who).Some? && Place(r, who) < |r.servers|
  }

  ghost function TheBody(r: Process, who: Who): Body
    requires InBody(r, who)
  {
    BodyOf(r, who).value.1
  }

  ghost function SetBody(r: Process, who: Who, b: Body): Process
    requires InBody(r, who)
  {
    match who
    case M => r.(main := r.main.(body := b))
    case W(k) => r.(servers := r.servers[k := r.servers[k].(watcher := Reviving(b))])
  }

  ghost function SetMu(r: Process, k: nat, mu: Option<Who>): Process
    requires k < |r.servers|
  {
    r.(servers := r.servers[k := r.servers[k].(mu := mu)])
  }

  ghost function NextStart(r: Process, k: nat): MainPc {
    if k < |r.servers| then Starting(k, WantMu) else Serving
  }

  ghost function NextRestart(r: Process, k: nat): MainPc {
    if k < |r.servers| then Restarting(k, WantMu) else Serving
  }

  ghost function NextStop(r: Process, k: nat): MainPc {
    if k < |r.servers| then Checking(k, false) else Exited
  }

  ghost function SetWatcher(r: Process, k: nat, w: WatcherPc): Process
    requires k < |r.servers|
  {
    r.(servers := r.servers[k := r.servers[k].(watcher := w)])
  }

  ghost predicate OperateEnabled(r: Process, who: Who, step: BodyStep) {
    InBody(r, who) &&
    var b := TheBody(r, who);
    match step
    case AcquireMu => b == WantMu && r.servers[Place(r, who)].mu == None
    case AskFlock => b.HoldMu? && b.left > 0
    case AcquireFlock => b.WantFlock?
    case ReleaseFlock => b.HoldFlock? && b.left > 0
    case Finish(_) => b.HoldMu?
  }

  ghost predicate SteerEnabled(r: Process, main: MainStep) {
    match main
    case Hup => r.main == Serving
    case Term => r.main == Serving
    case CheckLock => r.main.Checking? && !r.main.holding && r.main.k < |r.servers| && r.servers[r.main.k].mu == None
    case CheckUnlock => r.main.Checking? && r.main.holding && r.main.k < |r.servers|
    // the send on stopWatcher meets the receive in the watcher's select
    case MeetWatcher => r.main.Signalling? && r.main.k < |r.servers| && r.servers[r.main.k].watcher == Selecting
    // the send on stopChan meets the receive in the periodic goroutine's select
    case MeetPeriodic => r.main == StoppingPeriodic && r.periodic == Ticking
  }

  ghost predicate WatchEnabled(r: Process, k: nat, watcher: WatcherStep) {
    k < |r.servers| &&
    var w := r.servers[k].watcher;
    match watcher
    // the select takes its default branch only when nobody is sending
    case Select => w == Selecting && r.main != Signalling(k)
    case Look(_) => w == Looking
    case Wake => w == Sleeping
  }

  ghost predicate RefreshEnabled(r: Process, periodic: PeriodicStep) {
    match periodic
    case Tick => r.periodic == Ticking
    case Discover(_) => r.periodic == Discovering
    // UpdateDevices notifies without blocking
    case UpdateOne => r.periodic.Updating?
  }

  ghost predicate MoveEnabled(r: Process, m: Move) {
    r.main != Exited &&
    match m
    case Operate(who, step) => OperateEnabled(r, who, step)
    case Steer(main) => SteerEnabled(r, main)
    case Watch(k, watcher) => WatchEnabled(r, k, watcher)
    case Refresh(periodic) => RefreshEnabled(r, periodic)
    case Kill => true
  }

  ghost function OperateApply(r: Process, who: Who, step: BodyStep): Process
    requires OperateEnabled(r, who, step)
  {
    var b := TheBody(r, who);
    match step
    case AcquireMu =>
      SetMu(SetBody(r, who, HoldMu(if who == M && r.main.Stopping? then 1 else 2)), Place(r, who), Some(who))
    case AskFlock => SetBody(r, who, WantFlock(b.left))
    case AcquireFlock => SetBody(r, who, HoldFlock(b.left))
    case ReleaseFlock => SetBody(r, who, HoldMu(b.left - 1))
    case Finish(ok) => FinishApply(SetMu(r, Place(r, who), None), who, ok)
  }

  ghost function SteerApply(r: Process, main: MainStep): Process
    requires SteerEnabled(r, main)
  {
    match main
    case Hup => r.(main := NextRestart(r, 0))
    case Term => r.(main := if r.periodicOn then StoppingPeriodic else NextStop(r, 0))
    case CheckLock => SetMu(r, r.main.k, Some(M)).(main := Checking(r.main.k, true))
    case CheckUnlock =>
      var k := r.main.k;
      if !r.servers[k].running then SetMu(r, k, None).(main := NextStop(r, k + 1))
      else if r.watchMode then SetMu(r, k, None).(main := Stopping(k, WantMu))
      else r.(main := Signalling(k), servers := r.servers[k := r.servers[k].(mu := None, revived := 0)])
    case MeetWatcher => SetWatcher(r, r.main.k, Returned).(main := Stopping(r.main.k, WantMu))
    case MeetPeriodic => r.(main := NextStop(r, 0), periodic := Ended)
  }

  ghost function WatchApply(r: Process, k: nat, watcher: WatcherStep): Process
    requires WatchEnabled(r, k, watcher)
  {
    match watcher
    case Select => SetWatcher(r, k, Looking)
    case Look(present) =>
      if present then SetWatcher(r, k, Sleeping)
      else
        var v := r.servers[k];
        r.(servers := r.servers[k := v.(watcher := Reviving(WantMu), revived := v.revived + 1)])
    case Wake => SetWatcher(r, k, Selecting)
  }

  ghost function RefreshApply(r: Process, periodic: PeriodicStep): Process
    requires RefreshEnabled(r, periodic)
  {
    match periodic
    case Tick => r.(periodic := Discovering)
    case Discover(found) => r.(periodic := if found then Updating(0) else Ticking)
    case UpdateOne => r.(periodic := if r.periodic.j < |r.servers| then Updating(r.periodic.j + 1) else Ticking)
  }

  ghost function MoveApply(r: Process, m: Move): Process
    requires MoveEnabled(r, m)
  {
    match m
    case Operate(who, step) => OperateApply(r, who, step)
    case Steer(main) => SteerApply(r, main)
    case Watch(k, watcher) => WatchApply(r, k, watcher)
    case Refresh(periodic) => RefreshApply(r, periodic)
    case Kill => r.(main := Exited)
  }

  /** The end of an operation, lifecycleMu being released. A failed Start, Restart or Stop of main ends the process. */
  ghost function FinishApply(r: Process, who: Who, ok: bool): Process
    requires InBody(r, who)
  {
    match who
    case W(k) => SetWatcher(r, k, Sleeping)
    case M =>
      var k := Place(r, who);
      var v := r.servers[k];
      match r.main
      case Starting(_, _) =>
        var u := v.(running := true, watcher := if ok && !r.watchMode then Selecting else v.watcher);
        var next := if ok then NextStart(r, k + 1) else Exited;
        var periodic := if next == Serving && r.periodicOn then Ticking else r.periodic;
        r.(main := next, servers := r.servers[k := u], periodic := periodic)
      case Restarting(_, _) => r.(main := if ok then NextRestart(r, k + 1) else Exited)
      case _ => r.(main := if ok then NextStop(r, k + 1) else Exited, servers := r.servers[k := v.(running := false)])
  }

  // ---------- all processes ----------

  ghost predicate Init(s: State) {
    && s.flock == None
    && forall p :: 0 <= p < |s.procs| ==>
         && s.procs[p].main == NextStart(s.procs[p], 0)
         && (s.procs[p].periodic == if s.procs[p].main == Serving && s.procs[p].periodicOn then Ticking else Off)
         && forall k :: 0 <= k < |s.procs[p].servers| ==> s.procs[p].servers[k] == Server(false, None, NotStarted, 0)
  }

  ghost predicate TakesFlock(m: Move) {
    m.Operate? && m.step == AcquireFlock
  }

  ghost predicate Enabled(s: State, a: Action) {
    && a.p < |s.procs|
    && MoveEnabled(s.procs[a.p], a.move)
    && (TakesFlock(a.move) ==> s.flock == None)
  }

  /** The kernel releases a process's directory lock when the process ends. */
  ghost function FlockAfter(s: State, a: Action, r: Process): Option<Thread> {
    if r.main == Exited && s.flock.Some? && s.flock.value.p == a.p then None
    else if TakesFlock(a.move) then Some(Thread(a.p, a.move.who))
    else if a.move.Operate? && a.move.step == ReleaseFlock then None
    else s.flock
  }

  ghost function Apply(s: State, a: Action): State
    requires Enabled(s, a)
  {
    var r := MoveApply(s.procs[a.p], a.move);
    State(s.procs[a.p := r], FlockAfter(s, a, r))
  }

  ghost predicate Run(states: seq<State>, actions: seq<Action>) {
    && |states| == |actions| + 1
    && Init(states[0])
    && forall k :: 0 <= k < |actions| ==>
         Enabled(states[k], actions[k]) && states[k + 1] == Apply(states[k], actions[k])
  }

  // ---------- the invariant ----------

  ghost predicate HoldsMu(b: Body) {
    !b.WantMu?
  }

  ghost predicate BodyOk(b: Body) {
    && (b.HoldMu? ==> b.left <= 2)
    && (b.WantFlock? || b.HoldFlock? ==> 1 <= b.left <= 2)
  }

  ghost predicate MainHolds(main: MainPc, k: nat) {
    match main
    case Starting(j, body) => j == k && HoldsMu(body)
    case Restarting(j, body) => j == k && HoldsMu(body)
    case Stopping(j, body) => j == k && HoldsMu(body)
    case Checking(j, holding) => j == k && holding
    case _ => false
  }

  ghost predicate Active(w: WatcherPc) {
    w != NotStarted && w != Returned
  }

  /** What the watcher of server k is up to, given where main is (without watch mode). */
  ghost predicate Phase(main: MainPc, k: nat, w: WatcherPc) {
    match main
    case Starting(j, _) => if k < j then Active(w) else w == NotStarted
    case Serving | Restarting(_, _) | StoppingPeriodic => Active(w)
    case Checking(j, _) => if k < j then w == Returned else Active(w)
    case Signalling(j) => if k < j then w == Returned else Active(w)
    case Stopping(j, _) => if k <= j then w == Returned else Active(w)
    case Exited => true
  }

  /** From its first start until its stop a server is running, whatever became of its restarts. */
  ghost predicate Runs(main: MainPc, k: nat) {
    match main
    case Starting(j, _) => k < j
    case Serving | Restarting(_, _) | StoppingPeriodic => true
    case Checking(j, _) => k >= j
    case Signalling(j) => k >= j
    case Stopping(j, _) => k >= j
    case Exited => false
  }

  ghost predicate ServerOk(r: Process, k: nat)
    requires k < |r.servers|
  {
    var v := r.servers[k];
    && (v.mu == Some(M) <==> MainHolds(r.main, k))
    && (v.mu == Some(W(k)) <==> v.watcher.Reviving? && HoldsMu(v.watcher.body))
    && (v.mu.Some? ==> v.mu.value == M || v.mu.value == W(k))
    && (v.watcher.Reviving? ==> BodyOk(v.watcher.body))
    && (if r.watchMode then v.watcher == NotStarted else Phase(r.main, k, v.watcher))
    && (Runs(r.main, k) ==> v.running)
    && (r.main == Signalling(k) ==> v.revived <= if v.watcher == Looking then 0 else 1)
  }

  ghost predicate MainOk(r: Process) {
    match r.main
    case Starting(k, body) => k < |r.servers| && BodyOk(body)
    case Restarting(k, body) => k < |r.servers| && BodyOk(body)
    case Stopping(k, body) => k < |r.servers| && BodyOk(body)
    case Checking(k, _) => k < |r.servers|
    case Signalling(k) => k < |r.servers| && !r.watchMode
    case _ => true
  }

  ghost predicate PeriodicOk(r: Process) {
    && (r.periodic.Updating? ==> r.periodic.j <= |r.servers|)
    && (r.periodicOn && (r.main == Serving || r.main.Restarting? || r.main == StoppingPeriodic) ==>
          r.periodic != Off && r.periodic != Ended)
    && (r.main == StoppingPeriodic ==> r.periodicOn)
  }

  ghost predicate ProcOk(r: Process) {
    r.main != Exited ==>
      MainOk(r) && PeriodicOk(r) && forall k :: 0 <= k < |r.servers| ==> ServerOk(r, k)
  }

  ghost predicate HoldsFlock(r: Process, who: Who) {
    r.main != Exited && InBody(r, who) && TheBody(r, who).HoldFlock?
  }

  ghost predicate FlockOk(s: State) {
    && (s.flock.Some? ==> s.flock.value.p < |s.procs| && HoldsFlock(s.procs[s.flock.value.p], s.flock.value.who))
    && (forall p, who :: 0 <= p < |s.procs| && HoldsFlock(s.procs[p], who) ==> s.flock == Some(Thread(p, who)))
  }

  ghost predicate Inv(s: State) {
    && (forall p :: 0 <= p < |s.procs| ==> ProcOk(s.procs[p]))
    && FlockOk(s)
  }

  lemma OperateKeepsServer(r: Process, who: Who, step: BodyStep, k: nat)
    requires ProcOk(r) && MoveEnabled(r, Operate(who, step)) && k < |r.servers| && !step.Finish?
    ensures |OperateApply(r, who, step).servers| == |r.servers| && ServerOk(OperateApply(r, who, step), k)
  {
    match who
    case M => MainOperateKeepsServer(r, step, k);
    case W(j) => WatcherOperateKeepsServer(r, j, step, k);
  }

  lemma MainOperateKeepsServer(r: Process, step: BodyStep, k: nat)
    requires ProcOk(r) && MoveEnabled(r, Operate(M, step)) && k < |r.servers| && !step.Finish?
    ensures |OperateApply(r, M, step).servers| == |r.servers| && ServerOk(OperateApply(r, M, step), k)
  {
    assert ServerOk(r, k);
  }

  lemma WatcherOperateKeepsServer(r: Process, j: nat, step: BodyStep, k: nat)
    requires ProcOk(r) && MoveEnabled(r, Operate(W(j), step)) && k < |r.servers| && !step.Finish?
    ensures |OperateApply(r, W(j), step).servers| == |r.servers| && ServerOk(OperateApply(r, W(j), step), k)
  {
    assert ServerOk(r, k);
  }

  lemma FinishKeepsServer(r: Process, who: Who, ok: bool, k: nat)
    requires ProcOk(r) && MoveEnabled(r, Operate(who, Finish(ok))) && k < |r.servers|
    requires OperateApply(r, who, Finish(ok)).main != Exited
    ensures |OperateApply(r, who, Finish(ok)).servers| == |r.servers| && ServerOk(OperateApply(r, who, Finish(ok)), k)
  {
    match who
    case M => MainFinishKeepsServer(r, ok, k);
    case W(j) => WatcherFinishKeepsServer(r, j, ok, k);
  }

  lemma MainFinishKeepsServer(r: Process, ok: bool, k: nat)
    requires ProcOk(r) && MoveEnabled(r, Operate(M, Finish(ok))) && k < |r.servers|
    requires OperateApply(r, M, Finish(ok)).main != Exited
    ensures |OperateApply(r, M, Finish(ok)).servers| == |r.servers| && ServerOk(OperateApply(r, M, Finish(ok)), k)
  {
    assert ServerOk(r, k);
  }

  lemma WatcherFinishKeepsServer(r: Process, j: nat, ok: bool, k: nat)
    requires ProcOk(r) && MoveEnabled(r, Operate(W(j), Finish(ok))) && k < |r.servers|
    ensures
      var u := OperateApply(r, W(j), Finish(ok));
      |u.servers| == |r.servers| && ServerOk(u, k)
  {
    assert ServerOk(r, k);
  }

  lemma SteerKeepsServer(r: Process, main: MainStep, k: nat)
    requires ProcOk(r) && MoveEnabled(r, Steer(main)) && k < |r.servers| && SteerApply(r, main).main != Exited
    ensures |SteerApply(r, main).servers| == |r.servers| && ServerOk(SteerApply(r, main), k)
  {
    assert ServerOk(r, k);
  }

  lemma WatchKeepsServer(r: Process, j: nat, watcher: WatcherStep, k: nat)
    requires ProcOk(r) && MoveEnabled(r, Watch(j, watcher)) && k < |r.servers|
    ensures |WatchApply(r, j, watcher).servers| == |r.servers| && ServerOk(WatchApply(r, j, watcher), k)
  {
    assert ServerOk(r, k);
  }

  lemma MoveKeepsServer(r: Process, m: Move, k: nat)
    requires ProcOk(r) && MoveEnabled(r, m) && k < |r.servers| && MoveApply(r, m).main != Exited
    ensures |MoveApply(r, m).servers| == |r.servers| && ServerOk(MoveApply(r, m), k)
  {
    match m
    case Operate(who, step) =>
      if step.Finish? {
        FinishKeepsServer(r, who, step.ok, k);
      } else {
        OperateKeepsServer(r, who, step, k);
      }
    case Steer(main) => SteerKeepsServer(r, main, k);
    case Watch(j, watcher) => WatchKeepsServer(r, j, watcher, k);
    case Refresh(_) => assert ServerOk(r, k);
  }

  ghost predicate FrontOk(r: Process) {
    MainOk(r) && PeriodicOk(r)
  }

  lemma OperateKeepsFront(r: Process, who: Who, step: BodyStep)
    requires FrontOk(r) && OperateEnabled(r, who, step) && !step.Finish?
    ensures |OperateApply(r, who, step).servers| == |r.servers| && FrontOk(OperateApply(r, who, step))
  {
  }

  lemma FinishKeepsFront(r: Process, who: Who, ok: bool)
    requires FrontOk(r) && OperateEnabled(r, who, Finish(ok))
    ensures |OperateApply(r, who, Finish(ok)).servers| == |r.servers| && FrontOk(OperateApply(r, who, Finish(ok)))
  {
  }

  lemma MoveKeepsFront(r: Process, m: Move)
    requires ProcOk(r) && MoveEnabled(r, m) && MoveApply(r, m).main != Exited
    ensures |MoveApply(r, m).servers| == |r.servers| && FrontOk(MoveApply(r, m))
  {
    match m
    case Operate(who, step) =>
      if step.Finish? {
        FinishKeepsFront(r, who, step.ok);
      } else {
        OperateKeepsFront(r, who, step);
      }
    case Steer(main) =>
    case Watch(j, watcher) =>
    case Refresh(_) =>
  }

  lemma MoveKeepsProc(r: Process, m: Move)
    requires ProcOk(r) && MoveEnabled(r, m)
    ensures ProcOk(MoveApply(r, m))
  {
    if MoveApply(r, m).main != Exited {
      MoveKeepsFront(r, m);
      forall k | 0 <= k < |r.servers|
        ensures ServerOk(MoveApply(r, m), k)
      {
        MoveKeepsServer(r, m, k);
      }
    }
  }

  lemma FinishKeepsHold(r: Process, w: Who, ok: bool, who: Who)
    requires ProcOk(r) && OperateEnabled(r, w, Finish(ok)) && r.main != Exited
    requires OperateApply(r, w, Finish(ok)).main != Exited
    ensures HoldsFlock(OperateApply(r, w, Finish(ok)), who) <==> who != w && HoldsFlock(r, who)
  {
    assert ServerOk(r, Place(r, w));
  }

  lemma OperateKeepsHold(r: Process, w: Who, step: BodyStep, who: Who)
    requires ProcOk(r) && OperateEnabled(r, w, step) && r.main != Exited && OperateApply(r, w, step).main != Exited
    ensures HoldsFlock(OperateApply(r, w, step), who) <==>
              if who == w then step == AcquireFlock else HoldsFlock(r, who)
  {
    if step.Finish? {
      FinishKeepsHold(r, w, step.ok, who);
    }
  }

  lemma SteerKeepsHold(r: Process, main: MainStep, who: Who)
    requires SteerEnabled(r, main) && r.main != Exited && SteerApply(r, main).main != Exited
    ensures HoldsFlock(SteerApply(r, main), who) <==> HoldsFlock(r, who)
  {
  }

  /** Within a process only the release by its holder, or the end of the process, ends a hold on the flock. */
  lemma MoveKeepsHold(r: Process, m: Move, who: Who)
    requires ProcOk(r) && MoveEnabled(r, m) && MoveApply(r, m).main != Exited
    ensures HoldsFlock(MoveApply(r, m), who) <==>
              if m.Operate? && m.who == who then m.step == AcquireFlock else HoldsFlock(r, who)
  {
    match m
    case Operate(w, step) => OperateKeepsHold(r, w, step, who);
    case Steer(main) => SteerKeepsHold(r, main, who);
    case _ =>
  }

  lemma StepKeepsFlock(s: State, a: Action)
    requires Inv(s) && Enabled(s, a)
    ensures FlockOk(Apply(s, a))
  {
    var u := Apply(s, a);
    var r := MoveApply(s.procs[a.p], a.move);
    assert a.move.Operate? && a.move.step == ReleaseFlock ==> HoldsFlock(s.procs[a.p], a.move.who);
    forall p, who | 0 <= p < |u.procs| && HoldsFlock(u.procs[p], who)
      ensures u.flock == Some(Thread(p, who))
    {
      if p == a.p {
        MoveKeepsHold(s.procs[p], a.move, who);
      } else {
        assert HoldsFlock(s.procs[p], who);
      }
    }
    if u.flock.Some? && u.flock.value.p == a.p {
      MoveKeepsHold(s.procs[a.p], a.move, u.flock.value.who);
    }
  }

  lemma StepKeepsInv(s: State, a: Action)
    requires Inv(s) && Enabled(s, a)
    ensures Inv(Apply(s, a))
  {
    MoveKeepsProc(s.procs[a.p], a.move);
    StepKeepsFlock(s, a);
  }

  lemma {:induction false} RunKeepsInv(states: seq<State>, actions: seq<Action>, k: nat)
    requires Run(states, actions) && k < |states|
    ensures Inv(states[k])
  {
    if k > 0 {
      RunKeepsInv(states, actions, k - 1);
      StepKeepsInv(states[k - 1], actions[k - 1]);
    }
  }
}
