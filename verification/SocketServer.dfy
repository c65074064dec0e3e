/**
 The start, stop, restart and watch of one resource server as its methods perform them
 (pkg/resources/server.go), on the fields they update. Between any two steps of a method the other instances,
 the kubelet and the kernel may do what they like; how the system serves its calls is a parameter. Each
 method's contract is the exact sequence of SocketOwnership actions it performs itself; the theorems about all
 interleavings of these actions are in SocketOwnership and SocketCleanup.
 */
module SocketServer {
  import opened SocketOwnership
  import opened Text
  import opened Wrappers
  import ProcNetUnix

  // ---------- the system ----------

  /** How the system serves one stopAndRemoveOwnedSocketLocked. */
  datatype StopSystem = StopSystem(
    lockable: bool,                            // open and flock of the directory
    statable: bool,                            // Lstat of the path, if it is there
    table: map<Ino, nat> -> Option<string>,    // /proc/net/unix while these listeners are live; None: no access
    late: bool,                                // grpc Stop returns before the listener is closed
    removable: bool)                           // os.Remove of the path
  {
    /** The table lists at least the live listeners. */
    ghost predicate Honest(socketPath: string) {
      forall live, x :: x in live && table(live).Some? ==> x in ProcNetUnix.TableInodes(table(live).value, socketPath)
    }
  }

  /** How the system serves one startLocked. */
  datatype StartSystem = StartSystem(
    lockable: bool,
    reclaimable: bool,                         // os.Remove of the path
    bindable: bool,                            // Listen, if the path is absent
    identifiable: bool,                        // Fstat of the listener
    reachable: bool,                           // GetClientConn
    registrable: bool,                         // register
    cleanup: StopSystem)                       // the removal after a failed registration

  /** How the system serves one Restart. */
  datatype RestartSystem = RestartSystem(late: bool, start: StartSystem)

  /** What came of one stopAndRemoveOwnedSocketLocked, with what Lstat and the reader of the table met. */
  datatype StopAnswers = StopAnswers(
    locked: bool,
    there: bool, found: bool,
    live: map<Ino, nat>, rows: Option<seq<Ino>>,
    late: bool, removed: bool)

  /** What came of one startLocked, and whether the path was there when Listen was called. */
  datatype StartAnswers = StartAnswers(
    locked: bool, reclaimed: bool, there: bool, got: Option<Ino>, captured: bool, up: bool, accepted: bool,
    cleanup: StopAnswers)

  datatype RestartAnswers = RestartAnswers(late: bool, start: StartAnswers)

  /** One round of Watch: whether the path was there, whether Lstat found it, and the restart if there was one. */
  datatype WatchRound = WatchRound(there: bool, found: bool, restarts: seq<RestartAnswers>)

  datatype Error = ListenError | ConnectError | RegisterError | RemoveError | NoServer

  /** The answers are those of this system. */
  ghost predicate StopAnswered(sys: StopSystem, socketPath: string, owner: Owner, ino: Ino, w: StopAnswers) {
    && w.locked == sys.lockable && w.late == sys.late
    && (owner == Known ==> (w.found <==> sys.statable && w.there))
    && (owner == Known && w.found ==> w.rows == RowsOf(sys.table(w.live), socketPath))
    && (Removes(owner, ino, w) ==> w.removed == sys.removable)
  }

  ghost predicate BindAnswered(sys: StartSystem, w: StartAnswers) {
    && w.locked == sys.lockable && w.reclaimed == sys.reclaimable
    && (w.got.Some? <==> sys.bindable && !w.there)
    && (w.got.Some? ==> w.captured == sys.identifiable)
  }

  ghost predicate ServeAnswered(
      sys: StartSystem, socketPath: string, watchMode: bool, owner: Owner, ino: Ino, w: StartAnswers) {
    && w.up == sys.reachable
    && (w.up ==> w.accepted == (watchMode || sys.registrable))
    && (w.up && !w.accepted ==> StopAnswered(sys.cleanup, socketPath, owner, ino, w.cleanup))
  }

  ghost predicate StartAnswered(sys: StartSystem, socketPath: string, watchMode: bool, w: StartAnswers) {
    && BindAnswered(sys, w)
    && (w.got.Some? ==> ServeAnswered(sys, socketPath, watchMode, OwnerOf(w), InoOf(w), w))
  }

  /** The identity that recordSocketIDLocked leaves. */
  ghost function OwnerOf(w: StartAnswers): Owner {
    if w.captured then Known else Unknown
  }

  ghost function InoOf(w: StartAnswers): Ino {
    if w.captured && w.got.Some? then w.got.value else 0
  }

  /** For calls that are not made. */
  ghost function NoStop(): StopAnswers {
    StopAnswers(false, false, false, map[], None, false, false)
  }

  ghost function NoStart(): StartAnswers {
    StartAnswers(false, false, false, None, false, false, false, NoStop())
  }

  // ---------- sequences of actions ----------

  /** The actions lead from s to u. */
  ghost predicate Steps(s: State, trace: seq<Action>, u: State)
    decreases |trace|
  {
    if trace == [] then s == u
    else Enabled(s, trace[0]) && Steps(Apply(s, trace[0]), trace[1..], u)
  }

  lemma {:induction false} StepsThen(s: State, a: seq<Action>, t: State, b: seq<Action>, u: State)
    requires Steps(s, a, t) && Steps(t, b, u)
    ensures Steps(s, a + b, u)
    decreases |a|
  {
    if a == [] {
      assert a + b == b;
    } else {
      StepsThen(Apply(s, a[0]), a[1..], t, b, u);
      assert (a + b)[1..] == a[1..] + b;
    }
  }

  lemma StepsThenOne(s: State, trace: seq<Action>, t: State, a: Action)
    requires Steps(s, trace, t) && Enabled(t, a)
    ensures Steps(s, trace + [a], Apply(t, a))
  {
    assert Steps(Apply(t, a), [a][1..], Apply(t, a));
    StepsThen(s, trace, t, [a], Apply(t, a));
  }

  /** A run goes on with the actions of a trace. */
  lemma {:induction false} StepsExtendRun(states: seq<State>, actions: seq<Action>, trace: seq<Action>, u: State)
      returns (states': seq<State>)
    requires Run(states, actions) && Steps(states[|actions|], trace, u)
    ensures Run(states', actions + trace) && states'[|actions + trace|] == u
    decreases |trace|
  {
    if trace == [] {
      states' := states;
      assert actions + trace == actions;
    } else {
      var s, a := states[|actions|], trace[0];
      var next := states + [Apply(s, a)];
      forall k | 0 <= k < |actions + [a]|
        ensures Enabled(next[k], (actions + [a])[k]) && next[k + 1] == Apply(next[k], (actions + [a])[k])
      {
      }
      states' := StepsExtendRun(next, actions + [a], trace[1..], u);
      assert actions + [a] + trace[1..] == actions + trace;
    }
  }

  /** The actions of instance i among those of a trace. */
  ghost function Own(trace: seq<Action>, i: nat): seq<Action> {
    if trace == [] then []
    else
      var last := trace[|trace| - 1];
      Own(trace[..|trace| - 1], i) + if ByInstance(last) && last.i == i then [last] else []
  }

  /** What startLocked does up to the creation of the server. */
  ghost function ReclaimTrace(i: nat, w: StartAnswers): seq<Action> {
    [Locking(i, LockResult(w.locked)), Starting(i, ClearBefore), Starting(i, Reclaim(w.reclaimed)), Starting(i, Create)]
  }

  ghost function LockResult(taken: bool): LockStep {
    if taken then Take else Fail
  }

  /** What startLocked does up to the release of the directory lock. */
  ghost function BindTrace(i: nat, w: StartAnswers): seq<Action> {
    ReclaimTrace(i, w) + [Starting(i, Listen(w.got))]
    + if w.got.None? then [Locking(i, Release)] else [Starting(i, Record(w.captured)), Locking(i, Release)]
  }

  /** What startLocked does from Serve on. */
  ghost function ServeTrace(i: nat, owner: Owner, ino: Ino, w: StartAnswers): seq<Action> {
    [Starting(i, Serve), Starting(i, Connect(w.up))]
    + if !w.up then []
      else [Starting(i, Register(w.accepted))] + if w.accepted then [] else RemoveTrace(i, owner, ino, w.cleanup)
  }

  /** What startLocked does. */
  ghost function StartTrace(i: nat, w: StartAnswers): seq<Action> {
    BindTrace(i, w)
    + if w.got.None? then []
      else ServeTrace(i, OwnerOf(w), InoOf(w), w)
  }

  /** The ownership check: what it looks at and what it decides. */
  ghost function CheckTrace(i: nat, owner: Owner, w: StopAnswers): seq<Action> {
    [Stopping(i, Decide)]
    + if owner != Known then []
      else [Stopping(i, Stat(w.found))] + if w.found then [Stopping(i, Scan(w.rows))] else []
  }

  /** shouldRemoveSocketPathLocked. */
  ghost predicate Removes(owner: Owner, ino: Ino, w: StopAnswers) {
    match owner
    case NoOwner => true
    case Known => w.found && w.rows == Some([ino])
    case Unknown => false
  }

  /** What stopAndRemoveOwnedSocketLocked does. */
  ghost function RemoveTrace(i: nat, owner: Owner, ino: Ino, w: StopAnswers): seq<Action> {
    [Locking(i, LockResult(w.locked))] + CheckTrace(i, owner, w)
    + [Stopping(i, ClearAfter), Stopping(i, CloseServer(w.late))]
    + (if Removes(owner, ino, w) then [Stopping(i, Unlink(w.removed))] else [])
    + [Locking(i, Release)]
  }

  ghost function StopTrace(i: nat, owner: Owner, ino: Ino, w: StopAnswers): seq<Action> {
    [Begin(i, StopOp)] + RemoveTrace(i, owner, ino, w) + [Stopping(i, Delete)]
  }

  ghost function RestartTrace(i: nat, w: RestartAnswers): seq<Action> {
    [Begin(i, RestartOp), Restarting(i, CloseOld(w.late)), Restarting(i, DropServer)] + StartTrace(i, w.start)
  }

  /** What Watch does: the restarts of its rounds. */
  ghost function WatchTrace(i: nat, rounds: seq<WatchRound>): seq<Action> {
    if rounds == [] then []
    else WatchTrace(i, rounds[..|rounds| - 1]) + RoundTrace(i, rounds[|rounds| - 1])
  }

  ghost function RoundTrace(i: nat, round: WatchRound): seq<Action> {
    if round.restarts == [] then [] else RestartTrace(i, round.restarts[0])
  }

  /** What unixSocketInodesForPath reads. */
  ghost function RowsOf(table: Option<string>, socketPath: string): Option<seq<Ino>> {
    if table.None? then None else Some(ProcNetUnix.TableInodes(table.value, socketPath))
  }

  /**
   What the machine assumes of the table - it lists at least the live listeners - holds of its text when every
   listener of the path has a row, and the path has only single interior spaces as white space.
   */
  lemma TableListsListeners(header: string, rows: seq<ProcNetUnix.Row>, socketPath: string, live: map<Ino, nat>)
    requires '\n' !in header && ProcNetUnix.ValidRows(rows) && Regular(socketPath)
    requires forall x :: x in live ==> exists r :: r in rows && r.Bound? && r.ino == x && r.path == socketPath
    ensures forall x :: x in live ==> x in RowsOf(Some(ProcNetUnix.Render(header, rows)), socketPath).value
  {
    forall x | x in live
      ensures x in RowsOf(Some(ProcNetUnix.Render(header, rows)), socketPath).value
    {
      ProcNetUnix.ListedIsRead(header, rows, socketPath, x);
    }
  }

  // ---------- the others ----------

  /** s and u agree on instance i and on whether it holds the directory lock. */
  ghost predicate SameFor(s: State, u: State, i: nat) {
    && i < |s.insts| && i < |u.insts| && u.insts[i] == s.insts[i]
    && (u.flock == Some(i) <==> s.flock == Some(i))
  }

  lemma OtherStartKeepsMe(s: State, j: nat, start: StartStep, i: nat)
    requires Enabled(s, Starting(j, start)) && i < |s.insts| && j != i
    ensures SameFor(s, Apply(s, Starting(j, start)), i)
  {
  }

  lemma OtherStopKeepsMe(s: State, j: nat, stop: StopStep, i: nat)
    requires Enabled(s, Stopping(j, stop)) && i < |s.insts| && j != i
    ensures SameFor(s, Apply(s, Stopping(j, stop)), i)
  {
  }

  lemma OtherKeepsMe(s: State, a: Action, i: nat)
    requires Enabled(s, a) && i < |s.insts| && !(ByInstance(a) && a.i == i)
    ensures SameFor(s, Apply(s, a), i)
  {
    match a
    case Starting(j, start) => OtherStartKeepsMe(s, j, start, i);
    case Stopping(j, stop) => OtherStopKeepsMe(s, j, stop, i);
    case _ => hide EnabledStart, EnabledStop, ApplyStart, ApplyStop;
  }

  /**
   Whatever the others do, an instance's own record stays as it is, and whether it holds the directory lock:
   the contract of Endpoint.Others leaves out nothing that can happen.
   */
  lemma {:induction false} OthersKeepMe(s: State, trace: seq<Action>, u: State, i: nat)
    requires Steps(s, trace, u) && i < |s.insts| && forall a :: a in trace ==> !(ByInstance(a) && a.i == i)
    ensures SameFor(s, u, i)
    decreases |trace|
  {
    hide Apply, Enabled;
    if trace != [] {
      OtherKeepsMe(s, trace[0], i);
      OthersKeepMe(Apply(s, trace[0]), trace[1..], u, i);
    }
  }

  /** Who holds the directory lock has not crashed. */
  ghost predicate HolderAlive(s: State) {
    s.flock.Some? ==> s.flock.value < |s.insts| && s.insts[s.flock.value].pc != Crashed
  }

  lemma StartKeepsHolder(s: State, j: nat, start: StartStep)
    requires Enabled(s, Starting(j, start)) && HolderAlive(s)
    ensures HolderAlive(Apply(s, Starting(j, start)))
  {
    hide ApplyStop, EnabledStop, ApplyRestart, ApplyLock;
  }

  lemma StopKeepsHolder(s: State, j: nat, stop: StopStep)
    requires Enabled(s, Stopping(j, stop)) && HolderAlive(s)
    ensures HolderAlive(Apply(s, Stopping(j, stop)))
  {
    hide ApplyStart, EnabledStart, ApplyRestart, ApplyLock;
  }

  lemma StepKeepsHolder(s: State, a: Action)
    requires Enabled(s, a) && HolderAlive(s)
    ensures HolderAlive(Apply(s, a))
  {
    match a
    case Starting(j, start) => StartKeepsHolder(s, j, start);
    case Stopping(j, stop) => StopKeepsHolder(s, j, stop);
    case _ => hide EnabledStart, EnabledStop, ApplyStart, ApplyStop;
  }

  lemma {:induction false} StepsKeepHolder(s: State, trace: seq<Action>, u: State)
    requires Steps(s, trace, u) && HolderAlive(s)
    ensures HolderAlive(u)
    decreases |trace|
  {
    hide HolderAlive, Apply, Enabled;
    if trace != [] {
      StepKeepsHolder(s, trace[0]);
      StepsKeepHolder(Apply(s, trace[0]), trace[1..], u);
    }
  }

  /** There is always an inode that has not been used. */
  lemma FreshIno(used: set<Ino>) returns (x: Ino)
    ensures x !in used
  {
    x := FreshAbove(used, 0);
  }

  lemma FreshAbove(used: set<Ino>, y: Ino) returns (x: Ino)
    ensures x !in used && x >= y
    decreases |used|
  {
    x := y;
    if y in used {
      x := FreshAbove(used - {y}, y + 1);
    }
  }

  // ---------- the server ----------

  function LiveAfterClose(live: map<Ino, nat>, serving: Option<Ino>, now: bool): map<Ino, nat> {
    if now && serving.Some? then live - {serving.value} else live
  }

  /** The socket directory and the kernel's view of it, shared by all instances. */
  class Directory {
    const socketPath: string
    var path: Option<Ino>
    var wiped: bool
    var live: map<Ino, nat>
    var bound: set<Ino>
    var used: set<Ino>
    var flock: Option<nat>
    // all instances, including the one under consideration
    ghost var insts: seq<Inst>
    // what has happened since the origin
    ghost const origin: State
    ghost var trace: seq<Action>

    constructor (ghost origin: State, socketPath: string, path: Option<Ino>, used: set<Ino>)
      requires origin == State(path, false, map[], {}, used, None, origin.insts)
      ensures this.origin == origin && this.socketPath == socketPath && trace == []
      ensures View() == origin && Logged()
    {
      this.socketPath := socketPath;
      this.path, wiped, live, bound, this.used, flock := path, false, map[], {}, used, None;
      insts, this.origin, trace := origin.insts, origin, [];
    }

    ghost function View(): State
      reads this
    {
      State(path, wiped, live, bound, used, flock, insts)
    }

    /** The present state is what the logged actions make of the origin. */
    ghost predicate Logged()
      reads this
    {
      Steps(origin, trace, View()) && origin.flock == None
    }

    /** So what is proved of the machine's runs holds of the directory and the servers' fields. */
    lemma LogIsRun() returns (states: seq<State>)
      requires Logged() && Init(origin)
      ensures Run(states, trace) && states[|trace|] == View()
    {
      states := StepsExtendRun([origin], [], trace, View());
      assert [] + trace == trace;
    }
  }

  class Endpoint {
    const id: nat
    const dir: Directory
    const watchMode: bool
    var owner: Owner
    var ino: Ino
    var server: bool
    var serving: Option<Ino>
    // the watcher's goroutine runs
    var watching: bool
    // the local variable sock of startLocked
    ghost var sock: Option<Ino>
    ghost var pc: Pc
    ghost var last: Outcome
    // this instance holds the directory lock
    ghost var holds: bool
    // what this instance has done
    ghost var done: seq<Action>

    constructor (id: nat, dir: Directory, watchMode: bool)
      requires id < |dir.insts| && dir.insts[id] == Inst(Idle, NoOwner, 0, false, None, None, NotRunning)
      requires dir.Logged() && dir.flock != Some(id)
      ensures this.id == id && this.dir == dir && this.watchMode == watchMode
      ensures Valid() && Free() && !server && done == Own(dir.trace, id)
    {
      this.id, this.dir, this.watchMode := id, dir, watchMode;
      owner, ino, server, serving, watching, sock := NoOwner, 0, false, None, false, None;
      pc, last, holds, done := Idle, NotRunning, false, Own(dir.trace, id);
    }

    ghost function Me(): Inst
      reads this
    {
      Inst(pc, owner, ino, server, sock, serving, last)
    }

    ghost predicate Listed()
      reads this, dir
    {
      id < |dir.insts| && dir.insts[id] == Me()
    }

    ghost predicate Valid()
      reads this, dir
    {
      && Listed() && dir.Logged()
      && done == Own(dir.trace, id)
      && (holds <==> dir.flock == Some(id))
    }

    /** No operation is going on. */
    ghost predicate Free()
      reads this
    {
      pc == Idle && !holds
    }

    /**
     What the other instances, the kubelet and the kernel do meanwhile. The callers know no more than this contract,
     which admits any steps of the others (see OthersKeepMe); the body is the case in which there are none.
     */
    method Others()
      requires Valid()
      modifies dir
      ensures Valid() && old(dir.trace) <= dir.trace
    {
    }

    /** The program counter moves on, and the record of this instance with it. */
    ghost method At(next: Pc)
      requires id < |dir.insts|
      modifies this`pc, dir`insts
      ensures pc == next && Listed() && dir.insts == old(dir.insts)[id := Me()]
    {
      pc := next;
      dir.insts := dir.insts[id := Me()];
    }

    /**
     The flock call waits until the lock is free. The contract admits any steps of the others; in the body, whoever
     holds the lock ends.
     */
    method AwaitLock()
      requires Valid() && !holds
      modifies dir
      ensures Valid() && old(dir.trace) <= dir.trace && dir.flock == None
    {
      Others();
      if dir.flock.Some? {
        StepsKeepHolder(dir.origin, dir.trace, dir.View());
        LetHolderEnd(dir.flock.value);
      }
    }

    method LetHolderEnd(j: nat)
      requires Valid() && dir.flock == Some(j) && j != id && HolderAlive(dir.View())
      modifies dir
      ensures Valid() && old(dir.trace) <= dir.trace && dir.flock == None
    {
      hide Steps, EnabledStart, EnabledStop, ApplyStart, ApplyStop;
      ghost var s := dir.View();
      dir.flock, dir.live := None, map x | x in dir.live && dir.live[x] != j :: dir.live[x];
      dir.insts := dir.insts[j := dir.insts[j].(pc := Crashed)];
      StepsThenOne(dir.origin, dir.trace, s, Crash(j));
      assert (dir.trace + [Crash(j)])[..|dir.trace|] == dir.trace;
      dir.trace := dir.trace + [Crash(j)];
    }

    /** A step is logged that the machine allows, and that makes of s what the fields now say. */
    ghost method Log(s: State, a: Action)
      requires Steps(dir.origin, dir.trace, s) && dir.origin.flock == None
      requires Enabled(s, a) && dir.View() == Apply(s, a)
      requires Listed() && done == Own(dir.trace, id) && ByInstance(a) && a.i == id
      requires holds <==> dir.flock == Some(id)
      modifies dir`trace, this`done
      ensures Valid() && done == old(done) + [a] && dir.trace == old(dir.trace) + [a]
    {
      StepsThenOne(dir.origin, dir.trace, s, a);
      assert (dir.trace + [a])[..|dir.trace|] == dir.trace;
      dir.trace := dir.trace + [a];
      done := done + [a];
    }

    /** lockSocketPath. The call waits for the others; if it fails all the same, the caller goes on unlocked. */
    method LockSocketPath(lockable: bool) returns (taken: bool)
      requires Valid() && !holds && (pc.StartLock? || pc.StopLock?)
      modifies dir, this`pc, this`holds, this`done
      ensures Valid() && done == old(done) + [Locking(id, LockResult(taken))]
      ensures pc == AfterLock(old(pc)) && holds == taken == lockable
    {
      hide Steps, Own, ApplyStart, EnabledStart, ApplyStop, EnabledStop, ApplyRestart;
      taken := lockable;
      if taken {
        AwaitLock();
      } else {
        Others();
      }
      ghost var s := dir.View();
      if taken {
        dir.flock := Some(id);
      }
      holds := taken;
      At(AfterLock(pc));
      Log(s, Locking(id, LockResult(taken)));
    }

    /** The function lockSocketPath returned. */
    method Unlock(taken: bool)
      requires Valid() && holds == taken && (pc.StartUnlock? || pc.StopUnlock?)
      modifies dir, this`pc, this`last, this`holds, this`done
      ensures Valid() && done == old(done) + [Locking(id, Release)] && !holds
      ensures match old(pc)
              case StartUnlock(listening) =>
                if listening then pc == StartServe && last == old(last) else pc == Idle && last == ListenFailed
              case StopUnlock(whole) =>
                if whole then pc == StopDelete && last == old(last) else pc == Idle && last == RegisterFailed
    {
      hide Steps, Own, ApplyStart, EnabledStart, ApplyStop, EnabledStop, ApplyRestart;
      Others();
      ghost var s := dir.View();
      if taken {
        dir.flock := None;
      }
      holds := false;
      if pc == StartUnlock(false) {
        last := ListenFailed;
      } else if pc == StopUnlock(false) {
        last := RegisterFailed;
      }
      At(if pc == StartUnlock(true) then StartServe else if pc == StopUnlock(true) then StopDelete else Idle);
      Log(s, Locking(id, Release));
    }

    method ClearSocketOwnershipLocked()
      modifies this`owner, this`ino
      ensures owner == NoOwner && ino == 0
    {
      owner := NoOwner;
      ino := 0;
    }

    // ---------- start ----------

    /** The ownership is cleared before the reclaim, so that the cleanup force-removes. */
    method ClearBeforeReclaim()
      requires Valid() && pc.StartClear?
      modifies dir, this`owner, this`ino, this`pc, this`done
      ensures Valid() && done == old(done) + [Starting(id, ClearBefore)]
      ensures owner == NoOwner && ino == 0 && pc == StartReclaim(old(pc.again))
    {
      hide Steps, Own, ApplyStop, EnabledStop, ApplyRestart, ApplyLock;
      Others();
      ghost var s := dir.View();
      ClearSocketOwnershipLocked();
      At(StartReclaim(pc.again));
      Log(s, Starting(id, ClearBefore));
    }

    /** cleanupLocked, as startLocked calls it. */
    method CleanupLocked(removable: bool) returns (removed: bool)
      requires Valid() && pc.StartReclaim? && owner == NoOwner && ino == 0
      modifies dir, this`owner, this`ino, this`pc, this`done
      ensures Valid() && done == old(done) + [Starting(id, Reclaim(removed))]
      ensures owner == NoOwner && ino == 0 && pc == StartCreate(removed) && removed == removable
    {
      hide Steps, Own, ApplyStop, EnabledStop, ApplyRestart, ApplyLock;
      var remove, _ := ShouldRemoveSocketPathLocked(false, _ => None);
      Others();
      ghost var s := dir.View();
      removed := false;
      if remove {
        removed := removable;
        if removed {
          dir.path := None;
        }
      }
      if remove ==> removed {
        ClearSocketOwnershipLocked();
      }
      At(StartCreate(removed));
      Log(s, Starting(id, Reclaim(removed)));
    }

    method CreateServer()
      requires Valid() && pc.StartCreate?
      modifies dir, this`server, this`serving, this`pc, this`done
      ensures Valid() && done == old(done) + [Starting(id, Create)]
      ensures server && serving == None && pc == StartListen(old(pc.reclaimed))
    {
      hide Steps, Own, ApplyStop, EnabledStop, ApplyRestart, ApplyLock;
      Others();
      ghost var s := dir.View();
      server := true;
      serving := None;
      At(StartListen(pc.reclaimed));
      Log(s, Starting(id, Create));
    }

    /** A bind needs an absent path and gets a new inode. */
    method Listen(bindable: bool) returns (got: Option<Ino>, ghost there: bool)
      requires Valid() && pc.StartListen?
      modifies dir, this`sock, this`pc, this`done
      ensures Valid() && done == old(done) + [Starting(id, SocketOwnership.Listen(got))]
      ensures got.Some? <==> bindable && !there
      ensures got.None? ==> (there <==> dir.path.Some?)
      ensures if got.None? then pc == StartUnlock(false) && sock == old(sock) else pc == StartRecord && sock == got
    {
      Others();
      there := dir.path.Some?;
      hide Valid;
      if bindable && dir.path.None? {
        ghost var free := FreshIno(dir.used);
        var x: Ino :| x !in dir.used;
        Bind(x);
        got := Some(x);
      } else {
        NoteListenFailed();
        got := None;
      }
    }

    method Bind(x: Ino)
      requires Valid() && pc.StartListen? && dir.path == None && x !in dir.used
      modifies dir, this`sock, this`pc, this`done
      ensures Valid() && done == old(done) + [Starting(id, SocketOwnership.Listen(Some(x)))]
      ensures pc == StartRecord && sock == Some(x)
    {
      hide Steps, Own, ApplyStop, EnabledStop, ApplyRestart, ApplyLock;
      ghost var s := dir.View();
      dir.path, dir.wiped, dir.live := Some(x), false, dir.live[x := id];
      dir.bound, dir.used := dir.bound + {x}, dir.used + {x};
      sock := Some(x);
      At(StartRecord);
      Log(s, Starting(id, SocketOwnership.Listen(Some(x))));
    }

    ghost method NoteListenFailed()
      requires Valid() && pc.StartListen?
      modifies dir, this`pc, this`done
      ensures Valid() && done == old(done) + [Starting(id, SocketOwnership.Listen(None))]
      ensures pc == StartUnlock(false) && dir.path == old(dir.path)
    {
      hide Steps, Own, ApplyStop, EnabledStop, ApplyRestart, ApplyLock;
      var s := dir.View();
      At(StartUnlock(false));
      Log(s, Starting(id, SocketOwnership.Listen(None)));
    }

    method RecordSocketIdLocked(listener: Ino, identifiable: bool) returns (captured: bool)
      requires Valid() && pc == StartRecord && sock == Some(listener)
      modifies dir, this`owner, this`ino, this`pc, this`done
      ensures Valid() && done == old(done) + [Starting(id, Record(captured))]
      ensures owner == (if captured then Known else Unknown) && ino == (if captured then listener else 0)
      ensures pc == StartUnlock(true) && captured == identifiable
    {
      hide Steps, Own, ApplyStop, EnabledStop, ApplyRestart, ApplyLock;
      Others();
      ghost var s := dir.View();
      ClearSocketOwnershipLocked();
      captured := identifiable;
      if captured {
        owner := Known;
        ino := listener;
      } else {
        owner := Unknown;
      }
      At(StartUnlock(true));
      Log(s, Starting(id, Record(captured)));
    }

    method Serve(listener: Ino)
      requires Valid() && pc == StartServe && sock == Some(listener)
      modifies dir, this`sock, this`serving, this`pc, this`done
      ensures Valid() && done == old(done) + [Starting(id, SocketOwnership.Serve)]
      ensures serving == Some(listener) && sock == None && pc == StartConnect
    {
      hide Steps, Own, ApplyStop, EnabledStop, ApplyRestart, ApplyLock;
      Others();
      ghost var s := dir.View();
      serving := Some(listener);
      sock := None;
      At(StartConnect);
      Log(s, Starting(id, SocketOwnership.Serve));
    }

    method GetClientConn(reachable: bool) returns (up: bool)
      requires Valid() && pc == StartConnect
      modifies dir, this`pc, this`last, this`done
      ensures Valid() && done == old(done) + [Starting(id, Connect(up))]
      ensures up == reachable
      ensures if up then pc == StartRegister && last == old(last) else pc == Idle && last == ConnectFailed
    {
      hide Steps, Own, ApplyStop, EnabledStop, ApplyRestart, ApplyLock;
      Others();
      ghost var s := dir.View();
      up := reachable;
      if !up {
        last := ConnectFailed;
      }
      At(if up then StartRegister else Idle);
      Log(s, Starting(id, Connect(up)));
    }

    /** In watch mode the kubelet registers the plugin, and nothing can fail here. */
    method Register(registrable: bool) returns (accepted: bool)
      requires Valid() && pc == StartRegister
      modifies dir, this`pc, this`last, this`done
      ensures Valid() && done == old(done) + [Starting(id, SocketOwnership.Register(accepted))]
      ensures accepted == (watchMode || registrable)
      ensures if accepted then pc == Idle && last == Served else pc == StopLock(false) && last == old(last)
    {
      hide Steps, Own, ApplyStop, EnabledStop, ApplyRestart, ApplyLock;
      Others();
      ghost var s := dir.View();
      accepted := true;
      if !watchMode {
        accepted := registrable;
      }
      if accepted {
        last := Served;
      }
      At(if accepted then Idle else StopLock(false));
      Log(s, Starting(id, SocketOwnership.Register(accepted)));
    }

    /** startLocked up to the creation of the server. */
    method ReclaimAndCreate(sys: StartSystem) returns (taken: bool, ghost removed: bool)
      requires Valid() && !holds && pc.StartLock?
      modifies dir, this`owner, this`ino, this`server, this`serving, this`pc, this`holds, this`done
      ensures Valid() && holds == taken == sys.lockable && removed == sys.reclaimable
      ensures done == old(done) + [Locking(id, LockResult(taken)), Starting(id, ClearBefore),
                                   Starting(id, Reclaim(removed)), Starting(id, Create)]
      ensures server && owner == NoOwner && ino == 0 && serving == None && pc == StartListen(removed)
    {
      hide Valid;
      taken := LockSocketPath(sys.lockable);
      ClearBeforeReclaim();
      removed := CleanupLocked(sys.reclaimable);
      CreateServer();
    }

    /** startLocked up to the release of the directory lock. */
    method ReclaimAndBind(sys: StartSystem) returns (got: Option<Ino>, ghost w: StartAnswers)
      requires Valid() && !holds && pc.StartLock?
      modifies dir, this`owner, this`ino, this`server, this`serving
      modifies this`sock, this`pc, this`last, this`holds, this`done
      ensures Valid() && !holds && server && serving == None
      ensures done == old(done) + BindTrace(id, w) && w.got == got && BindAnswered(sys, w)
      ensures if got.None? then pc == Idle && last == ListenFailed && owner == NoOwner
              else pc == StartServe && last == old(last) && sock == got && owner == OwnerOf(w) && ino == InoOf(w)
    {
      hide Valid;
      var taken, removed := ReclaimAndCreate(sys);
      ghost var there;
      got, there := Listen(sys.bindable);
      var captured := false;
      if got.Some? {
        captured := RecordSocketIdLocked(got.value, sys.identifiable);
      }
      Unlock(taken);
      w := StartAnswers(taken, removed, there, got, captured, true, true, NoStop());
    }

    /** The part of startLocked after the release. */
    method ServeAndRegister(sys: StartSystem, listener: Ino, ghost w: StartAnswers)
      returns (err: Option<Error>, ghost v: StartAnswers)
      requires Valid() && !holds && pc == StartServe && sock == Some(listener) && sys.cleanup.Honest(dir.socketPath)
      modifies dir, this`owner, this`ino, this`sock, this`serving, this`pc, this`last, this`holds, this`done
      ensures Valid() && Free()
      ensures v == w.(up := v.up, accepted := v.accepted, cleanup := v.cleanup)
      ensures done == old(done) + ServeTrace(id, old(owner), old(ino), v)
      ensures ServeAnswered(sys, dir.socketPath, watchMode, old(owner), old(ino), v)
      ensures last == if !v.up then ConnectFailed else if !v.accepted then RegisterFailed else Served
      ensures err == if !v.up then Some(ConnectError) else if !v.accepted then Some(RegisterError) else None
      ensures if v.up && !v.accepted then owner == NoOwner && serving == None
              else owner == old(owner) && ino == old(ino) && serving == Some(listener)
    {
      hide Valid, RemoveTrace, StopAnswered;
      Serve(listener);
      var up := GetClientConn(sys.reachable);
      if !up {
        return Some(ConnectError), w.(up := false);
      }
      var accepted := Register(sys.registrable);
      if !accepted {
        var _, cleanup := StopAndRemoveOwnedSocketLocked(sys.cleanup);
        return Some(RegisterError), w.(up := true, accepted := false, cleanup := cleanup);
      }
      return None, w.(up := true, accepted := true);
    }

    /**
     startLocked. What it does, in order, is StartTrace; every exit gives up the directory lock and leaves a
     server; the owner is None exactly when Listen or the registration failed.
     */
    method StartLocked(sys: StartSystem) returns (err: Option<Error>, ghost w: StartAnswers)
      requires Valid() && !holds && pc.StartLock? && sys.cleanup.Honest(dir.socketPath)
      modifies dir, this
      ensures Valid() && Free() && server && watching == old(watching)
      ensures done == old(done) + StartTrace(id, w) && StartAnswered(sys, dir.socketPath, watchMode, w)
      ensures err == if w.got.None? then Some(ListenError) else if !w.up then Some(ConnectError)
                     else if !w.accepted then Some(RegisterError) else None
      ensures owner == NoOwner <==> last == ListenFailed || last == RegisterFailed
      ensures last == Served <==> err == None
      ensures err == None ==> serving == w.got && owner == OwnerOf(w) && ino == InoOf(w)
    {
      hide Valid, BindTrace, ServeTrace, ServeAnswered;
      var got;
      got, w := ReclaimAndBind(sys);
      if got.None? {
        return Some(ListenError), w;
      }
      ghost var v;
      err, v := ServeAndRegister(sys, got.value, w);
      assert BindTrace(id, v) == BindTrace(id, w) by { SameBinding(id, v, w); }
      w := v;
    }

    // ---------- stop ----------

    ghost method NoteDecide()
      requires Valid() && pc.StopDecide?
      modifies dir, this`pc, this`done
      ensures Valid() && done == old(done) + [Stopping(id, Decide)]
      ensures pc == if owner == Known then StopStat(old(pc.whole))
                    else StopClear(old(pc.whole), owner == NoOwner, owner)
    {
      hide Steps, Own, ApplyStart, EnabledStart, ApplyRestart, ApplyLock;
      var s := dir.View();
      At(if owner == Known then StopStat(pc.whole) else StopClear(pc.whole, owner == NoOwner, owner));
      Log(s, Stopping(id, Decide));
    }

    method Lstat(statable: bool) returns (found: bool)
      requires Valid() && pc.StopStat?
      modifies dir, this`pc, this`done
      ensures Valid() && done == old(done) + [Stopping(id, Stat(found))]
      ensures pc == if found then StopScan(old(pc.whole)) else StopClear(old(pc.whole), false, Known)
      ensures found <==> statable && dir.path.Some?
    {
      hide Steps, Own, ApplyStart, EnabledStart, ApplyRestart, ApplyLock;
      Others();
      ghost var s := dir.View();
      found := statable && dir.path.Some?;
      At(if found then StopScan(pc.whole) else StopClear(pc.whole, false, Known));
      Log(s, Stopping(id, Stat(found)));
    }

    method ReadTable(kernel: map<Ino, nat> -> Option<string>) returns (table: Option<string>)
      requires Valid() && pc.StopScan?
      requires forall live, x :: x in live && kernel(live).Some? ==>
                 x in ProcNetUnix.TableInodes(kernel(live).value, dir.socketPath)
      modifies dir, this`pc, this`done
      ensures Valid() && done == old(done) + [Stopping(id, Scan(RowsOf(table, dir.socketPath)))]
      ensures table == kernel(dir.live)
      ensures pc == StopClear(old(pc.whole), RowsOf(table, dir.socketPath) == Some([ino]), Known)
    {
      hide Steps, Own, ApplyStart, EnabledStart, ApplyRestart, ApplyLock;
      Others();
      ghost var s := dir.View();
      table := kernel(dir.live);
      At(StopClear(pc.whole, RowsOf(table, dir.socketPath) == Some([ino]), Known));
      Log(s, Stopping(id, Scan(RowsOf(table, dir.socketPath))));
    }

    /** Called by stopAndRemoveOwnedSocketLocked, and by cleanupLocked without an owner. */
    method ShouldRemoveSocketPathLocked(statable: bool, kernel: map<Ino, nat> -> Option<string>)
      returns (remove: bool, ghost w: StopAnswers)
      requires Valid() && (pc.StopDecide? || owner == NoOwner)
      requires forall live, x :: x in live && kernel(live).Some? ==>
                 x in ProcNetUnix.TableInodes(kernel(live).value, dir.socketPath)
      modifies dir, this`pc, this`done
      ensures Valid()
      ensures remove <==> Removes(owner, ino, w)
      ensures if old(pc.StopDecide?) then
                done == old(done) + CheckTrace(id, owner, w) && pc == StopClear(old(pc.whole), remove, owner)
              else
                done == old(done) && pc == old(pc)
      ensures owner == Known ==> (w.found <==> statable && w.there)
      ensures owner == Known && w.found ==> w.rows == RowsOf(kernel(w.live), dir.socketPath)
    {
      hide Valid;
      w := NoStop();
      if pc.StopDecide? {
        NoteDecide();
      }
      match owner {
        case Unknown => return false, w;
        case Known =>
          var found := Lstat(statable);
          w := w.(there := dir.path.Some?, found := found);
          if !found {
            return false, w;
          }
          var table := ReadTable(kernel);
          w := w.(live := dir.live, rows := RowsOf(table, dir.socketPath));
          remove := ProcNetUnix.SocketPathOwnedSolelyBy(table, dir.socketPath, ino);
        case NoOwner => return true, w;
      }
    }

    method ClearOwned()
      requires Valid() && pc.StopClear?
      modifies dir, this`owner, this`ino, this`pc, this`done
      ensures Valid() && done == old(done) + [Stopping(id, ClearAfter)]
      ensures owner == NoOwner && ino == 0 && pc == StopClose(old(pc.whole), old(pc.remove), old(pc.basis))
    {
      hide Steps, Own, ApplyStart, EnabledStart, ApplyRestart, ApplyLock;
      Others();
      ghost var s := dir.View();
      ClearSocketOwnershipLocked();
      At(StopClose(pc.whole, pc.remove, pc.basis));
      Log(s, Stopping(id, ClearAfter));
    }

    /** grpc Stop closes the server's listener, now or a little later. */
    method StopServer(late: bool)
      requires Valid() && pc.StopClose?
      modifies dir, this`serving, this`pc, this`done
      ensures Valid() && done == old(done) + [Stopping(id, CloseServer(late))] && serving == None
      ensures pc == if old(pc.remove) then StopUnlink(old(pc.whole), old(pc.basis)) else StopUnlock(old(pc.whole))
    {
      hide Steps, Own, ApplyStart, EnabledStart, ApplyRestart, ApplyLock;
      Others();
      ghost var s := dir.View();
      dir.live := LiveAfterClose(dir.live, serving, !late);
      serving := None;
      At(if pc.remove then StopUnlink(pc.whole, pc.basis) else StopUnlock(pc.whole));
      Log(s, Stopping(id, CloseServer(late)));
    }

    method RemovePath(removable: bool) returns (ok: bool)
      requires Valid() && pc.StopUnlink?
      modifies dir, this`pc, this`done
      ensures Valid() && done == old(done) + [Stopping(id, Unlink(ok))] && pc == StopUnlock(old(pc.whole))
      ensures ok == removable
    {
      hide Steps, Own, ApplyStart, EnabledStart, ApplyRestart, ApplyLock;
      Others();
      ghost var s := dir.View();
      ok := removable;
      if ok {
        dir.path := None;
      }
      At(StopUnlock(pc.whole));
      Log(s, Stopping(id, Unlink(ok)));
    }

    /** The lock and the check, with the clearing of the ownership. */
    method LockAndCheck(sys: StopSystem) returns (taken: bool, remove: bool, ghost w: StopAnswers)
      requires Valid() && !holds && pc.StopLock? && sys.Honest(dir.socketPath)
      modifies dir, this`owner, this`ino, this`pc, this`holds, this`done
      ensures Valid() && holds == taken == w.locked == sys.lockable
      ensures old(owner) == Known ==> (w.found <==> sys.statable && w.there)
      ensures old(owner) == Known && w.found ==> w.rows == RowsOf(sys.table(w.live), dir.socketPath)
      ensures done == old(done) + ([Locking(id, LockResult(taken))] + CheckTrace(id, old(owner), w)
                                   + [Stopping(id, ClearAfter)])
      ensures remove <==> Removes(old(owner), old(ino), w)
      ensures owner == NoOwner && ino == 0 && pc == StopClose(old(pc.whole), remove, old(owner))
    {
      hide Valid;
      taken := LockSocketPath(sys.lockable);
      remove, w := ShouldRemoveSocketPathLocked(sys.statable, sys.table);
      w := w.(locked := taken);
      ClearOwned();
    }

    /** grpc Stop, and the removal if it was decided. */
    method StopAndUnlink(sys: StopSystem, remove: bool) returns (ok: bool)
      requires Valid() && pc.StopClose? && pc.remove == remove
      modifies dir, this`serving, this`pc, this`done
      ensures Valid() && serving == None && pc == StopUnlock(old(pc.whole))
      ensures ok == (remove ==> sys.removable)
      ensures done == old(done) + ([Stopping(id, CloseServer(sys.late))]
                                   + if remove then [Stopping(id, Unlink(ok))] else [])
    {
      hide Valid;
      ok := true;
      StopServer(sys.late);
      if remove {
        ok := RemovePath(sys.removable);
      }
    }

    method StopAndRemoveOwnedSocketLocked(sys: StopSystem) returns (err: Option<Error>, ghost w: StopAnswers)
      requires Valid() && !holds && pc.StopLock? && sys.Honest(dir.socketPath)
      modifies dir, this`owner, this`ino, this`serving, this`pc, this`last, this`holds, this`done
      ensures Valid() && !holds && done == old(done) + RemoveTrace(id, old(owner), old(ino), w)
      ensures StopAnswered(sys, dir.socketPath, old(owner), old(ino), w)
      ensures err == if Removes(old(owner), old(ino), w) && !w.removed then Some(RemoveError) else None
      ensures owner == NoOwner && serving == None
      ensures if old(pc.whole) then pc == StopDelete && last == old(last) else pc == Idle && last == RegisterFailed
    {
      hide Valid, CheckTrace, RemoveTrace;
      var taken, remove, v := LockAndCheck(sys);
      var ok := StopAndUnlink(sys, remove);
      Unlock(taken);
      w := v.(late := sys.late, removed := ok);
      err := if ok then None else Some(RemoveError);
      SameCheck(id, old(owner), v, w);
      RemoveTraceIs(old(done), id, old(owner), old(ino), w);
    }

    method DeleteServer()
      requires Valid() && pc == StopDelete
      modifies dir, this`server, this`pc, this`last, this`done
      ensures Valid() && done == old(done) + [Stopping(id, Delete)]
      ensures !server && pc == Idle && last == NotRunning
    {
      hide Steps, Own, ApplyStart, EnabledStart, ApplyRestart, ApplyLock;
      Others();
      ghost var s := dir.View();
      server := false;
      last := NotRunning;
      At(Idle);
      Log(s, Stopping(id, Delete));
    }

    // ---------- the operations ----------

    /** lifecycleMu is taken for the operation. */
    ghost method NoteBegin(op: Operation)
      requires Valid() && Free() && (op == StartOp || server)
      modifies dir, this`pc, this`done
      ensures Valid() && done == old(done) + [Begin(id, op)]
      ensures pc == match op
                    case StartOp => StartLock(false)
                    case StopOp => StopLock(true)
                    case RestartOp => RestartClose
    {
      hide Steps, Own, ApplyStart, EnabledStart, ApplyStop, EnabledStop, ApplyRestart, ApplyLock;
      var s := dir.View();
      At(match op case StartOp => StartLock(false) case StopOp => StopLock(true) case RestartOp => RestartClose);
      Log(s, Begin(id, op));
    }

    method Start(sys: StartSystem) returns (err: Option<Error>, ghost w: StartAnswers)
      requires Valid() && Free() && sys.cleanup.Honest(dir.socketPath)
      modifies dir, this
      ensures Valid() && Free() && server && watching == old(watching)
      ensures done == old(done) + ([Begin(id, StartOp)] + StartTrace(id, w))
      ensures StartAnswered(sys, dir.socketPath, watchMode, w)
      ensures last == Served <==> err == None
      ensures owner == NoOwner <==> last == ListenFailed || last == RegisterFailed
    {
      hide Valid, StartTrace, StartAnswered;
      NoteBegin(StartOp);
      err, w := StartLocked(sys);
    }

    /** One server's share of StartAllServers: outside watch mode its watcher starts once it is serving. */
    method StartAndWatch(sys: StartSystem) returns (err: Option<Error>, ghost w: StartAnswers)
      requires Valid() && Free() && sys.cleanup.Honest(dir.socketPath)
      modifies dir, this
      ensures Valid() && Free() && server
      ensures done == old(done) + ([Begin(id, StartOp)] + StartTrace(id, w))
      ensures StartAnswered(sys, dir.socketPath, watchMode, w)
      ensures last == Served <==> err == None
      ensures watching <==> old(watching) || (err == None && !watchMode)
    {
      err, w := Start(sys);
      if err == None && !watchMode {
        watching := true;
      }
    }

    /** The send on stopWatcher returns when the watcher has received it. */
    method SendStopWatcher()
      requires Valid() && Free()
      modifies this`watching
      ensures Valid() && !watching
    {
      watching := false;
    }

    /**
     Stop. In non-watch mode the watcher is sent away first, without lifecycleMu. Whatever becomes of the
     removal, the server is gone.
     */
    method Stop(sys: StopSystem) returns (err: Option<Error>, ghost w: StopAnswers)
      requires Valid() && Free() && sys.Honest(dir.socketPath)
      modifies dir, this
      ensures Valid() && Free() && !server
      ensures !old(server) ==> err == None && done == old(done) && watching == old(watching)
      ensures old(server) ==>
                && done == old(done) + StopTrace(id, old(owner), old(ino), w)
                && StopAnswered(sys, dir.socketPath, old(owner), old(ino), w)
                && err == (if Removes(old(owner), old(ino), w) && !w.removed then Some(RemoveError) else None)
                && owner == NoOwner && serving == None && last == NotRunning
                && (watching <==> watchMode && old(watching))
    {
      hide Valid, RemoveTrace, Removes, StopAnswered;
      if !server {
        return None, NoStop();
      }
      if !watchMode {
        SendStopWatcher();
      }
      NoteBegin(StopOp);
      err, w := StopAndRemoveOwnedSocketLocked(sys);
      DeleteServer();
    }

    /** The old server is stopped without the directory lock. */
    method CloseOldServer(late: bool)
      requires Valid() && pc == RestartClose
      modifies dir, this`pc, this`done
      ensures Valid() && done == old(done) + [Restarting(id, CloseOld(late))] && pc == RestartDrop
    {
      hide Steps, Own, ApplyStart, EnabledStart, ApplyStop, EnabledStop, ApplyLock;
      Others();
      ghost var s := dir.View();
      dir.live := LiveAfterClose(dir.live, serving, !late);
      At(RestartDrop);
      Log(s, Restarting(id, CloseOld(late)));
    }

    method DropOldServer()
      requires Valid() && pc == RestartDrop
      modifies dir, this`server, this`serving, this`pc, this`done
      ensures Valid() && done == old(done) + [Restarting(id, DropServer)]
      ensures !server && serving == None && pc == StartLock(true)
    {
      hide Steps, Own, ApplyStart, EnabledStart, ApplyStop, EnabledStop, ApplyLock;
      Others();
      ghost var s := dir.View();
      server := false;
      serving := None;
      At(StartLock(true));
      Log(s, Restarting(id, DropServer));
    }

    /** Restart. A failed one leaves a server in place all the same. */
    method Restart(sys: RestartSystem) returns (err: Option<Error>, ghost w: RestartAnswers)
      requires Valid() && Free() && sys.start.cleanup.Honest(dir.socketPath)
      modifies dir, this
      ensures Valid() && Free() && server == old(server) && watching == old(watching)
      ensures !old(server) ==> err == Some(NoServer) && done == old(done)
      ensures old(server) ==>
                && done == old(done) + RestartTrace(id, w)
                && w.late == sys.late && StartAnswered(sys.start, dir.socketPath, watchMode, w.start)
                && (last == Served <==> err == None)
                && (owner == NoOwner <==> last == ListenFailed || last == RegisterFailed)
    {
      hide Valid, StartTrace, StartAnswered;
      if !server {
        return Some(NoServer), RestartAnswers(false, NoStart());
      }
      NoteBegin(RestartOp);
      CloseOldServer(sys.late);
      DropOldServer();
      ghost var start;
      err, start := StartLocked(sys.start);
      w := RestartAnswers(sys.late, start);
    }

    /** How the system serves one round of Watch: Lstat, if the path is there, and the restart. */
    ghost predicate RoundAnswered(statable: bool, sys: RestartSystem, round: WatchRound) {
      && (round.found <==> statable && round.there)
      && |round.restarts| <= 1
      && (round.restarts != [] ==>
            && round.restarts[0].late == sys.late
            && StartAnswered(sys.start, dir.socketPath, watchMode, round.restarts[0].start))
    }

    /**
     Watch. It restarts the server in exactly the rounds in which Lstat does not find the path, until it is told to
     stop after these rounds. No restart loses the server, so none is refused.
     */
    method Watch(system: seq<(bool, RestartSystem)>) returns (ghost rounds: seq<WatchRound>)
      requires Valid() && Free() && watching
      requires forall n :: 0 <= n < |system| ==> system[n].1.start.cleanup.Honest(dir.socketPath)
      modifies dir, this
      ensures Valid() && Free() && server == old(server) && !watching
      ensures |rounds| == |system| && done == old(done) + WatchTrace(id, rounds)
      ensures forall n :: 0 <= n < |rounds| ==>
                && RoundAnswered(system[n].0, system[n].1, rounds[n])
                && |rounds[n].restarts| == if server && !rounds[n].found then 1 else 0
    {
      hide Valid, RoundTrace, RoundAnswered;
      rounds := [];
      for n := 0 to |system|
        invariant Valid() && Free() && server == old(server) && watching
        invariant |rounds| == n && done == old(done) + WatchTrace(id, rounds)
        invariant forall m :: 0 <= m < n ==>
                    && RoundAnswered(system[m].0, system[m].1, rounds[m])
                    && |rounds[m].restarts| == if server && !rounds[m].found then 1 else 0
      {
        var found, round := WatchOnce(system[n].0, system[n].1);
        assert (rounds + [round])[..|rounds|] == rounds;
        rounds := rounds + [round];
      }
      SendStopWatcher();
    }

    /** The select's default branch. */
    method WatchOnce(statable: bool, sys: RestartSystem) returns (found: bool, ghost round: WatchRound)
      requires Valid() && Free() && sys.start.cleanup.Honest(dir.socketPath)
      modifies dir, this
      ensures Valid() && Free() && server == old(server) && watching == old(watching)
      ensures RoundAnswered(statable, sys, round) && round.found == found
      ensures |round.restarts| == if server && !found then 1 else 0
      ensures done == old(done) + RoundTrace(id, round)
    {
      found := LookForPath(statable);
      round := WatchRound(dir.path.Some?, found, []);
      hide Valid, RestartTrace, StartAnswered;
      if !found {
        var err, w := Restart(sys);
        if server {
          round := round.(restarts := [w]);
        }
      }
    }

    /** Lstat, as Watch calls it. */
    method LookForPath(statable: bool) returns (found: bool)
      requires Valid()
      modifies dir
      ensures Valid() && old(dir.trace) <= dir.trace
      ensures found <==> statable && dir.path.Some?
    {
      Others();
      found := statable && dir.path.Some?;
    }
  }

  /** The binding does not depend on what comes after it. */
  lemma SameBinding(i: nat, v: StartAnswers, w: StartAnswers)
    requires v == w.(up := v.up, accepted := v.accepted, cleanup := v.cleanup)
    ensures BindTrace(i, v) == BindTrace(i, w)
  {
  }

  lemma RemoveTraceIs(done: seq<Action>, i: nat, owner: Owner, ino: Ino, w: StopAnswers)
    ensures
      var check := [Locking(i, LockResult(w.locked))] + CheckTrace(i, owner, w) + [Stopping(i, ClearAfter)];
      var close := [Stopping(i, CloseServer(w.late))]
                   + if Removes(owner, ino, w) then [Stopping(i, Unlink(w.removed))] else [];
      done + check + close + [Locking(i, Release)] == done + RemoveTrace(i, owner, ino, w)
  {
    hide CheckTrace;
  }

  /** Nor the check. */
  lemma SameCheck(i: nat, owner: Owner, v: StopAnswers, w: StopAnswers)
    requires v.found == w.found && v.rows == w.rows
    ensures CheckTrace(i, owner, v) == CheckTrace(i, owner, w)
  {
  }

  // ---------- the directory lock ----------

  /** Where an instance stands: outside the sections that LockSocketPath guards, or inside with or without the lock. */
  datatype Section = Outside | Locked | Unlocked

  /** Where it stands after the trace, or None when it enters a section inside another or leaves none. */
  ghost function SectionAfter(at: Section, trace: seq<Action>): Option<Section>
    decreases |trace|
  {
    if trace == [] then Some(at)
    else if !trace[0].Locking? then SectionAfter(at, trace[1..])
    else if (trace[0].lock == Release) == (at == Outside) then None
    else
      SectionAfter(NextSection(trace[0].lock), trace[1..])
  }

  ghost function NextSection(lock: LockStep): Section {
    match lock
    case Take => Locked
    case Fail => Unlocked
    case Release => Outside
  }

  lemma {:induction false} SectionAfterBoth(at: Section, a: seq<Action>, b: seq<Action>)
    requires SectionAfter(at, a).Some?
    ensures SectionAfter(at, a + b) == SectionAfter(SectionAfter(at, a).value, b)
    decreases |a|
  {
    if a == [] {
      assert a + b == b;
    } else {
      assert (a + b)[1..] == a[1..] + b;
      var next := if !a[0].Locking? then at else NextSection(a[0].lock);
      SectionAfterBoth(next, a[1..], b);
    }
  }

  lemma {:induction false} SectionAfterQuiet(at: Section, trace: seq<Action>)
    requires forall a :: a in trace ==> !a.Locking?
    ensures SectionAfter(at, trace) == Some(at)
  {
    if trace != [] {
      SectionAfterQuiet(at, trace[1..]);
    }
  }

  /** lock, quiet steps, release. */
  lemma SectionIsBalanced(i: nat, taken: bool, section: seq<Action>)
    requires forall a :: a in section ==> !a.Locking?
    ensures SectionAfter(Outside, [Locking(i, LockResult(taken))] + section + [Locking(i, Release)]) == Some(Outside)
  {
    var lock, release := [Locking(i, LockResult(taken))], [Locking(i, Release)];
    var inside := if taken then Locked else Unlocked;
    assert SectionAfter(inside, lock[1..]) == Some(inside);
    assert SectionAfter(Outside, release[1..]) == Some(Outside);
    SectionAfterBoth(Outside, lock, section);
    SectionAfterQuiet(inside, section);
    SectionAfterBoth(Outside, lock + section, release);
  }

  lemma RemoveIsBalanced(i: nat, owner: Owner, ino: Ino, w: StopAnswers)
    ensures SectionAfter(Outside, RemoveTrace(i, owner, ino, w)) == Some(Outside)
  {
    var section := CheckTrace(i, owner, w) + [Stopping(i, ClearAfter), Stopping(i, CloseServer(w.late))]
                   + if Removes(owner, ino, w) then [Stopping(i, Unlink(w.removed))] else [];
    SectionIsBalanced(i, w.locked, section);
    assert RemoveTrace(i, owner, ino, w) == [Locking(i, LockResult(w.locked))] + section + [Locking(i, Release)];
  }

  /** On every path through startLocked the lock is taken and given up in turn, and free at the end. */
  lemma StartIsBalanced(i: nat, w: StartAnswers)
    ensures SectionAfter(Outside, StartTrace(i, w)) == Some(Outside)
  {
    var section := ReclaimTrace(i, w)[1..] + [Starting(i, Listen(w.got))]
                   + if w.got.None? then [] else [Starting(i, Record(w.captured))];
    SectionIsBalanced(i, w.locked, section);
    assert BindTrace(i, w) == [Locking(i, LockResult(w.locked))] + section + [Locking(i, Release)];
    if w.got.Some? {
      ServeIsBalanced(i, OwnerOf(w), InoOf(w), w);
      SectionAfterBoth(Outside, BindTrace(i, w), ServeTrace(i, OwnerOf(w), InoOf(w), w));
    } else {
      assert StartTrace(i, w) == BindTrace(i, w);
    }
  }

  lemma ServeIsBalanced(i: nat, owner: Owner, ino: Ino, w: StartAnswers)
    ensures SectionAfter(Outside, ServeTrace(i, owner, ino, w)) == Some(Outside)
  {
    var serve := [Starting(i, Serve), Starting(i, Connect(w.up))]
                 + if w.up then [Starting(i, Register(w.accepted))] else [];
    var rest := if w.up && !w.accepted then RemoveTrace(i, owner, ino, w.cleanup) else [];
    assert ServeTrace(i, owner, ino, w) == serve + rest;
    SectionAfterQuiet(Outside, serve);
    SectionAfterBoth(Outside, serve, rest);
    RemoveIsBalanced(i, owner, ino, w.cleanup);
    assert SectionAfter(Outside, []) == Some(Outside);
  }

  /** So are those of Stop and Restart. */
  lemma StopAndRestartAreBalanced(i: nat, owner: Owner, ino: Ino, stop: StopAnswers, restart: RestartAnswers)
    ensures SectionAfter(Outside, StopTrace(i, owner, ino, stop)) == Some(Outside)
    ensures SectionAfter(Outside, RestartTrace(i, restart)) == Some(Outside)
  {
    var before := [Begin(i, StopOp)];
    SectionAfterQuiet(Outside, before);
    SectionAfterQuiet(Outside, [Stopping(i, Delete)]);
    RemoveIsBalanced(i, owner, ino, stop);
    SectionAfterBoth(Outside, before, RemoveTrace(i, owner, ino, stop));
    SectionAfterBoth(Outside, before + RemoveTrace(i, owner, ino, stop), [Stopping(i, Delete)]);
    var close := [Begin(i, RestartOp), Restarting(i, CloseOld(restart.late)), Restarting(i, DropServer)];
    SectionAfterQuiet(Outside, close);
    StartIsBalanced(i, restart.start);
    SectionAfterBoth(Outside, close, StartTrace(i, restart.start));
  }
}
