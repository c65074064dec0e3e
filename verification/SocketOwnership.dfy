/**
 The protocol by which any number of plugin instances (one a process) share one socket pathname
 (pkg/resources/server.go): start locks the directory, reclaims the path, binds it, records the
 identity of the listener and unlocks; stop locks the directory, checks ownership, closes the
 listener, unlinks the path if it is its own, and unlocks.

 A state machine with one action for each step that other instances can observe. Steps of different
 instances interleave freely; the kubelet deletes the path, listeners close without the lock and
 instances crash at any point. An action carries the outcome of every call to the system, so that
 Apply is a function.
 */
module SocketOwnership {
  import opened Wrappers

  /** A sockfs inode. Inodes are not reused within a run. */
  type Ino = nat

  /** socketOwnerNone, socketOwnerKnown, socketOwnerUnknown. */
  datatype Owner = NoOwner | Known | Unknown

  /** How the last startLocked of an instance ended; NotRunning before the first one and after a stop. */
  datatype Outcome = NotRunning | Served | ListenFailed | ConnectFailed | RegisterFailed

  /**
   The program counter of the one operation that holds an instance's lifecycleMu; Idle when it is
   free. In the start section again tells Restart from Start, up to the reclaim, and reclaimed whether that
   removed the path. In the stop section whole tells Stop from the cleanup after a failed registration,
   remove is the local removePath, and basis is the owner on which it was decided.
   */
  datatype Pc =
    | Idle
    | RestartClose | RestartDrop
    | StartLock(again: bool) | StartClear(again: bool) | StartReclaim(again: bool)
    | StartCreate(reclaimed: bool) | StartListen(reclaimed: bool)
    | StartRecord | StartUnlock(listening: bool) | StartServe | StartConnect | StartRegister
    | StopLock(whole: bool) | StopDecide(whole: bool) | StopStat(whole: bool) | StopScan(whole: bool)
    | StopClear(whole: bool, remove: bool, basis: Owner) | StopClose(whole: bool, remove: bool, basis: Owner)
    | StopUnlink(whole: bool, basis: Owner) | StopUnlock(whole: bool) | StopDelete
    | Crashed

  /**
   One instance. sock is the listener startLocked holds between Listen and Serve, serving the
   listener of the current gRPC server.
   */
  datatype Inst = Inst(
    pc: Pc, owner: Owner, ino: Ino, hasServer: bool,
    sock: Option<Ino>, serving: Option<Ino>, last: Outcome)

  /**
   path: the inode of the listener the pathname was bound by, if the pathname exists.
   wiped: whether the kubelet has deleted the pathname since it was last bound.
   live: the open listeners, with their instances.
   bound: the inodes bound in this run; used also holds those that predate it.
   flock: the holder of the lock on the directory.
   */
  datatype State = State(
    path: Option<Ino>, wiped: bool, live: map<Ino, nat>, bound: set<Ino>, used: set<Ino>,
    flock: Option<nat>, insts: seq<Inst>)

  datatype Operation = StartOp | StopOp | RestartOp

  datatype RestartStep = CloseOld(late: bool) | DropServer

  /** lockSocketPath: Fail is its unlocked way on. */
  datatype LockStep = Take | Fail | Release

  datatype StartStep =
    | ClearBefore | Reclaim(ok: bool) | Create | Listen(got: Option<Ino>)
    | Record(captured: bool) | Serve | Connect(up: bool) | Register(accepted: bool)

  datatype StopStep =
    | Decide | Stat(found: bool) | Scan(rows: Option<seq<Ino>>)
    | ClearAfter | CloseServer(late: bool) | Unlink(ok: bool) | Delete

  datatype Action =
    | Begin(i: nat, op: Operation)
    | Restarting(i: nat, restart: RestartStep)
    | Locking(i: nat, lock: LockStep)
    | Starting(i: nat, start: StartStep)
    | Stopping(i: nat, stop: StopStep)
    | Crash(i: nat)
    | KubeletDelete
    | CloseListener(ino: Ino)

  // ---------- the machine ----------

  ghost predicate Init(s: State) {
    && s.live == map[] && s.bound == {} && s.flock == None
    && (s.path.Some? ==> s.path.value in s.used)
    && forall i :: 0 <= i < |s.insts| ==> s.insts[i] == Inst(Idle, NoOwner, 0, false, None, None, NotRunning)
  }

  ghost predicate InLock(pc: Pc) {
    match pc
    case StartClear(_) | StartReclaim(_) | StartCreate(_) | StartListen(_) | StartRecord | StartUnlock(_) => true
    case StopDecide(_) | StopStat(_) | StopScan(_) | StopClear(_, _, _) => true
    case StopClose(_, _, _) | StopUnlink(_, _) | StopUnlock(_) => true
    case _ => false
  }

  ghost predicate ByInstance(a: Action) {
    !a.KubeletDelete? && !a.CloseListener?
  }

  ghost predicate LockFailure(a: Action) {
    a.Locking? && a.lock == Fail
  }

  /** Whether the action may happen; the system calls' outcomes must fit the state. */
  ghost predicate Enabled(s: State, a: Action) {
    match a
    case KubeletDelete => true
    case CloseListener(x) => x in s.live
    case _ => a.i < |s.insts| && EnabledIn(s, s.insts[a.i], a)
  }

  ghost predicate EnabledIn(s: State, t: Inst, a: Action)
    requires ByInstance(a)
  {
    match a
    case Begin(_, op) => t.pc == Idle && (op == StartOp || t.hasServer)
    case Restarting(_, restart) => t.pc == if restart.CloseOld? then RestartClose else RestartDrop
    case Locking(_, lock) =>
      if lock == Release then t.pc.StartUnlock? || t.pc.StopUnlock?
      else (t.pc.StartLock? || t.pc.StopLock?) && (lock == Take ==> s.flock == None)
    case Starting(_, start) => EnabledStart(s, t, start)
    case Stopping(_, stop) => EnabledStop(s, t, stop)
    case Crash(_) => t.pc != Crashed
  }

  ghost predicate EnabledStart(s: State, t: Inst, start: StartStep) {
    match start
    case ClearBefore => t.pc.StartClear?
    case Reclaim(_) => t.pc.StartReclaim?
    case Create => t.pc.StartCreate?
    // bind(2) fails when the pathname exists
    case Listen(got) => t.pc.StartListen? && (got.Some? ==> s.path == None && got.value !in s.used)
    case Record(captured) => t.pc == StartRecord && (captured ==> t.sock.Some?)
    case Serve => t.pc == StartServe
    case Connect(_) => t.pc == StartConnect
    case Register(_) => t.pc == StartRegister
  }

  ghost predicate EnabledStop(s: State, t: Inst, stop: StopStep) {
    match stop
    case Decide => t.pc.StopDecide?
    case Stat(found) => t.pc.StopStat? && (found ==> s.path.Some?)
    // the table lists at least the live listeners
    case Scan(rows) => t.pc.StopScan? && (rows.Some? ==> forall x :: x in s.live ==> x in rows.value)
    case ClearAfter => t.pc.StopClear?
    case CloseServer(_) => t.pc.StopClose?
    case Unlink(_) => t.pc.StopUnlink?
    case Delete => t.pc == StopDelete
  }

  ghost function Apply(s: State, a: Action): (u: State)
    requires Enabled(s, a)
    ensures |u.insts| == |s.insts|
  {
    match a
    case KubeletDelete => s.(path := None, wiped := true)
    case CloseListener(x) => s.(live := s.live - {x})
    case Begin(i, op) =>
      var pc := match op case StartOp => StartLock(false) case StopOp => StopLock(true) case RestartOp => RestartClose;
      Go(s, i, s.insts[i].(pc := pc))
    case Restarting(i, restart) => ApplyRestart(s, i, s.insts[i], restart)
    case Locking(i, lock) => ApplyLock(s, i, s.insts[i], lock)
    case Starting(i, start) => ApplyStart(s, i, s.insts[i], start)
    case Stopping(i, stop) => ApplyStop(s, i, s.insts[i], stop)
    case Crash(i) =>
      Go(Unlocked(s, i).(live := map x | x in s.live && s.live[x] != i :: s.live[x]), i, s.insts[i].(pc := Crashed))
  }

  ghost function Go(s: State, i: nat, t: Inst): (u: State)
    requires i < |s.insts|
    ensures |u.insts| == |s.insts|
  {
    s.(insts := s.insts[i := t])
  }

  /** Instance i gives up the directory lock, if it has it. */
  ghost function Unlocked(s: State, i: nat): State {
    if s.flock == Some(i) then s.(flock := None) else s
  }

  /** The listener of the current server is closed, at once or (late) some time after Stop returned. */
  ghost function Closed(s: State, t: Inst, late: bool): State {
    if late || t.serving.None? then s else s.(live := s.live - {t.serving.value})
  }

  ghost function ApplyRestart(s: State, i: nat, t: Inst, restart: RestartStep): (u: State)
    requires i < |s.insts|
    ensures |u.insts| == |s.insts|
  {
    match restart
    case CloseOld(late) => Go(Closed(s, t, late), i, t.(pc := RestartDrop))
    case DropServer => Go(s, i, t.(pc := StartLock(true), hasServer := false, serving := None))
  }

  ghost function ApplyLock(s: State, i: nat, t: Inst, lock: LockStep): (u: State)
    requires i < |s.insts| && EnabledIn(s, t, Locking(i, lock))
    ensures |u.insts| == |s.insts|
  {
    match lock
    case Take => Go(s.(flock := Some(i)), i, t.(pc := AfterLock(t.pc)))
    case Fail => Go(s, i, t.(pc := AfterLock(t.pc)))
    case Release =>
      Go(Unlocked(s, i), i,
         if t.pc == StartUnlock(true) then t.(pc := StartServe)
         else if t.pc == StartUnlock(false) then t.(pc := Idle, last := ListenFailed)
         else if t.pc == StopUnlock(true) then t.(pc := StopDelete)
         else t.(pc := Idle, last := RegisterFailed))
  }

  ghost function ApplyStart(s: State, i: nat, t: Inst, start: StartStep): (u: State)
    requires i < |s.insts| && EnabledStart(s, t, start)
    ensures |u.insts| == |s.insts|
  {
    match start
    case ClearBefore => Go(s, i, t.(pc := StartReclaim(t.pc.again), owner := NoOwner, ino := 0))
    case Reclaim(ok) => Go(if ok then s.(path := None) else s, i, t.(pc := StartCreate(ok)))
    case Create => Go(s, i, t.(pc := StartListen(t.pc.reclaimed), hasServer := true, serving := None))
    case Listen(got) =>
      if got.None? then Go(s, i, t.(pc := StartUnlock(false)))
      else
        var x := got.value;
        Go(s.(path := Some(x), wiped := false, live := s.live[x := i], bound := s.bound + {x}, used := s.used + {x}),
           i, t.(pc := StartRecord, sock := Some(x)))
    case Record(captured) =>
      Go(s, i, if captured then t.(pc := StartUnlock(true), owner := Known, ino := t.sock.value)
               else t.(pc := StartUnlock(true), owner := Unknown, ino := 0))
    case Serve => Go(s, i, t.(pc := StartConnect, serving := t.sock, sock := None))
    case Connect(up) => Go(s, i, if up then t.(pc := StartRegister) else t.(pc := Idle, last := ConnectFailed))
    // without registration, in watch mode, this step is always accepted
    case Register(accepted) => Go(s, i, if accepted then t.(pc := Idle, last := Served) else t.(pc := StopLock(false)))
  }

  ghost function ApplyStop(s: State, i: nat, t: Inst, stop: StopStep): (u: State)
    requires i < |s.insts| && EnabledStop(s, t, stop)
    ensures |u.insts| == |s.insts|
  {
    match stop
    case Decide =>
      Go(s, i, t.(pc := match t.owner
                        case NoOwner => StopClear(t.pc.whole, true, NoOwner)
                        case Known => StopStat(t.pc.whole)
                        case Unknown => StopClear(t.pc.whole, false, Unknown)))
    case Stat(found) =>
      Go(s, i, t.(pc := if found then StopScan(t.pc.whole) else StopClear(t.pc.whole, false, Known)))
    case Scan(rows) =>
      Go(s, i, t.(pc := StopClear(t.pc.whole, rows == Some([t.ino]), Known)))
    case ClearAfter =>
      Go(s, i, t.(pc := StopClose(t.pc.whole, t.pc.remove, t.pc.basis), owner := NoOwner, ino := 0))
    case CloseServer(late) =>
      Go(Closed(s, t, late), i,
         t.(pc := if t.pc.remove then StopUnlink(t.pc.whole, t.pc.basis) else StopUnlock(t.pc.whole), serving := None))
    case Unlink(ok) =>
      Go(if ok then s.(path := None) else s, i, t.(pc := StopUnlock(t.pc.whole)))
    case Delete => Go(s, i, t.(pc := Idle, hasServer := false, last := NotRunning))
  }

  ghost function AfterLock(pc: Pc): Pc
    requires pc.StartLock? || pc.StopLock?
  {
    if pc.StopLock? then StopDecide(pc.whole) else StartClear(pc.again)
  }

  /** states[k + 1] is the result of actions[k] in states[k], from an initial state on. */
  ghost predicate Run(states: seq<State>, actions: seq<Action>) {
    && |states| == |actions| + 1
    && Init(states[0])
    && forall k :: 0 <= k < |actions| ==>
         Enabled(states[k], actions[k]) && states[k + 1] == Apply(states[k], actions[k])
  }

  /** Whenever the code asks for the directory lock it gets it. */
  ghost predicate LocksTaken(actions: seq<Action>) {
    forall k :: 0 <= k < |actions| ==> !LockFailure(actions[k])
  }

  // ---------- the invariant ----------

  /** An inode of instance i: no other instance has it as a live listener. */
  ghost predicate Mine(s: State, i: nat, x: Ino) {
    x in s.bound && (x in s.live ==> s.live[x] == i)
  }

  /** No live listener belongs to another instance. */
  ghost predicate NoOther(s: State, i: nat) {
    forall x :: x in s.live ==> s.live[x] == i
  }

  /** The path names x, unless the kubelet deleted it. */
  ghost predicate Names(s: State, x: Ino) {
    s.path == Some(x) || (s.wiped && s.path == None)
  }

  ghost predicate PcOk(s: State, i: nat, t: Inst) {
    match t.pc
    case Idle =>
      && (t.hasServer <==> t.last != NotRunning)
      && (t.hasServer && t.owner == NoOwner <==> LastFailed(t))
      && (!t.hasServer ==> t.owner == NoOwner)
    case StartReclaim(_) => t.owner == NoOwner
    case StartCreate(reclaimed) => t.owner == NoOwner && (reclaimed ==> s.path == None)
    case StartListen(reclaimed) => t.owner == NoOwner && t.hasServer && (reclaimed ==> s.path == None)
    case StartRecord => t.hasServer && t.sock.Some? && Names(s, t.sock.value)
    case StartUnlock(listening) =>
      && t.hasServer
      && (!listening ==> t.owner == NoOwner)
      && (listening ==> t.sock.Some? && Names(s, t.sock.value) && t.owner != NoOwner
                        && (t.owner == Known ==> t.ino == t.sock.value))
    case StartServe | StartConnect | StartRegister => t.hasServer && t.owner != NoOwner
    case StopLock(whole) => t.hasServer && (t.owner == NoOwner <==> whole && LastFailed(t))
    case StopDecide(whole) => t.hasServer && (t.owner == NoOwner <==> whole && LastFailed(t))
    case StopStat(whole) => t.hasServer && t.owner == Known && !(whole && LastFailed(t))
    case StopScan(whole) => t.hasServer && t.owner == Known && !(whole && LastFailed(t))
    case StopClear(whole, remove, basis) => t.hasServer && t.owner == basis && Decided(s, i, t, whole, remove, basis)
    case StopClose(whole, remove, basis) => t.hasServer && t.owner == NoOwner && Decided(s, i, t, whole, remove, basis)
    case StopUnlink(whole, basis) => t.hasServer && t.owner == NoOwner && Decided(s, i, t, whole, true, basis)
    case StopUnlock(_) => t.hasServer && t.owner == NoOwner
    case StopDelete => t.owner == NoOwner
    case _ => true
  }

  ghost predicate LastFailed(t: Inst) {
    t.last == ListenFailed || t.last == RegisterFailed
  }

  /** What is known of the local removePath once it is computed. */
  ghost predicate Decided(s: State, i: nat, t: Inst, whole: bool, remove: bool, basis: Owner) {
    && (basis == NoOwner <==> whole && LastFailed(t))
    && (basis == NoOwner ==> remove)
    && (remove && basis == Known ==> NoOther(s, i))
    && (basis == Unknown ==> !remove)
  }

  /** The instance is inside the lock section exactly if it holds the lock, and its inodes are its own. */
  ghost predicate HoldingsOk(s: State, i: nat)
    requires i < |s.insts|
  {
    var t := s.insts[i];
    && (InLock(t.pc) <==> s.flock == Some(i))
    && (t.owner == Known ==> Mine(s, i, t.ino))
    && (t.sock.Some? ==> Mine(s, i, t.sock.value))
    && (t.serving.Some? ==> Mine(s, i, t.serving.value))
  }

  ghost predicate InstOk(s: State, i: nat)
    requires i < |s.insts|
  {
    HoldingsOk(s, i) && PcOk(s, i, s.insts[i])
  }

  ghost predicate WorldOk(s: State) {
    && s.live.Keys <= s.bound <= s.used
    && (s.path.Some? ==> s.path.value in s.used)
    && (forall x :: x in s.live ==> s.live[x] < |s.insts|)
    && (s.flock.Some? ==> s.flock.value < |s.insts|)
  }

  ghost predicate Inv(s: State) {
    WorldOk(s) && forall i :: 0 <= i < |s.insts| ==> InstOk(s, i)
  }

  /** All that an action of instance j can change: its own record, and the path only under the lock. */
  ghost predicate Frame(s: State, u: State, j: nat)
    requires j < |s.insts|
  {
    && |u.insts| == |s.insts|
    && (forall i :: 0 <= i < |s.insts| && i != j ==> u.insts[i] == s.insts[i])
    && s.bound <= u.bound
    && (forall x :: x in u.live ==> (x in s.live && u.live[x] == s.live[x]) || (x !in s.bound && u.live[x] == j))
    && (u.flock == s.flock || (s.flock == None && u.flock == Some(j)) || (s.flock == Some(j) && u.flock == None))
    && (InLock(s.insts[j].pc) || (u.path == s.path && u.wiped == s.wiped && u.live.Keys <= s.live.Keys))
  }

  lemma StartFrame(s: State, i: nat, start: StartStep)
    requires WorldOk(s) && Enabled(s, Starting(i, start))
    ensures Frame(s, Apply(s, Starting(i, start)), i) && WorldOk(Apply(s, Starting(i, start)))
  {
    hide ApplyStop, EnabledStop, ApplyRestart, ApplyLock;
  }

  lemma StopFrame(s: State, i: nat, stop: StopStep)
    requires WorldOk(s) && Enabled(s, Stopping(i, stop))
    ensures Frame(s, Apply(s, Stopping(i, stop)), i) && WorldOk(Apply(s, Stopping(i, stop)))
  {
    hide ApplyStart, EnabledStart, ApplyRestart, ApplyLock;
  }

  lemma OtherFrame(s: State, a: Action)
    requires WorldOk(s) && Enabled(s, a) && (a.Begin? || a.Restarting? || a.Crash?)
    ensures Frame(s, Apply(s, a), a.i) && WorldOk(Apply(s, a))
  {
    hide ApplyStart, EnabledStart, ApplyStop, EnabledStop, ApplyLock;
  }

  lemma LockFrame(s: State, i: nat, lock: LockStep)
    requires WorldOk(s) && Enabled(s, Locking(i, lock))
    ensures Frame(s, Apply(s, Locking(i, lock)), i) && WorldOk(Apply(s, Locking(i, lock)))
  {
    hide ApplyStart, EnabledStart, ApplyStop, EnabledStop, ApplyRestart;
  }

  lemma ActionFrame(s: State, a: Action)
    requires WorldOk(s) && Enabled(s, a) && ByInstance(a)
    ensures Frame(s, Apply(s, a), a.i) && WorldOk(Apply(s, a))
  {
    match a
    case Starting(i, start) => StartFrame(s, i, start);
    case Stopping(i, stop) => StopFrame(s, i, stop);
    case Locking(i, lock) => LockFrame(s, i, lock);
    case _ => OtherFrame(s, a);
  }

  lemma FrameKeepsOther(s: State, u: State, j: nat, i: nat)
    requires Inv(s) && WorldOk(u) && j < |s.insts| && Frame(s, u, j) && i < |s.insts| && i != j
    ensures InstOk(u, i)
  {
    assert InstOk(s, i) && InstOk(s, j);
  }

  lemma EnvironmentKeepsInv(s: State, a: Action)
    requires Inv(s) && Enabled(s, a) && !ByInstance(a)
    ensures Inv(Apply(s, a))
  {
    var u := Apply(s, a);
    forall i | 0 <= i < |s.insts|
      ensures InstOk(u, i)
    {
      assert InstOk(s, i);
    }
  }

  lemma ReclaimKeepsPc(s: State, i: nat, start: StartStep)
    requires Enabled(s, Starting(i, start)) && WorldOk(s) && InstOk(s, i)
    requires start.ClearBefore? || start.Reclaim? || start.Create?
    ensures PcOk(Apply(s, Starting(i, start)), i, Apply(s, Starting(i, start)).insts[i])
  {
    hide ApplyStop, EnabledStop, ApplyRestart, ApplyLock;
  }

  lemma BindKeepsPc(s: State, i: nat, start: StartStep)
    requires Enabled(s, Starting(i, start)) && WorldOk(s) && InstOk(s, i) && (start.Listen? || start.Record?)
    ensures PcOk(Apply(s, Starting(i, start)), i, Apply(s, Starting(i, start)).insts[i])
  {
    hide ApplyStop, EnabledStop, ApplyRestart, ApplyLock;
  }

  lemma ServeKeepsPc(s: State, i: nat, start: StartStep)
    requires Enabled(s, Starting(i, start)) && WorldOk(s) && InstOk(s, i)
    requires start.Serve? || start.Connect? || start.Register?
    ensures PcOk(Apply(s, Starting(i, start)), i, Apply(s, Starting(i, start)).insts[i])
  {
    hide ApplyStop, EnabledStop, ApplyRestart, ApplyLock;
  }

  lemma StartKeepsPc(s: State, i: nat, start: StartStep)
    requires Enabled(s, Starting(i, start)) && WorldOk(s) && InstOk(s, i)
    ensures PcOk(Apply(s, Starting(i, start)), i, Apply(s, Starting(i, start)).insts[i])
  {
    match start
    case ClearBefore | Reclaim(_) | Create => ReclaimKeepsPc(s, i, start);
    case Listen(_) | Record(_) => BindKeepsPc(s, i, start);
    case _ => ServeKeepsPc(s, i, start);
  }

  lemma StartKeepsHoldings(s: State, i: nat, start: StartStep)
    requires Enabled(s, Starting(i, start)) && WorldOk(s) && InstOk(s, i)
    ensures HoldingsOk(Apply(s, Starting(i, start)), i)
  {
    hide ApplyStop, EnabledStop, ApplyRestart, ApplyLock;
  }

  lemma StopKeepsHoldings(s: State, i: nat, stop: StopStep)
    requires Enabled(s, Stopping(i, stop)) && WorldOk(s) && InstOk(s, i)
    ensures HoldingsOk(Apply(s, Stopping(i, stop)), i)
  {
    hide ApplyStart, EnabledStart, ApplyRestart, ApplyLock;
  }

  lemma StartKeepsActor(s: State, i: nat, start: StartStep)
    requires Enabled(s, Starting(i, start)) && WorldOk(s) && InstOk(s, i)
    ensures InstOk(Apply(s, Starting(i, start)), i)
  {
    hide PcOk, HoldingsOk, EnabledStart;
    StartKeepsPc(s, i, start);
    StartKeepsHoldings(s, i, start);
  }

  lemma CheckKeepsPc(s: State, i: nat, stop: StopStep)
    requires Enabled(s, Stopping(i, stop)) && WorldOk(s) && InstOk(s, i) && (stop.Decide? || stop.Stat? || stop.Scan?)
    ensures PcOk(Apply(s, Stopping(i, stop)), i, Apply(s, Stopping(i, stop)).insts[i])
  {
    hide ApplyStart, EnabledStart, ApplyRestart, ApplyLock;
  }

  lemma CloseKeepsPc(s: State, i: nat, stop: StopStep)
    requires Enabled(s, Stopping(i, stop)) && WorldOk(s) && InstOk(s, i) && (stop.ClearAfter? || stop.CloseServer?)
    ensures PcOk(Apply(s, Stopping(i, stop)), i, Apply(s, Stopping(i, stop)).insts[i])
  {
    hide ApplyStart, EnabledStart, ApplyRestart, ApplyLock;
  }

  lemma RemoveKeepsPc(s: State, i: nat, stop: StopStep)
    requires Enabled(s, Stopping(i, stop)) && WorldOk(s) && InstOk(s, i) && (stop.Unlink? || stop.Delete?)
    ensures PcOk(Apply(s, Stopping(i, stop)), i, Apply(s, Stopping(i, stop)).insts[i])
  {
    hide ApplyStart, EnabledStart, ApplyRestart, ApplyLock;
  }

  lemma StopKeepsActor(s: State, i: nat, stop: StopStep)
    requires Enabled(s, Stopping(i, stop)) && WorldOk(s) && InstOk(s, i)
    ensures InstOk(Apply(s, Stopping(i, stop)), i)
  {
    hide PcOk, HoldingsOk, EnabledStop;
    StopKeepsHoldings(s, i, stop);
    match stop
    case Decide | Stat(_) | Scan(_) => CheckKeepsPc(s, i, stop);
    case ClearAfter | CloseServer(_) => CloseKeepsPc(s, i, stop);
    case _ => RemoveKeepsPc(s, i, stop);
  }

  lemma LockKeepsActor(s: State, i: nat, lock: LockStep)
    requires Enabled(s, Locking(i, lock)) && WorldOk(s) && InstOk(s, i) && lock != Fail
    ensures InstOk(Apply(s, Locking(i, lock)), i)
  {
    hide ApplyStart, EnabledStart, ApplyStop, EnabledStop, ApplyRestart;
  }

  lemma BeginKeepsActor(s: State, i: nat, op: Operation)
    requires Enabled(s, Begin(i, op)) && WorldOk(s) && InstOk(s, i)
    ensures InstOk(Apply(s, Begin(i, op)), i)
  {
    hide ApplyStart, EnabledStart, ApplyStop, EnabledStop, ApplyLock;
  }

  lemma RestartKeepsActor(s: State, i: nat, restart: RestartStep)
    requires Enabled(s, Restarting(i, restart)) && WorldOk(s) && InstOk(s, i)
    ensures InstOk(Apply(s, Restarting(i, restart)), i)
  {
    hide ApplyStart, EnabledStart, ApplyStop, EnabledStop, ApplyLock;
  }

  lemma CrashKeepsActor(s: State, i: nat)
    requires Enabled(s, Crash(i)) && WorldOk(s) && InstOk(s, i)
    ensures InstOk(Apply(s, Crash(i)), i)
  {
    hide ApplyStart, EnabledStart, ApplyStop, EnabledStop, ApplyLock;
  }

  lemma StepKeepsActor(s: State, a: Action)
    requires Enabled(s, a) && ByInstance(a) && !LockFailure(a) && WorldOk(s) && InstOk(s, a.i)
    ensures InstOk(Apply(s, a), a.i)
  {
    match a
    case Starting(i, start) => StartKeepsActor(s, i, start);
    case Stopping(i, stop) => StopKeepsActor(s, i, stop);
    case Locking(i, lock) => LockKeepsActor(s, i, lock);
    case Begin(i, op) => BeginKeepsActor(s, i, op);
    case Restarting(i, restart) => RestartKeepsActor(s, i, restart);
    case Crash(i) => CrashKeepsActor(s, i);
  }

  lemma StepKeepsInv(s: State, a: Action)
    requires Inv(s) && Enabled(s, a) && !LockFailure(a)
    ensures Inv(Apply(s, a))
  {
    if !ByInstance(a) {
      EnvironmentKeepsInv(s, a);
    } else {
      var u := Apply(s, a);
      ActionFrame(s, a);
      forall i | 0 <= i < |s.insts|
        ensures InstOk(u, i)
      {
        if i != a.i {
          FrameKeepsOther(s, u, a.i, i);
        } else {
          StepKeepsActor(s, a);
        }
      }
    }
  }

  lemma {:induction false} RunKeepsInv(states: seq<State>, actions: seq<Action>, k: nat)
    requires Run(states, actions) && LocksTaken(actions) && k < |states|
    ensures Inv(states[k])
  {
    if k > 0 {
      RunKeepsInv(states, actions, k - 1);
      StepKeepsInv(states[k - 1], actions[k - 1]);
    }
  }

  // ---------- safety ----------

  /**
   Stop-safety. In every run, if a stop unlinks the path while it names the live listener of another
   instance, then the stopping instance had no owner, which it has exactly when its last start failed at
   Listen or at registration. With a Known or an Unknown owner it never happens.
   */
  lemma StopSparesOthers(states: seq<State>, actions: seq<Action>, k: nat, i: nat, ok: bool)
    requires Run(states, actions) && LocksTaken(actions) && k < |actions| && actions[k] == Stopping(i, Unlink(ok))
    ensures
      var s, t := states[k], states[k].insts[i];
      && (t.pc.basis == NoOwner <==> t.pc.whole && LastFailed(t))
      && (s.path.Some? && s.path.value in s.live && s.live[s.path.value] != i ==> t.pc.basis == NoOwner)
  {
    RunKeepsInv(states, actions, k);
    assert InstOk(states[k], i);
  }

  /**
   The exact condition. When a stop, having checked its ownership, comes to close its listener while the path
   names the live listener of another instance, it goes on to unlink that path if and only if it is a Stop of
   a server whose last start failed at Listen or at registration. Whoever calls Stop can tell beforehand.
   */
  lemma StopTakesAnothersIff(states: seq<State>, actions: seq<Action>, k: nat, i: nat, late: bool)
    requires Run(states, actions) && LocksTaken(actions)
    requires k < |actions| && actions[k] == Stopping(i, CloseServer(late))
    requires
      var s := states[k];
      s.path.Some? && s.path.value in s.live && s.live[s.path.value] != i
    ensures
      var t := states[k].insts[i];
      && (states[k + 1].insts[i].pc.StopUnlink? <==> t.pc.whole && LastFailed(t))
      && states[k + 1].path == states[k].path
  {
    RunKeepsInv(states, actions, k);
    assert InstOk(states[k], i);
  }

  /** An Unknown owner never unlinks. */
  lemma UnknownOwnerNeverUnlinks(states: seq<State>, actions: seq<Action>, k: nat, i: nat, ok: bool)
    requires Run(states, actions) && LocksTaken(actions) && k < |actions| && actions[k] == Stopping(i, Unlink(ok))
    ensures states[k].insts[i].pc.basis != Unknown
  {
    RunKeepsInv(states, actions, k);
    assert InstOk(states[k], i);
  }

  /** All the ways in which the pathname of a live listener can be taken from it. */
  lemma WhoTakesALivePath(states: seq<State>, actions: seq<Action>, k: nat, x: Ino)
    requires Run(states, actions) && LocksTaken(actions) && k < |actions|
    requires states[k].path == Some(x) && x in states[k].live && states[k + 1].path != Some(x)
    ensures
      var a := actions[k];
      || a == KubeletDelete
      || (a.Starting? && a.start == Reclaim(true))
      || (a.Stopping? && a.stop == Unlink(true)
          && (a.i == states[k].live[x] || LastFailed(states[k].insts[a.i])))
  {
    var a := actions[k];
    if a.Stopping? && a.stop.Unlink? {
      StopSparesOthers(states, actions, k, a.i, a.stop.ok);
    }
  }

  /**
   Reclaim and bind are atomic: at most one instance is inside the lock; after a successful reclaim
   the path is absent when Listen runs; when the lock is released the path names the new listener
   (unless the kubelet deleted it), and a Known owner has that listener's inode. A Known inode is never
   that of another instance's live listener.
   */
  lemma ReclaimAndBindAreAtomic(states: seq<State>, actions: seq<Action>, k: nat, i: nat)
    requires Run(states, actions) && LocksTaken(actions) && k < |states| && i < |states[k].insts|
    ensures
      var s, t := states[k], states[k].insts[i];
      && (InLock(t.pc) ==> forall j :: 0 <= j < |s.insts| && j != i ==> !InLock(s.insts[j].pc))
      && (t.pc == StartListen(true) ==> s.path == None)
      && (t.pc == StartUnlock(true) ==>
            && t.sock.Some?
            && (s.path == t.sock || (s.path == None && s.wiped))
            && (t.owner == Known ==> t.ino == t.sock.value))
      && (t.owner == Known ==> forall x :: x in s.live && s.live[x] != i ==> t.ino != x)
  {
    RunKeepsInv(states, actions, k);
    var s := states[k];
    assert InstOk(s, i);
    forall j | 0 <= j < |s.insts| && j != i && InLock(s.insts[i].pc)
      ensures !InLock(s.insts[j].pc)
    {
      assert InstOk(s, j);
    }
  }

  /** Between its reclaim and its unlock, an instance is the only one that binds or unlinks. */
  lemma NoOtherActsOnPathUnderLock(states: seq<State>, actions: seq<Action>, k: nat, i: nat)
    requires Run(states, actions) && LocksTaken(actions) && k < |actions|
    requires i < |states[k].insts| && InLock(states[k].insts[i].pc)
    requires ByInstance(actions[k]) && actions[k].i != i
    ensures states[k + 1].path == states[k].path && states[k + 1].live.Keys <= states[k].live.Keys
  {
    RunKeepsInv(states, actions, k);
    assert InstOk(states[k], i) && InstOk(states[k], actions[k].i);
    ActionFrame(states[k], actions[k]);
  }

  /**
   The lifecycle: whenever an instance's lifecycleMu is free, it has a server exactly from its first
   start until its stop - also after a failed restart, so that its watcher can retry - and it has a server
   without an owner exactly when its last start failed at Listen or at registration.
   */
  lemma ServerOutlivesRestarts(states: seq<State>, actions: seq<Action>, k: nat, i: nat)
    requires Run(states, actions) && LocksTaken(actions) && k < |states|
    requires i < |states[k].insts| && states[k].insts[i].pc == Idle
    ensures
      var t := states[k].insts[i];
      && (t.hasServer <==> t.last != NotRunning)
      && (t.hasServer && t.owner == NoOwner <==> t.last == ListenFailed || t.last == RegisterFailed)
  {
    RunKeepsInv(states, actions, k);
    assert InstOk(states[k], i);
  }
}
