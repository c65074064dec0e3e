/**
 Last one out cleans up. In an orderly run - the table lists exactly the live listeners, every identity is
 captured, removals succeed, no instance crashes and no listener is closed but by Stop and Restart - the
 pathname does not outlive the listeners, in whatever order the instances stop.
 */
module SocketCleanup {
  import opened Wrappers
  import opened SocketOwnership

  /** The table's rows for the path are exactly the live listeners. */
  ghost predicate Exact(s: State, rows: seq<Ino>) {
    && (forall x :: x in rows <==> x in s.live)
    && |rows| == |s.live|
  }

  ghost predicate NoLive(s: State, i: nat) {
    forall x :: x in s.live ==> s.live[x] != i
  }

  ghost predicate Orderly(s: State, a: Action) {
    match a
    case Begin(i, op) => op == StartOp ==> NoLive(s, i)
    case Restarting(_, restart) => restart != CloseOld(true)
    case Locking(_, lock) => lock != Fail
    case Starting(_, start) => start != Reclaim(false) && start != Record(false)
    case Stopping(_, stop) =>
      (match stop
       case Stat(found) => found <==> s.path.Some?
       case Scan(rows) => rows.Some? && Exact(s, rows.value)
       case CloseServer(late) => !late
       case Unlink(ok) => ok
       case _ => true)
    case Crash(_) => false
    case KubeletDelete => true
    case CloseListener(_) => false
  }

  ghost predicate OrderlyRun(states: seq<State>, actions: seq<Action>) {
    Run(states, actions) && forall k :: 0 <= k < |actions| ==> Orderly(states[k], actions[k])
  }

  // ---------- the invariant ----------

  /** Restart has closed the old listener and not yet reclaimed the path. */
  ghost predicate Limbo(pc: Pc) {
    pc == RestartDrop || pc == StartLock(true) || pc == StartClear(true) || pc == StartReclaim(true)
  }

  ghost predicate SomeLimbo(s: State) {
    exists j :: 0 <= j < |s.insts| && Limbo(s.insts[j].pc)
  }

  /** The instance has an open listener. */
  ghost predicate Up(t: Inst) {
    match t.pc
    case StartRecord | StartServe | StartConnect | StartRegister => true
    case StartUnlock(listening) => listening
    case Idle | RestartClose | StopLock(_) | StopDecide(_) | StopStat(_) | StopScan(_) => t.owner != NoOwner
    case StopClear(_, _, basis) => basis != NoOwner
    case StopClose(_, _, basis) => basis != NoOwner
    case _ => false
  }

  ghost predicate HoldsSock(pc: Pc) {
    pc == StartRecord || pc == StartUnlock(true) || pc == StartServe
  }

  /** The one listener an instance can have. */
  ghost function Listener(t: Inst): Option<Ino> {
    if HoldsSock(t.pc) then t.sock else t.serving
  }

  /** An unlink that is skipped is no loss: the path is gone, or another instance has a claim on it. */
  ghost predicate Spared(s: State, i: nat) {
    || s.path == None
    || s.path.value !in s.bound
    || (exists x :: x in s.live && s.live[x] != i)
    || SomeLimbo(s)
  }

  ghost predicate Skips(pc: Pc) {
    match pc
    case StopClear(_, remove, _) => !remove
    case StopClose(_, remove, _) => !remove
    case _ => false
  }

  /** The bookkeeping of instance i, whose record is t, and its listener. */
  ghost predicate Tidy(live: map<Ino, nat>, i: nat, t: Inst) {
    && t.owner != Unknown
    && (Up(t) ==> Listener(t).Some? && Listener(t).value in live && live[Listener(t).value] == i)
    && (Up(t) && t.owner == Known ==> t.ino == Listener(t).value)
    && (forall x :: x in live && live[x] == i ==> Up(t) && Listener(t) == Some(x))
    && (t.sock.Some? ==> HoldsSock(t.pc))
  }

  ghost predicate CleanOwn(s: State, i: nat)
    requires i < |s.insts|
  {
    Tidy(s.live, i, s.insts[i])
  }

  ghost predicate CleanInst(s: State, i: nat)
    requires i < |s.insts|
  {
    CleanOwn(s, i) && (Skips(s.insts[i].pc) ==> Spared(s, i))
  }

  ghost predicate Covered(s: State) {
    s.path.Some? && s.path.value in s.bound ==>
      || s.live != map[]
      || SomeLimbo(s)
      || exists j :: 0 <= j < |s.insts| && s.insts[j].pc.StopUnlink?
  }

  ghost predicate CleanInv(s: State) {
    && Inv(s)
    && (forall i :: 0 <= i < |s.insts| ==> CleanInst(s, i))
    && Covered(s)
  }

  // ---------- preservation ----------

  lemma LimboLasts(s: State, a: Action)
    requires Enabled(s, a) && Orderly(s, a) && SomeLimbo(s) && !(a.Starting? && a.start.Reclaim?)
    ensures SomeLimbo(Apply(s, a))
  {
    var j :| 0 <= j < |s.insts| && Limbo(s.insts[j].pc);
    LimboStays(s, a, j);
  }

  lemma LimboStays(s: State, a: Action, j: nat)
    requires Enabled(s, a) && Orderly(s, a) && j < |s.insts| && Limbo(s.insts[j].pc)
    requires !(a.Starting? && a.start.Reclaim?)
    ensures j < |Apply(s, a).insts| && Limbo(Apply(s, a).insts[j].pc)
  {
    match a
    case Starting(i, start) => StartKeepsLimbo(s, i, start, j);
    case Stopping(i, stop) => StopKeepsLimbo(s, i, stop, j);
    case _ =>
  }

  lemma StartKeepsLimbo(s: State, i: nat, start: StartStep, j: nat)
    requires Enabled(s, Starting(i, start)) && j < |s.insts| && Limbo(s.insts[j].pc) && !start.Reclaim?
    ensures j < |Apply(s, Starting(i, start)).insts| && Limbo(Apply(s, Starting(i, start)).insts[j].pc)
  {
    hide ApplyStop, EnabledStop, ApplyRestart, ApplyLock;
  }

  lemma StopKeepsLimbo(s: State, i: nat, stop: StopStep, j: nat)
    requires Enabled(s, Stopping(i, stop)) && j < |s.insts| && Limbo(s.insts[j].pc)
    ensures j < |Apply(s, Stopping(i, stop)).insts| && Limbo(Apply(s, Stopping(i, stop)).insts[j].pc)
  {
    hide ApplyStart, EnabledStart, ApplyRestart, ApplyLock;
  }

  lemma RestartIsLimbo(s: State, i: nat)
    requires Enabled(s, Restarting(i, CloseOld(false)))
    ensures SomeLimbo(Apply(s, Restarting(i, CloseOld(false))))
  {
    hide ApplyStart, EnabledStart, ApplyStop, EnabledStop, ApplyLock;
    assert Limbo(Apply(s, Restarting(i, CloseOld(false))).insts[i].pc);
  }

  lemma BindKeepsOwn(s: State, i: nat, start: StartStep)
    requires Enabled(s, Starting(i, start)) && (start.Listen? || start.Record? || start.Serve?)
    requires start != Record(false)
    requires WorldOk(s) && InstOk(s, i) && CleanOwn(s, i)
    ensures CleanOwn(Apply(s, Starting(i, start)), i)
  {
    hide ApplyStop, EnabledStop, ApplyRestart, ApplyLock;
  }

  lemma OtherStartKeepsOwn(s: State, i: nat, start: StartStep)
    requires Enabled(s, Starting(i, start)) && !(start.Listen? || start.Record? || start.Serve?)
    requires WorldOk(s) && InstOk(s, i) && CleanOwn(s, i)
    ensures CleanOwn(Apply(s, Starting(i, start)), i)
  {
    hide ApplyStop, EnabledStop, ApplyRestart, ApplyLock;
  }

  lemma StartKeepsOwn(s: State, i: nat, start: StartStep)
    requires Enabled(s, Starting(i, start)) && Orderly(s, Starting(i, start))
    requires WorldOk(s) && InstOk(s, i) && CleanOwn(s, i)
    ensures CleanOwn(Apply(s, Starting(i, start)), i)
  {
    match start
    case Listen(_) | Record(_) | Serve => BindKeepsOwn(s, i, start);
    case _ => OtherStartKeepsOwn(s, i, start);
  }

  lemma CloseKeepsOwn(s: State, i: nat)
    requires Enabled(s, Stopping(i, CloseServer(false)))
    requires WorldOk(s) && InstOk(s, i) && CleanOwn(s, i)
    ensures CleanOwn(Apply(s, Stopping(i, CloseServer(false))), i)
  {
    hide ApplyStart, EnabledStart, ApplyRestart, ApplyLock;
  }

  lemma CheckKeepsOwn(s: State, i: nat, stop: StopStep)
    requires Enabled(s, Stopping(i, stop)) && (stop.Decide? || stop.Stat? || stop.Scan?)
    requires WorldOk(s) && InstOk(s, i) && CleanOwn(s, i)
    ensures CleanOwn(Apply(s, Stopping(i, stop)), i)
  {
    hide ApplyStart, EnabledStart, ApplyRestart, ApplyLock;
  }

  lemma RemoveKeepsOwn(s: State, i: nat, stop: StopStep)
    requires Enabled(s, Stopping(i, stop)) && (stop.ClearAfter? || stop.Unlink? || stop.Delete?)
    requires WorldOk(s) && InstOk(s, i) && CleanOwn(s, i)
    ensures CleanOwn(Apply(s, Stopping(i, stop)), i)
  {
    hide ApplyStart, EnabledStart, ApplyRestart, ApplyLock;
  }

  lemma StopKeepsOwn(s: State, i: nat, stop: StopStep)
    requires Enabled(s, Stopping(i, stop)) && Orderly(s, Stopping(i, stop))
    requires WorldOk(s) && InstOk(s, i) && CleanOwn(s, i)
    ensures CleanOwn(Apply(s, Stopping(i, stop)), i)
  {
    match stop
    case CloseServer(_) => CloseKeepsOwn(s, i);
    case Decide | Stat(_) | Scan(_) => CheckKeepsOwn(s, i, stop);
    case _ => RemoveKeepsOwn(s, i, stop);
  }

  lemma RestartKeepsOwn(s: State, i: nat, restart: RestartStep)
    requires Enabled(s, Restarting(i, restart)) && Orderly(s, Restarting(i, restart))
    requires WorldOk(s) && InstOk(s, i) && CleanOwn(s, i)
    ensures CleanOwn(Apply(s, Restarting(i, restart)), i)
  {
    hide ApplyStart, EnabledStart, ApplyStop, EnabledStop, ApplyLock;
  }

  lemma LockKeepsOwn(s: State, i: nat, lock: LockStep)
    requires Enabled(s, Locking(i, lock)) && Orderly(s, Locking(i, lock))
    requires WorldOk(s) && InstOk(s, i) && CleanOwn(s, i)
    ensures CleanOwn(Apply(s, Locking(i, lock)), i)
  {
    hide ApplyStart, EnabledStart, ApplyStop, EnabledStop, ApplyRestart;
  }

  lemma BeginKeepsOwn(s: State, i: nat, op: Operation)
    requires Enabled(s, Begin(i, op)) && Orderly(s, Begin(i, op))
    requires WorldOk(s) && InstOk(s, i) && CleanOwn(s, i)
    ensures CleanOwn(Apply(s, Begin(i, op)), i)
  {
    hide ApplyStart, EnabledStart, ApplyStop, EnabledStop, ApplyLock;
  }

  /** An action closes no listener of an instance other than its own, and makes nothing of it. */
  lemma OthersKeepListeners(s: State, a: Action, i: nat)
    requires Inv(s) && Enabled(s, a) && Orderly(s, a) && ByInstance(a)
    requires i < |s.insts| && i != a.i
    ensures
      var u := Apply(s, a);
      && u.insts[i] == s.insts[i]
      && (forall x :: x in s.live && s.live[x] == i ==> x in u.live && u.live[x] == i)
      && (forall x :: x in u.live && u.live[x] == i ==> x in s.live && s.live[x] == i)
  {
    assert InstOk(s, a.i);
    ActionFrame(s, a);
  }

  lemma ActorKeepsOwn(s: State, a: Action)
    requires Enabled(s, a) && Orderly(s, a) && ByInstance(a)
    requires WorldOk(s) && InstOk(s, a.i) && CleanOwn(s, a.i)
    ensures CleanOwn(Apply(s, a), a.i)
  {
    match a
    case Begin(i, op) => BeginKeepsOwn(s, i, op);
    case Restarting(i, restart) => RestartKeepsOwn(s, i, restart);
    case Locking(i, lock) => LockKeepsOwn(s, i, lock);
    case Starting(i, start) => StartKeepsOwn(s, i, start);
    case Stopping(i, stop) => StopKeepsOwn(s, i, stop);
  }

  lemma StepKeepsOwn(s: State, a: Action, i: nat)
    requires CleanInv(s) && Enabled(s, a) && Orderly(s, a) && i < |s.insts|
    ensures CleanOwn(Apply(s, a), i)
  {
    assert CleanInst(s, i);
    if ByInstance(a) {
      if i == a.i {
        assert InstOk(s, i);
        ActorKeepsOwn(s, a);
      } else {
        OthersKeepListeners(s, a, i);
      }
    }
  }

  lemma SoleRow(s: State, rows: seq<Ino>, x: Ino)
    requires Exact(s, rows) && x in s.live && forall y :: y in s.live ==> y == x
    ensures rows == [x]
  {
    assert s.live.Keys == {x};
    assert |s.live| == |s.live.Keys|;
    assert rows[0] in rows;
  }

  /** A decision not to remove, when it is taken, is harmless. */
  lemma DecisionIsSpared(s: State, i: nat, stop: StopStep)
    requires CleanInv(s) && Enabled(s, Stopping(i, stop)) && Orderly(s, Stopping(i, stop))
    requires !Skips(s.insts[i].pc) && Skips(Apply(s, Stopping(i, stop)).insts[i].pc)
    ensures Spared(Apply(s, Stopping(i, stop)), i)
  {
    hide ApplyStart, EnabledStart, ApplyRestart, ApplyLock;
    assert InstOk(s, i) && CleanInst(s, i);
    if stop.Scan? {
      var t := s.insts[i];
      assert t.ino in s.live && s.live[t.ino] == i;
      if forall x :: x in s.live ==> s.live[x] == i {
        // then t's listener is the only one, and the table says so
        SoleRow(s, stop.rows.value, t.ino);
      }
    }
  }

  /** While instance i, inside the lock, has decided not to remove, the others keep it harmless. */
  lemma OthersKeepSpared(s: State, a: Action, i: nat)
    requires CleanInv(s) && Enabled(s, a) && Orderly(s, a)
    requires i < |s.insts| && Skips(s.insts[i].pc) && (ByInstance(a) ==> a.i != i)
    ensures Spared(Apply(s, a), i)
  {
    var u := Apply(s, a);
    assert InstOk(s, i) && CleanInst(s, i);
    if ByInstance(a) {
      assert InstOk(s, a.i);
      ActionFrame(s, a);
      if a.Restarting? && a.restart.CloseOld? {
        RestartIsLimbo(s, a.i);
      } else if SomeLimbo(s) {
        LimboLasts(s, a);
      } else if exists x :: x in s.live && s.live[x] != i {
        var x :| x in s.live && s.live[x] != i;
        assert x in u.live && u.live[x] != i;
      }
    }
  }

  lemma OnlyStopSkips(s: State, a: Action)
    requires Enabled(s, a) && ByInstance(a) && Skips(Apply(s, a).insts[a.i].pc)
    ensures a.Stopping? && (Skips(s.insts[a.i].pc) ==> a.stop.ClearAfter?)
  {
    match a
    case Starting(i, start) => StartSkipsNothing(s, i, start);
    case Stopping(_, _) => hide ApplyStart, EnabledStart, ApplyRestart, ApplyLock;
    case _ => hide ApplyStart, EnabledStart, ApplyStop, EnabledStop;
  }

  lemma StartSkipsNothing(s: State, i: nat, start: StartStep)
    requires Enabled(s, Starting(i, start))
    ensures !Skips(Apply(s, Starting(i, start)).insts[i].pc)
  {
    hide ApplyStop, EnabledStop, ApplyRestart, ApplyLock;
  }

  lemma ActorKeepsSpared(s: State, a: Action)
    requires CleanInv(s) && Enabled(s, a) && Orderly(s, a) && ByInstance(a)
    requires Skips(Apply(s, a).insts[a.i].pc)
    ensures Spared(Apply(s, a), a.i)
  {
    assert CleanInst(s, a.i);
    OnlyStopSkips(s, a);
    if Skips(s.insts[a.i].pc) {
      ClearingIsSpared(s, a.i);
    } else {
      DecisionIsSpared(s, a.i, a.stop);
    }
  }

  lemma StepKeepsSpared(s: State, a: Action, i: nat)
    requires CleanInv(s) && Enabled(s, a) && Orderly(s, a)
    requires i < |s.insts| && Skips(Apply(s, a).insts[i].pc)
    ensures Spared(Apply(s, a), i)
  {
    if ByInstance(a) && a.i == i {
      ActorKeepsSpared(s, a);
    } else {
      if ByInstance(a) {
        OthersKeepListeners(s, a, i);
      }
      OthersKeepSpared(s, a, i);
    }
  }

  lemma ClearingIsSpared(s: State, i: nat)
    requires Enabled(s, Stopping(i, ClearAfter)) && Spared(s, i)
    ensures Spared(Apply(s, Stopping(i, ClearAfter)), i)
  {
    hide ApplyStart, EnabledStart, ApplyRestart, ApplyLock;
    if SomeLimbo(s) {
      LimboLasts(s, Stopping(i, ClearAfter));
    }
  }

  /** Closing the listener in a stop: either the unlink follows, or it was rightly skipped. */
  lemma CloseKeepsCovered(s: State, i: nat)
    requires CleanInv(s) && Enabled(s, Stopping(i, CloseServer(false)))
    ensures Covered(Apply(s, Stopping(i, CloseServer(false))))
  {
    var a := Stopping(i, CloseServer(false));
    var u := Apply(s, a);
    assert InstOk(s, i) && CleanInst(s, i);
    if s.insts[i].pc.remove {
      assert u.insts[i].pc.StopUnlink?;
    } else if SomeLimbo(s) {
      LimboLasts(s, a);
    } else if exists x :: x in s.live && s.live[x] != i {
      var x :| x in s.live && s.live[x] != i;
      assert x in u.live;
    }
  }

  /** Steps that leave the listeners and the path alone, and unlink nothing. */
  lemma QuietKeepsCovered(s: State, a: Action)
    requires Covered(s) && Enabled(s, a) && Orderly(s, a) && ByInstance(a)
    requires !(a.Starting? && (a.start.Reclaim? || a.start.Listen?))
    requires !(a.Stopping? && (a.stop.CloseServer? || a.stop.Unlink?))
    requires !(a.Restarting? && a.restart.CloseOld?)
    ensures Covered(Apply(s, a))
  {
    var u := Apply(s, a);
    QuietKeepsPath(s, a);
    if SomeLimbo(s) {
      LimboLasts(s, a);
    } else if exists j :: 0 <= j < |s.insts| && s.insts[j].pc.StopUnlink? {
      var j :| 0 <= j < |s.insts| && s.insts[j].pc.StopUnlink?;
      QuietKeepsUnlinker(s, a, j);
    }
  }

  lemma QuietKeepsPath(s: State, a: Action)
    requires Enabled(s, a) && Orderly(s, a) && ByInstance(a)
    requires !(a.Starting? && (a.start.Reclaim? || a.start.Listen?))
    requires !(a.Stopping? && (a.stop.CloseServer? || a.stop.Unlink?))
    requires !(a.Restarting? && a.restart.CloseOld?)
    ensures
      var u := Apply(s, a);
      u.path == s.path && u.bound == s.bound && u.live == s.live
  {
  }

  lemma QuietKeepsUnlinker(s: State, a: Action, j: nat)
    requires Enabled(s, a) && Orderly(s, a) && ByInstance(a) && !(a.Stopping? && a.stop.Unlink?)
    requires j < |s.insts| && s.insts[j].pc.StopUnlink?
    ensures j < |Apply(s, a).insts| && Apply(s, a).insts[j].pc.StopUnlink?
  {
  }

  lemma StepKeepsCovered(s: State, a: Action)
    requires CleanInv(s) && Enabled(s, a) && Orderly(s, a)
    ensures Covered(Apply(s, a))
  {
    var u := Apply(s, a);
    if !ByInstance(a) || (a.Starting? && a.start.Reclaim?) || (a.Stopping? && a.stop.Unlink?) {
      assert u.path == None;
    } else if a.Starting? && a.start.Listen? {
      if a.start.got.None? {
        ListenFailureKeepsCovered(s, a.i);
      } else {
        assert a.start.got.value in u.live;
      }
    } else if a.Stopping? && a.stop.CloseServer? {
      CloseKeepsCovered(s, a.i);
    } else if a.Restarting? && a.restart.CloseOld? {
      RestartIsLimbo(s, a.i);
    } else {
      QuietKeepsCovered(s, a);
    }
  }

  lemma ListenFailureKeepsCovered(s: State, i: nat)
    requires CleanInv(s) && Enabled(s, Starting(i, Listen(None)))
    ensures Covered(Apply(s, Starting(i, Listen(None))))
  {
    var a := Starting(i, Listen(None));
    var u := Apply(s, a);
    assert InstOk(s, i);
    if SomeLimbo(s) {
      LimboLasts(s, a);
    } else if exists j :: 0 <= j < |s.insts| && s.insts[j].pc.StopUnlink? {
      var j :| 0 <= j < |s.insts| && s.insts[j].pc.StopUnlink?;
      assert u.insts[j].pc.StopUnlink?;
    }
  }

  lemma StepKeepsCleanInv(s: State, a: Action)
    requires CleanInv(s) && Enabled(s, a) && Orderly(s, a)
    ensures CleanInv(Apply(s, a))
  {
    var u := Apply(s, a);
    StepKeepsInv(s, a);
    forall i | 0 <= i < |u.insts|
      ensures CleanInst(u, i)
    {
      StepKeepsOwn(s, a, i);
      if Skips(u.insts[i].pc) {
        StepKeepsSpared(s, a, i);
      }
    }
    StepKeepsCovered(s, a);
  }

  lemma {:induction false} OrderlyRunKeepsCleanInv(states: seq<State>, actions: seq<Action>, k: nat)
    requires OrderlyRun(states, actions) && k < |states|
    ensures CleanInv(states[k])
    ensures states[k].path.Some? && states[k].path.value !in states[k].bound ==> states[k].path == states[0].path
  {
    if k > 0 {
      OrderlyRunKeepsCleanInv(states, actions, k - 1);
      StepKeepsCleanInv(states[k - 1], actions[k - 1]);
    }
  }

  // ---------- the theorems ----------

  /**
   Whenever the lock is free, a pathname bound in this run means that some listener is live, or that some
   instance is inside Restart, between closing its old listener and reclaiming the path.
   */
  lemma PathImpliesListener(states: seq<State>, actions: seq<Action>, k: nat)
    requires OrderlyRun(states, actions) && k < |states|
    requires states[k].flock == None && states[k].path.Some? && states[k].path.value in states[k].bound
    ensures states[k].live != map[] || SomeLimbo(states[k])
  {
    OrderlyRunKeepsCleanInv(states, actions, k);
    forall i | 0 <= i < |states[k].insts|
      ensures !states[k].insts[i].pc.StopUnlink?
    {
      assert InstOk(states[k], i);
    }
  }

  ghost predicate AllStopped(s: State) {
    forall i :: 0 <= i < |s.insts| ==> s.insts[i].pc == Idle && !s.insts[i].hasServer
  }

  /** What the pathname named before the run is gone for good once a start has reclaimed it. */
  lemma {:induction false} ReclaimedForGood(states: seq<State>, actions: seq<Action>, i: nat, j: nat, k: nat)
    requires Run(states, actions) && j < k < |states| && actions[j] == Starting(i, Reclaim(true))
    ensures states[k].path.Some? ==> states[k].path.value in states[k].bound
    decreases k
  {
    if k > j + 1 {
      ReclaimedForGood(states, actions, i, j, k - 1);
      PathStaysBound(states[k - 1], actions[k - 1]);
    }
  }

  lemma PathStaysBound(s: State, a: Action)
    requires Enabled(s, a) && (s.path.Some? ==> s.path.value in s.bound)
    ensures Apply(s, a).path.Some? ==> Apply(s, a).path.value in Apply(s, a).bound
  {
  }

  /**
   Once all instances have stopped, in any order, no listener is left and the path is absent, unless it
   names what was there before the run and no start of the run has reclaimed it.
   */
  lemma LastOneOutCleansUp(states: seq<State>, actions: seq<Action>, k: nat)
    requires OrderlyRun(states, actions) && k < |states| && AllStopped(states[k])
    ensures states[k].live == map[]
    ensures states[k].path == None || states[k].path == states[0].path
    ensures (exists j, i :: 0 <= j < k && actions[j] == Starting(i, Reclaim(true))) ==> states[k].path == None
  {
    OrderlyRunKeepsCleanInv(states, actions, k);
    var s := states[k];
    if j, i :| 0 <= j < k && actions[j] == Starting(i, Reclaim(true)) {
      ReclaimedForGood(states, actions, i, j, k);
    }
    forall i | 0 <= i < |s.insts|
      ensures !InLock(s.insts[i].pc) && !Limbo(s.insts[i].pc) && NoLive(s, i)
    {
      assert InstOk(s, i) && CleanInst(s, i);
    }
    assert forall x :: x in s.live ==> s.live[x] < |s.insts| && NoLive(s, s.live[x]);
    assert s.live.Keys == {};
  }
}
