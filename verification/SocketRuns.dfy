/**
 Particular runs of the socket protocol: a start and a stop that nobody disturbs, and the runs in
 which a stop does unlink another instance's live socket, which bound what SocketOwnership proves.
 */
module SocketRuns {
  import opened Wrappers
  import opened SocketOwnership

  /** Some run, with all its locks taken if locked, ends in s. */
  ghost predicate Reachable(s: State, locked: bool) {
    exists states: seq<State>, actions: seq<Action> :: RunTo(states, actions, s, locked)
  }

  ghost predicate RunTo(states: seq<State>, actions: seq<Action>, s: State, locked: bool) {
    Run(states, actions) && (locked ==> LocksTaken(actions)) && states[|actions|] == s
  }

  lemma InitReachable(s: State, locked: bool)
    requires Init(s)
    ensures Reachable(s, locked)
  {
    assert RunTo([s], [], s, locked);
  }

  lemma Step(s: State, a: Action, locked: bool) returns (u: State)
    requires Reachable(s, locked) && Enabled(s, a) && (locked ==> !LockFailure(a))
    ensures u == Apply(s, a) && Reachable(u, locked)
  {
    u := Apply(s, a);
    var states: seq<State>, actions: seq<Action> :| RunTo(states, actions, s, locked);
    var states', actions' := states + [u], actions + [a];
    forall k | 0 <= k < |actions'|
      ensures Enabled(states'[k], actions'[k]) && states'[k + 1] == Apply(states'[k], actions'[k])
    {
      if k < |actions| {
        assert states'[k] == states[k] && states'[k + 1] == states[k + 1] && actions'[k] == actions[k];
      }
    }
    assert RunTo(states', actions', u, locked);
  }

  /** From the lock to the bind, when the lock is free and the reclaim succeeds. */
  lemma ReclaimAlone(s: State, i: nat, locked: bool) returns (u: State)
    requires Reachable(s, locked) && s.flock == None && i < |s.insts| && s.insts[i].pc == Idle
    ensures Reachable(u, locked)
    ensures u == s.(path := None, flock := Some(i), insts := s.insts[i :=
                    s.insts[i].(pc := StartListen(true), owner := NoOwner, ino := 0,
                                hasServer := true, serving := None)])
  {
    hide Reachable;
    u := Step(s, Begin(i, StartOp), locked);
    u := Step(u, Locking(i, Take), locked);
    u := Step(u, Starting(i, ClearBefore), locked);
    u := Step(u, Starting(i, Reclaim(true)), locked);
    u := Step(u, Starting(i, Create), locked);
  }

  /** From the bind to the release of the lock. */
  lemma BindAlone(s: State, i: nat, x: Ino, locked: bool) returns (u: State)
    requires Reachable(s, locked) && i < |s.insts| && s.insts[i].pc == StartListen(true)
    requires s.path == None && s.flock == Some(i) && x !in s.used
    ensures Reachable(u, locked)
    ensures u == s.(path := Some(x), wiped := false, live := s.live[x := i], bound := s.bound + {x},
                    used := s.used + {x}, flock := None, insts := s.insts[i :=
                    s.insts[i].(pc := StartServe, owner := Known, ino := x, sock := Some(x))])
  {
    hide Reachable;
    u := Step(s, Starting(i, Listen(Some(x))), locked);
    u := Step(u, Starting(i, Record(true)), locked);
    u := Step(u, Locking(i, Release), locked);
  }

  /** From there to the registration, and through it. */
  lemma ServeAlone(s: State, i: nat, accepted: bool, locked: bool) returns (u: State)
    requires Reachable(s, locked) && i < |s.insts| && s.insts[i].pc == StartServe
    ensures Reachable(u, locked)
    ensures u == s.(insts := s.insts[i := Registered(s.insts[i], accepted)])
  {
    hide Reachable;
    u := Step(s, Starting(i, Serve), locked);
    u := Step(u, Starting(i, Connect(true)), locked);
    u := Step(u, Starting(i, Register(accepted)), locked);
  }

  ghost function Registered(t: Inst, accepted: bool): Inst {
    var served := t.(sock := None, serving := t.sock);
    if accepted then served.(pc := Idle, last := Served) else served.(pc := StopLock(false))
  }

  /** A start that nobody disturbs ends up serving on the path, whatever was there before. */
  lemma StartAlone(s: State, i: nat, x: Ino, locked: bool) returns (u: State)
    requires Reachable(s, locked) && s.flock == None && i < |s.insts| && s.insts[i].pc == Idle && x !in s.used
    ensures Reachable(u, locked)
    ensures u.path == Some(x) && u.live == s.live[x := i] && u.flock == None && u.used == s.used + {x}
    ensures u.insts == s.insts[i := s.insts[i].(owner := Known, ino := x, hasServer := true, sock := None,
                                                serving := Some(x), last := Served)]
  {
    hide Reachable;
    u := ReclaimAlone(s, i, locked);
    u := BindAlone(u, i, x, locked);
    u := ServeAlone(u, i, true, locked);
  }

  /** From the lock (or its failure) to the decision to remove, by the only listener on the path. */
  lemma CheckAlone(s: State, i: nat, x: Ino, whole: bool, lock: LockStep, locked: bool) returns (u: State)
    requires Reachable(s, locked) && s.flock == None && i < |s.insts|
    requires s.insts[i].pc == StopLock(whole) && s.insts[i].owner == Known && s.insts[i].ino == x
    requires s.path == Some(x) && s.live == map[x := i]
    requires lock != Release && (lock == Fail ==> !locked)
    ensures Reachable(u, locked)
    ensures u == s.(flock := if lock == Take then Some(i) else None,
                    insts := s.insts[i := s.insts[i].(pc := StopClear(whole, true, Known))])
  {
    hide Reachable;
    u := Step(s, Locking(i, lock), locked);
    u := Step(u, Stopping(i, Decide), locked);
    u := Step(u, Stopping(i, Stat(true)), locked);
    u := Step(u, Stopping(i, Scan(Some([x]))), locked);
  }

  /** From the decision to remove to the unlink. */
  lemma CloseAlone(s: State, i: nat, whole: bool, basis: Owner, locked: bool) returns (u: State)
    requires Reachable(s, locked) && i < |s.insts| && s.insts[i].pc == StopClear(whole, true, basis)
    ensures Reachable(u, locked)
    ensures u == Closed(s, s.insts[i], false).(insts := s.insts[i :=
                    s.insts[i].(pc := StopUnlink(whole, basis), owner := NoOwner, ino := 0, serving := None)])
  {
    hide Reachable;
    u := Step(s, Stopping(i, ClearAfter), locked);
    u := Step(u, Stopping(i, CloseServer(false)), locked);
  }

  /** From the unlink to the end of the locked section. */
  lemma UnlinkAlone(s: State, i: nat, whole: bool, basis: Owner, locked: bool) returns (u: State)
    requires Reachable(s, locked) && i < |s.insts| && s.insts[i].pc == StopUnlink(whole, basis) && s.flock == Some(i)
    ensures Reachable(u, locked)
    ensures u == s.(path := None, flock := None, insts := s.insts[i :=
                    if whole then s.insts[i].(pc := StopDelete) else s.insts[i].(pc := Idle, last := RegisterFailed)])
  {
    hide Reachable;
    u := Step(s, Stopping(i, Unlink(true)), locked);
    u := Step(u, Locking(i, Release), locked);
  }

  /** The whole locked section of a stop, by the only listener on the path. */
  lemma RemoveAlone(s: State, i: nat, x: Ino, whole: bool, locked: bool) returns (u: State)
    requires Reachable(s, locked) && s.flock == None && i < |s.insts|
    requires s.insts[i].pc == StopLock(whole) && s.insts[i].owner == Known && s.insts[i].ino == x
    requires s.insts[i].serving == Some(x) && s.path == Some(x) && s.live == map[x := i]
    ensures Reachable(u, locked)
    ensures u.path == None && u.flock == None && u.live == map[] && u.used == s.used
    ensures
      var t := s.insts[i].(owner := NoOwner, ino := 0, serving := None);
      u.insts == s.insts[i := if whole then t.(pc := StopDelete) else t.(pc := Idle, last := RegisterFailed)]
  {
    hide Reachable;
    u := CheckAlone(s, i, x, whole, Take, locked);
    var v := CloseAlone(u, i, whole, Known, locked);
    assert v.insts[i].pc == StopUnlink(whole, Known);
    u := UnlinkAlone(v, i, whole, Known, locked);
  }

  /** A stop that nobody disturbs, of the only listener on the path, leaves the path absent. */
  lemma StopAlone(s: State, i: nat, x: Ino, locked: bool) returns (u: State)
    requires Reachable(s, locked) && s.flock == None && i < |s.insts|
    requires s.insts[i].pc == Idle && s.insts[i].hasServer && s.insts[i].owner == Known
    requires s.insts[i].ino == x && s.insts[i].serving == Some(x)
    requires s.path == Some(x) && s.live == map[x := i]
    ensures Reachable(u, locked)
    ensures u.path == None && u.live == map[] && u.flock == None
    ensures |u.insts| == |s.insts| && u.insts[i].pc == Idle && !u.insts[i].hasServer
  {
    hide Reachable;
    u := Step(s, Begin(i, StopOp), locked);
    u := RemoveAlone(u, i, x, true, locked);
    u := Step(u, Stopping(i, Delete), locked);
  }

  ghost function Fresh(): Inst {
    Inst(Idle, NoOwner, 0, false, None, None, NotRunning)
  }

  /** Instance i is about to unlink the path while it names the live listener of another instance. */
  ghost predicate AboutToUnlinkAnothers(s: State, i: nat) {
    && i < |s.insts| && s.insts[i].pc.StopUnlink?
    && s.path.Some? && s.path.value in s.live && s.live[s.path.value] != i
  }

  /**
   A stop without an owner does unlink the socket of another instance, all locks being taken: instance 0
   fails to listen and keeps a server without an owner; instance 1 starts and serves; instance 0 is stopped.
   */
  lemma UnownedStopUnlinksReplacement() returns (s: State)
    ensures Reachable(s, true) && AboutToUnlinkAnothers(s, 0) && s.insts[0].last == ListenFailed
  {
    hide Reachable;
    s := State(None, false, map[], {}, {}, None, [Fresh(), Fresh()]);
    InitReachable(s, true);
    s := ReclaimAlone(s, 0, true);
    s := Step(s, Starting(0, Listen(None)), true);
    s := Step(s, Locking(0, Release), true);
    s := StartAlone(s, 1, 7, true);
    s := Step(s, Begin(0, StopOp), true);
    s := Step(s, Locking(0, Take), true);
    s := Step(s, Stopping(0, Decide), true);
    s := CloseAlone(s, 0, true, NoOwner, true);
  }

  /** A failed registration leaves a server without an owner and the path absent. */
  lemma FailedRegistrationLeavesNoOwner(s: State, i: nat, x: Ino) returns (u: State)
    requires Reachable(s, true) && s.flock == None && i < |s.insts| && s.insts[i].pc == Idle
    requires x !in s.used && s.live == map[]
    ensures Reachable(u, true)
    ensures u.insts == s.insts[i := s.insts[i].(owner := NoOwner, ino := 0, hasServer := true, sock := None,
                                                serving := None, last := RegisterFailed)]
    ensures u.flock == None && u.live == map[] && u.path == None && u.used == s.used + {x}
  {
    hide Reachable;
    u := ReclaimAlone(s, i, true);
    u := BindAlone(u, i, x, true);
    u := ServeAlone(u, i, false, true);
    u := RemoveAlone(u, i, x, false, true);
  }

  /**
   So does a stop after a failed registration: instance 0 fails to register and keeps a server without an
   owner; a replacement starts and serves; instance 0 is stopped.
   */
  lemma StopAfterFailedRegistrationUnlinksReplacement() returns (s: State)
    ensures Reachable(s, true) && AboutToUnlinkAnothers(s, 0) && s.insts[0].last == RegisterFailed
  {
    hide Reachable;
    s := State(None, false, map[], {}, {}, None, [Fresh(), Fresh()]);
    InitReachable(s, true);
    s := FailedRegistrationLeavesNoOwner(s, 0, 7);
    s := StartAlone(s, 1, 8, true);
    s := Step(s, Begin(0, StopOp), true);
    s := Step(s, Locking(0, Take), true);
    s := Step(s, Stopping(0, Decide), true);
    s := CloseAlone(s, 0, true, NoOwner, true);
  }

  /**
   Without the lock a Known owner is not safe either: instance 0 checks its ownership unlocked,
   instance 1 reclaims and binds the path, and instance 0 unlinks.
   */
  lemma UnlockedStopUnlinksReplacement() returns (s: State)
    ensures Reachable(s, false) && AboutToUnlinkAnothers(s, 0) && s.insts[0].pc.basis == Known
  {
    hide Reachable;
    s := State(None, false, map[], {}, {}, None, [Fresh(), Fresh()]);
    InitReachable(s, false);
    s := StartAlone(s, 0, 7, false);
    s := Step(s, Begin(0, StopOp), false);
    s := CheckAlone(s, 0, 7, true, Fail, false);
    s := CloseAlone(s, 0, true, Known, false);
    s := StartAlone(s, 1, 8, false);
  }
}
