/**
 The coalescing update notification (pkg/resources/server.go): UpdateDevices changes the inventory under
 the mutex and then puts a token into a one-slot channel without blocking; ListAndWatch streams take the
 token and send the inventory, and a stream whose send fails puts the token back before it closes.

 A state machine over any number of updaters and streams, whose steps interleave freely. T is whatever a
 stream sends.
 */
module UpdateNotification {
  import opened Wrappers

  /**
   Where a stream's goroutine is. While Sending it holds the read lock, and snapshot is the inventory it
   is sending; initial tells the first send from those after a token.
   */
  datatype Pc<T> =
    | NotOpened
    | Ready(initial: bool)
    | Sending(initial: bool, snapshot: T)
    | WritingCdi(initial: bool)
    | Waiting
    | Reraising
    | Closed

  /** sent: the last inventory the stream has sent. */
  datatype Stream<T> = Stream(pc: Pc<T>, sent: Option<T>)

  /**
   owes[u]: updater u has changed the inventory and unlocked, and not yet notified.
   changed: whether the inventory has changed at all.
   */
  datatype State<T> = State(inventory: T, changed: bool, token: bool, owes: seq<bool>, streams: seq<Stream<T>>)

  datatype Action<T> =
    | Update(u: nat, next: T)
    | Notify(u: nat)
    | Open(i: nat)
    | Lock(i: nat)
    | Send(i: nat, ok: bool)
    | Cdi(i: nat, ok: bool)
    | Consume(i: nat)
    | Reraise(i: nat)
    | Done(i: nat)

  ghost predicate Init<T>(s: State<T>) {
    && !s.changed && !s.token
    && (forall u :: 0 <= u < |s.owes| ==> !s.owes[u])
    && (forall i :: 0 <= i < |s.streams| ==> s.streams[i] == Stream(NotOpened, None))
  }

  ghost predicate Enabled<T>(s: State<T>, a: Action<T>) {
    match a
    // the write lock waits for the readers
    case Update(u, _) =>
      u < |s.owes| && !s.owes[u] && forall i :: 0 <= i < |s.streams| ==> !s.streams[i].pc.Sending?
    case Notify(u) => u < |s.owes| && s.owes[u]
    case Open(i) => i < |s.streams| && s.streams[i].pc.NotOpened?
    case Lock(i) => i < |s.streams| && s.streams[i].pc.Ready?
    case Send(i, _) => i < |s.streams| && s.streams[i].pc.Sending?
    case Cdi(i, _) => i < |s.streams| && s.streams[i].pc.WritingCdi?
    case Consume(i) => i < |s.streams| && s.streams[i].pc.Waiting? && s.token
    case Reraise(i) => i < |s.streams| && s.streams[i].pc.Reraising?
    case Done(i) => i < |s.streams| && s.streams[i].pc.Waiting?
  }

  ghost function Move<T>(s: State<T>, i: nat, pc: Pc<T>): State<T>
    requires i < |s.streams|
  {
    s.(streams := s.streams[i := s.streams[i].(pc := pc)])
  }

  ghost function Apply<T>(s: State<T>, a: Action<T>): State<T>
    requires Enabled(s, a)
  {
    match a
    case Update(u, next) => s.(inventory := next, changed := true, owes := s.owes[u := true])
    case Notify(u) => s.(token := true, owes := s.owes[u := false])
    case Open(i) => Move(s, i, Ready(true))
    case Lock(i) => Move(s, i, Sending(s.streams[i].pc.initial, s.inventory))
    case Send(i, ok) =>
      var Sending(initial, snapshot) := s.streams[i].pc;
      if ok then s.(streams := s.streams[i := Stream(WritingCdi(initial), Some(snapshot))])
      else Move(s, i, if initial then Closed else Reraising)
    case Cdi(i, ok) => Move(s, i, if ok then Waiting else Closed)
    case Consume(i) => Move(s.(token := false), i, Ready(false))
    case Reraise(i) => Move(s.(token := true), i, Closed)
    case Done(i) => Move(s, i, Closed)
  }

  ghost predicate Run<T>(states: seq<State<T>>, actions: seq<Action<T>>) {
    && |states| == |actions| + 1
    && forall k :: 0 <= k < |actions| ==>
         Enabled(states[k], actions[k]) && states[k + 1] == Apply(states[k], actions[k])
  }

  /**
   Stream live is the one whose sends succeed; every other stream may send its first inventory, but fails
   to send an update.
   */
  ghost predicate OneLive<T>(s: State<T>, a: Action<T>, live: nat) {
    a.Send? && a.i < |s.streams| && s.streams[a.i].pc.Sending? ==>
      (if a.i == live then a.ok else a.ok ==> s.streams[a.i].pc.initial)
  }

  ghost predicate LiveRun<T>(states: seq<State<T>>, actions: seq<Action<T>>, live: nat) {
    && Run(states, actions)
    && live < |states[0].streams|
    && forall k :: 0 <= k < |actions| ==> OneLive(states[k], actions[k], live)
  }

  // ---------- no lost update ----------

  /** The stream has consumed a token that it has neither honoured nor put back. */
  ghost predicate Holds<T>(pc: Pc<T>) {
    pc == Ready(false) || (pc.Sending? && !pc.initial) || pc.Reraising?
  }

  ghost predicate SomeHolds<T>(s: State<T>) {
    exists i :: 0 <= i < |s.streams| && Holds(s.streams[i].pc)
  }

  ghost predicate SomeOwes<T>(s: State<T>) {
    exists u :: 0 <= u < |s.owes| && s.owes[u]
  }

  /** A notification is on its way. */
  ghost predicate Pending<T>(s: State<T>) {
    s.token || SomeOwes(s) || SomeHolds(s)
  }

  ghost predicate BeforeFirstSend<T>(pc: Pc<T>) {
    pc.NotOpened? || pc == Ready(true) || (pc.Sending? && pc.initial)
  }

  /** Who is sending sends the present inventory; who fails an update send never comes to write CDI for one. */
  ghost predicate Inv<T>(s: State<T>, live: nat) {
    && live < |s.streams|
    && (forall i :: 0 <= i < |s.streams| && s.streams[i].pc.Sending? ==> s.streams[i].pc.snapshot == s.inventory)
    && (forall i :: 0 <= i < |s.streams| && i != live ==> s.streams[i].pc != WritingCdi(false))
    && (BeforeFirstSend(s.streams[live].pc) || s.streams[live].sent == Some(s.inventory) || Pending(s))
  }

  lemma OwesLasts<T>(s: State<T>, a: Action<T>)
    requires Enabled(s, a) && SomeOwes(s)
    ensures SomeOwes(Apply(s, a)) || Apply(s, a).token
  {
    var u :| 0 <= u < |s.owes| && s.owes[u];
    assert !a.Notify? ==> Apply(s, a).owes[u];
    if a.Notify? && a.u != u {
      assert Apply(s, a).owes[u];
    }
  }

  lemma HoldsLasts<T>(s: State<T>, a: Action<T>)
    requires Enabled(s, a) && SomeHolds(s) && !(a.Send? && a.ok)
    ensures SomeHolds(Apply(s, a)) || Apply(s, a).token
  {
    var i :| 0 <= i < |s.streams| && Holds(s.streams[i].pc);
    if !a.Reraise? {
      assert Holds(Apply(s, a).streams[i].pc);
    } else if a.i != i {
      assert Holds(Apply(s, a).streams[i].pc);
    }
  }

  /** A notification that is on its way stays so until some stream has sent the inventory. */
  lemma PendingLasts<T>(s: State<T>, a: Action<T>)
    requires Enabled(s, a) && Pending(s) && !(a.Send? && a.ok && !s.streams[a.i].pc.initial)
    ensures Pending(Apply(s, a))
  {
    var t := Apply(s, a);
    if SomeOwes(s) {
      OwesLasts(s, a);
    } else if SomeHolds(s) {
      if a.Send? && a.ok {
        var i :| 0 <= i < |s.streams| && Holds(s.streams[i].pc);
        assert Holds(t.streams[i].pc);
      } else {
        HoldsLasts(s, a);
      }
    } else if a.Consume? {
      assert Holds(t.streams[a.i].pc);
    }
  }

  lemma StepKeepsInv<T>(s: State<T>, a: Action<T>, live: nat)
    requires Inv(s, live) && Enabled(s, a) && OneLive(s, a, live)
    ensures Inv(Apply(s, a), live)
  {
    var t := Apply(s, a);
    if a.Update? {
      assert t.owes[a.u];
    } else if a.Send? && a.ok && !s.streams[a.i].pc.initial {
      assert t.streams[live].sent == Some(t.inventory);
    } else if Pending(s) {
      PendingLasts(s, a);
    }
  }

  lemma {:induction false} RunKeepsInv<T>(states: seq<State<T>>, actions: seq<Action<T>>, live: nat, k: nat)
    requires LiveRun(states, actions, live) && Inv(states[0], live) && k < |states|
    ensures Inv(states[k], live)
  {
    if k > 0 {
      RunKeepsInv(states, actions, live, k - 1);
      StepKeepsInv(states[k - 1], actions[k - 1], live);
    }
  }

  /**
   No lost update. In every state of every run in which one stream's sends succeed, that stream has last
   sent the present inventory, or has yet to send its first one, or a token is pending, or an updater is
   about to notify, or some stream holds a token it has neither honoured nor put back.
   */
  lemma NoLostUpdate<T>(states: seq<State<T>>, actions: seq<Action<T>>, live: nat, k: nat)
    requires LiveRun(states, actions, live) && Init(states[0]) && k < |states|
    ensures
      var s := states[k];
      && live < |s.streams|
      && (|| BeforeFirstSend(s.streams[live].pc)
          || s.streams[live].sent == Some(s.inventory)
          || s.token
          || (exists u :: 0 <= u < |s.owes| && s.owes[u])
          || (exists i :: 0 <= i < |s.streams| && Holds(s.streams[i].pc)))
  {
    RunKeepsInv(states, actions, live, k);
  }

  // ---------- without the hypothesis ----------

  ghost predicate SomeSent<T>(s: State<T>) {
    exists i :: 0 <= i < |s.streams| && s.streams[i].sent == Some(s.inventory)
  }

  ghost predicate WeakInv<T>(s: State<T>) {
    && (forall i :: 0 <= i < |s.streams| && s.streams[i].pc.Sending? ==> s.streams[i].pc.snapshot == s.inventory)
    && (s.changed ==> SomeSent(s) || Pending(s))
  }

  lemma StepKeepsWeakInv<T>(s: State<T>, a: Action<T>)
    requires WeakInv(s) && Enabled(s, a)
    ensures WeakInv(Apply(s, a))
  {
    var t := Apply(s, a);
    if a.Update? {
      assert t.owes[a.u];
    } else if a.Send? && a.ok {
      assert t.streams[a.i].sent == Some(t.inventory);
    } else if Pending(s) {
      PendingLasts(s, a);
    } else if SomeSent(s) {
      var i :| 0 <= i < |s.streams| && s.streams[i].sent == Some(s.inventory);
      assert t.streams[i].sent == Some(t.inventory);
    }
  }

  /**
   Whatever the sends do, in every run: once the inventory has changed, the present one has been sent on
   some stream or a notification of it is on its way.
   */
  lemma {:induction false} SomeStreamGetsEveryUpdate<T>(states: seq<State<T>>, actions: seq<Action<T>>, k: nat)
    requires Run(states, actions) && Init(states[0]) && k < |states|
    ensures WeakInv(states[k])
  {
    if k > 0 {
      SomeStreamGetsEveryUpdate(states, actions, k - 1);
      StepKeepsWeakInv(states[k - 1], actions[k - 1]);
    }
  }

  // ---------- convergence ----------

  /** How far a failing stream is from being closed; it never goes back. */
  ghost function Weight<T>(pc: Pc<T>): nat {
    match pc
    case NotOpened => 8
    case Ready(initial) => if initial then 7 else 3
    case Sending(initial, _) => if initial then 6 else 2
    case WritingCdi(_) => 5
    case Waiting => 4
    case Reraising => 1
    case Closed => 0
  }

  /** How far the live stream is from waiting in its select. */
  ghost function LiveWeight<T>(pc: Pc<T>): nat {
    match pc
    case NotOpened => 10
    case Ready(initial) => if initial then 9 else 4
    case Sending(initial, _) => if initial then 8 else 3
    case WritingCdi(initial) => if initial then 7 else 2
    case Waiting => 1
    case Reraising => 5
    case Closed => 0
  }

  ghost function Weights<T>(streams: seq<Stream<T>>, live: nat): nat {
    if streams == [] then 0
    else
      var last := |streams| - 1;
      Weights(streams[..last], live) + if last == live then 0 else Weight(streams[last].pc)
  }

  ghost function Owed(owes: seq<bool>): nat {
    if owes == [] then 0 else Owed(owes[..|owes| - 1]) + if owes[|owes| - 1] then 1 else 0
  }

  /** A bound on the steps that are left once the inventory no longer changes. */
  ghost function Measure<T>(s: State<T>, live: nat): nat
    requires live < |s.streams|
  {
    5 * (Weights(s.streams, live) + Owed(s.owes))
    + TokenWeight(s) + LiveWeight(s.streams[live].pc)
  }

  lemma {:induction false} WeightsUpdate<T>(streams: seq<Stream<T>>, live: nat, i: nat, t: Stream<T>)
    requires i < |streams|
    ensures Weights(streams[i := t], live)
         == Weights(streams, live) + if i == live then 0 else Weight(t.pc) - Weight(streams[i].pc)
  {
    var last := |streams| - 1;
    if i == last {
      assert streams[i := t][..last] == streams[..last];
    } else {
      WeightsUpdate(streams[..last], live, i, t);
      assert streams[i := t][..last] == streams[..last][i := t];
    }
  }

  lemma {:induction false} OwedUpdate(owes: seq<bool>, u: nat, b: bool)
    requires u < |owes|
    ensures Owed(owes[u := b]) == Owed(owes) + (if b then 1 else 0) - (if owes[u] then 1 else 0)
  {
    var last := |owes| - 1;
    if u == last {
      assert owes[u := b][..last] == owes[..last];
    } else {
      OwedUpdate(owes[..last], u, b);
      assert owes[u := b][..last] == owes[..last][u := b];
    }
  }

  ghost function TokenWeight<T>(s: State<T>): nat {
    if s.token then 4 else 0
  }

  /** A step of a stream moves only that stream, and makes its weight, with that of the token, smaller. */
  lemma StreamStepDecreases<T>(s: State<T>, a: Action<T>, live: nat)
    requires Inv(s, live) && Enabled(s, a) && OneLive(s, a, live) && !a.Update? && !a.Notify?
    ensures
      var t := Apply(s, a);
      && |t.streams| == |s.streams| && t.streams == s.streams[a.i := t.streams[a.i]] && t.owes == s.owes
      && if a.i == live then
           LiveWeight(t.streams[live].pc) + TokenWeight(t) < LiveWeight(s.streams[live].pc) + TokenWeight(s)
         else
           5 * Weight(t.streams[a.i].pc) + TokenWeight(t) < 5 * Weight(s.streams[a.i].pc) + TokenWeight(s)
  {
    assert Apply(s, a).streams == s.streams[a.i := Apply(s, a).streams[a.i]];
  }

  /** Every step other than an update makes the measure smaller. */
  lemma StepDecreases<T>(s: State<T>, a: Action<T>, live: nat)
    requires Inv(s, live) && Enabled(s, a) && OneLive(s, a, live) && !a.Update?
    ensures live < |Apply(s, a).streams| && Measure(Apply(s, a), live) < Measure(s, live)
  {
    var t := Apply(s, a);
    if a.Notify? {
      OwedUpdate(s.owes, a.u, false);
    } else {
      StreamStepDecreases(s, a, live);
      hide Apply, Weight, LiveWeight;
      WeightsUpdate(s.streams, live, a.i, t.streams[a.i]);
    }
  }

  /** After the last update, a run is over within as many steps as the measure says. */
  lemma {:induction false} RunIsBounded<T>(states: seq<State<T>>, actions: seq<Action<T>>, live: nat, from: nat, k: nat)
    requires LiveRun(states, actions, live) && Inv(states[0], live) && from <= k < |states|
    requires forall j :: from <= j < k ==> !actions[j].Update?
    ensures Inv(states[from], live) && Inv(states[k], live)
    ensures k - from + Measure(states[k], live) <= Measure(states[from], live)
  {
    RunKeepsInv(states, actions, live, from);
    if k > from {
      RunIsBounded(states, actions, live, from, k - 1);
      StepDecreases(states[k - 1], actions[k - 1], live);
      RunKeepsInv(states, actions, live, k);
    }
  }

  /** Nothing is left to do for a notification: only a new update, a new stream or the end of one can happen. */
  ghost predicate Quiet<T(!new)>(s: State<T>) {
    forall a: Action<T> :: Enabled(s, a) ==> a.Update? || a.Open? || a.Done?
  }

  /**
   Convergence. After the last update, the notification comes to rest within a bounded number of steps,
   whatever the interleaving; and when it rests, the live stream, waiting in its select, has sent the
   present inventory.
   */
  lemma Converges<T(!new)>(states: seq<State<T>>, actions: seq<Action<T>>, live: nat, from: nat, k: nat)
    requires LiveRun(states, actions, live) && Init(states[0]) && from <= k < |states|
    requires forall j :: from <= j < k ==> !actions[j].Update?
    ensures live < |states[from].streams| && live < |states[k].streams|
    ensures k - from <= Measure(states[from], live)
    ensures Quiet(states[k]) && states[k].streams[live].pc.Waiting? ==>
              states[k].streams[live].sent == Some(states[k].inventory)
  {
    RunIsBounded(states, actions, live, from, k);
    var s := states[k];
    if Quiet(s) && s.streams[live].pc.Waiting? {
      assert !Enabled(s, Consume(live));
      forall u | 0 <= u < |s.owes|
        ensures !s.owes[u]
      {
        assert !Enabled(s, Notify(u));
      }
      forall i | 0 <= i < |s.streams|
        ensures !Holds(s.streams[i].pc)
      {
        assert !Enabled(s, Lock(i)) && !Enabled(s, Send(i, true)) && !Enabled(s, Reraise(i));
      }
    }
  }

  // ---------- when an update is lost ----------

  /** The action sends an update, as opposed to a first inventory. */
  ghost predicate SendsUpdate<T>(s: State<T>, a: Action<T>) {
    a.Send? && a.ok && a.i < |s.streams| && s.streams[a.i].pc.Sending? && !s.streams[a.i].pc.initial
  }

  /** Stream i is open, past its first send, without the present inventory and with nothing on its way. */
  ghost predicate Starved<T>(s: State<T>, i: nat) {
    && i < |s.streams|
    && !BeforeFirstSend(s.streams[i].pc) && !s.streams[i].pc.Closed?
    && s.streams[i].sent != Some(s.inventory)
    && !Pending(s)
  }

  /** Some stream other than i has sent the present inventory. */
  ghost predicate ServedElsewhere<T>(s: State<T>, i: nat) {
    exists j :: 0 <= j < |s.streams| && j != i && s.streams[j].sent == Some(s.inventory)
  }

  ghost predicate StarvedInv<T>(s: State<T>, i: nat) {
    && (forall j :: 0 <= j < |s.streams| && s.streams[j].pc.Sending? ==> s.streams[j].pc.snapshot == s.inventory)
    && (Starved(s, i) ==> ServedElsewhere(s, i))
  }

  /** A step starves a stream only by sending an update on another one. */
  lemma StepStarves<T>(s: State<T>, a: Action<T>, i: nat)
    requires Enabled(s, a) && StarvedInv(s, i)
    ensures StarvedInv(Apply(s, a), i)
    ensures Starved(Apply(s, a), i) && !Starved(s, i) ==> SendsUpdate(s, a) && a.i != i
  {
    var t := Apply(s, a);
    if a.Update? {
      assert t.owes[a.u];
    } else if SendsUpdate(s, a) {
      assert t.streams[a.i].sent == Some(t.inventory);
    } else if Pending(s) {
      PendingLasts(s, a);
    } else if Starved(s, i) {
      var j :| 0 <= j < |s.streams| && j != i && s.streams[j].sent == Some(s.inventory);
      assert t.streams[j].sent == Some(t.inventory);
    }
  }

  /**
   Whatever the sends do: a stream that is left with an old inventory and nothing on its way has been starved
   by another one, which has sent the present inventory, and an update in this run.
   */
  lemma {:induction false} StarvedByAnother<T>(states: seq<State<T>>, actions: seq<Action<T>>, k: nat, i: nat)
    requires Run(states, actions) && Init(states[0]) && k < |states|
    ensures StarvedInv(states[k], i)
    ensures Starved(states[k], i) ==>
              exists m :: 0 <= m < k && SendsUpdate(states[m], actions[m]) && actions[m].i != i
  {
    if k > 0 {
      StarvedByAnother(states, actions, k - 1, i);
      StepStarves(states[k - 1], actions[k - 1], i);
    }
  }

  /** Only these streams send updates. */
  ghost predicate OnlyThese<T>(states: seq<State<T>>, actions: seq<Action<T>>, may: set<nat>)
    requires Run(states, actions)
  {
    forall k :: 0 <= k < |actions| && SendsUpdate(states[k], actions[k]) ==> actions[k].i in may
  }

  /** A run with n streams, of which only these send updates. */
  ghost predicate RunOf<T>(states: seq<State<T>>, actions: seq<Action<T>>, n: nat, may: set<nat>) {
    Run(states, actions) && Init(states[0]) && |states[0].streams| == n && OnlyThese(states, actions, may)
  }

  /** One of these streams is starved in some run with n streams in which only they send updates. */
  ghost predicate CanBeStarved<T(!new)>(n: nat, may: set<nat>, i: nat) {
    exists states: seq<State<T>>, actions: seq<Action<T>>, k: nat ::
      RunOf(states, actions, n, may) && k < |states| && Starved(states[k], i)
  }

  /**
   The exact condition. Among any number of streams, those whose update sends succeed never lose an update,
   whatever the run, if and only if there is at most one of them.
   */
  lemma NoUpdateLostIff<T(!new)>(n: nat, may: set<nat>, before: T, after: T)
    requires before != after
    ensures (forall i :: 0 <= i < n && i in may ==> !CanBeStarved<T>(n, may, i))
            <==> forall i, j :: 0 <= i < n && 0 <= j < n && i in may && j in may ==> i == j
  {
    forall i, j | 0 <= i < n && 0 <= j < n && i in may && j in may && i != j
      ensures CanBeStarved<T>(n, may, i)
    {
      var states, actions := StarvingRun(n, may, i, j, before, after);
      assert RunOf(states, actions, n, may) && Starved(states[|actions|], i);
    }
    if forall i, j :: 0 <= i < n && 0 <= j < n && i in may && j in may ==> i == j {
      forall i | 0 <= i < n && i in may
        ensures !CanBeStarved<T>(n, may, i)
      {
        LoneSenderIsNotStarved<T>(n, may, i);
      }
    }
  }

  lemma {:induction false} StreamsStay<T>(states: seq<State<T>>, actions: seq<Action<T>>, k: nat)
    requires Run(states, actions) && k < |states|
    ensures |states[k].streams| == |states[0].streams|
  {
    if k > 0 {
      StreamsStay(states, actions, k - 1);
    }
  }

  lemma LoneSenderIsNotStarved<T(!new)>(n: nat, may: set<nat>, i: nat)
    requires forall j :: 0 <= j < n && j in may ==> j == i
    ensures !CanBeStarved<T>(n, may, i)
  {
    forall states: seq<State<T>>, actions: seq<Action<T>>, k: nat | RunOf(states, actions, n, may) && k < |states|
      ensures !Starved(states[k], i)
    {
      StarvedByAnother(states, actions, k, i);
      forall m | 0 <= m < k && SendsUpdate(states[m], actions[m])
        ensures actions[m].i == i
      {
        StreamsStay(states, actions, m);
      }
    }
  }

  /** Streams i and j open; an update is notified, and j takes the token and sends it: nothing is left for i. */
  lemma StarvingRun<T>(n: nat, may: set<nat>, i: nat, j: nat, before: T, after: T)
      returns (states: seq<State<T>>, actions: seq<Action<T>>)
    requires before != after && i < n && j < n && i != j && j in may
    ensures RunOf(states, actions, n, may) && Starved(states[|actions|], i)
  {
    var unopened: Stream<T> := Stream(NotOpened, None);
    states, actions := [State(before, false, false, [false], seq(n, _ => unopened))], [];
    states, actions := OpenStream(states, actions, i, n, may);
    states, actions := OpenStream(states, actions, j, n, may);
    states, actions := Append(states, actions, Update(0, after), n, may);
    states, actions := Append(states, actions, Notify(0), n, may);
    states, actions := ServeStream(states, actions, j, n, may);
  }

  lemma Append<T>(states: seq<State<T>>, actions: seq<Action<T>>, a: Action<T>, n: nat, may: set<nat>)
      returns (states': seq<State<T>>, actions': seq<Action<T>>)
    requires RunOf(states, actions, n, may) && Enabled(states[|actions|], a)
    requires SendsUpdate(states[|actions|], a) ==> a.i in may
    ensures RunOf(states', actions', n, may) && |actions'| == |actions| + 1
    ensures states'[|actions'|] == Apply(states[|actions|], a)
  {
    states', actions' := states + [Apply(states[|actions|], a)], actions + [a];
    forall k | 0 <= k < |actions'|
      ensures Enabled(states'[k], actions'[k]) && states'[k + 1] == Apply(states'[k], actions'[k])
      ensures SendsUpdate(states'[k], actions'[k]) ==> actions'[k].i in may
    {
      if k < |actions| {
        assert states'[k] == states[k] && states'[k + 1] == states[k + 1] && actions'[k] == actions[k];
      }
    }
  }

  /** A stream opens and sends its first inventory. */
  lemma OpenStream<T>(states: seq<State<T>>, actions: seq<Action<T>>, i: nat, n: nat, may: set<nat>)
      returns (states': seq<State<T>>, actions': seq<Action<T>>)
    requires RunOf(states, actions, n, may) && i < |states[|actions|].streams|
    requires states[|actions|].streams[i].pc.NotOpened?
    ensures RunOf(states', actions', n, may)
    ensures
      var s, t := states[|actions|], states'[|actions'|];
      t == s.(streams := s.streams[i := Stream(Waiting, Some(s.inventory))])
  {
    states', actions' := Append(states, actions, Open(i), n, may);
    states', actions' := Append(states', actions', Lock(i), n, may);
    states', actions' := Append(states', actions', Send(i, true), n, may);
    states', actions' := Append(states', actions', Cdi(i, true), n, may);
  }

  /** A waiting stream takes the token and sends the update. */
  lemma ServeStream<T>(states: seq<State<T>>, actions: seq<Action<T>>, j: nat, n: nat, may: set<nat>)
      returns (states': seq<State<T>>, actions': seq<Action<T>>)
    requires RunOf(states, actions, n, may) && j < |states[|actions|].streams| && j in may
    requires states[|actions|].streams[j].pc == Waiting && states[|actions|].token
    ensures RunOf(states', actions', n, may)
    ensures
      var s, t := states[|actions|], states'[|actions'|];
      t == s.(token := false, streams := s.streams[j := Stream(Waiting, Some(s.inventory))])
  {
    states', actions' := Append(states, actions, Consume(j), n, may);
    states', actions' := Append(states', actions', Lock(j), n, may);
    states', actions' := Append(states', actions', Send(j, true), n, may);
    states', actions' := Append(states', actions', Cdi(j, true), n, may);
  }
}
