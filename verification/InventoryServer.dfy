/**
 The half of a resource server that keeps and advertises its inventory, as its methods perform it
 (pkg/resources/server.go). Between any two steps of a method other goroutines may act: streams of the kubelet,
 and for a stream the one goroutine that updates the inventory. A ghost history records the steps of all of them
 in the UpdateNotification machine, so that what is proved of the machine's runs holds here.
 */
module InventoryServer {
  import opened Configuration
  import opened PluginTypes
  import opened RdmaDevices
  import opened ResourceInventory
  import opened Text
  import opened Wrappers
  import FilePaths
  import UN = UpdateNotification

  type Step = UN.Action<Inventory>

  datatype ServerError = NegativeMax | EmptyPrefix

  datatype ContainerResponse = ContainerResponse(devices: seq<DeviceSpec>, annotations: Option<string>)

  /** How a stream stands: still waiting for notifications, or why it was closed. */
  datatype StreamOutcome = Watching | Finished | SendFailed | CdiFailed

  /** What the select of a stream comes upon. */
  datatype Event = Nothing | Token | Done

  /**
   One round of a stream's loop. done: the stream's context is done; doneFirst: the select prefers that when there is
   a token as well; sendOk and cdiOk: whether the send and the CDI spec succeed.
   */
  datatype Round = Round(done: bool, doneFirst: bool, sendOk: bool, cdiOk: bool)

  /** The select takes what there is. */
  function EventAt(round: Round, token: bool): (event: Event)
    ensures event == Nothing <==> !round.done && !token
    ensures event == Done ==> round.done && (token ==> round.doneFirst)
    ensures event == Token ==> token && (round.done ==> !round.doneFirst)
  {
    if round.done && (round.doneFirst || !token) then Done else if token then Token else Nothing
  }

  ghost function SendOutcome(useCdi: bool, sendOk: bool, cdiOk: bool): StreamOutcome {
    if !sendOk then SendFailed else if useCdi && !cdiOk then CdiFailed else Watching
  }

  /** How a round ends that comes upon this event. */
  ghost function RoundOutcome(useCdi: bool, round: Round, event: Event): StreamOutcome {
    match event
    case Nothing => Watching
    case Done => Finished
    case Token => SendOutcome(useCdi, round.sendOk, round.cdiOk)
  }

  /** What a stream does before its loop. */
  ghost function FirstTrace(i: nat, outcome: StreamOutcome): seq<Step> {
    [UN.Open(i), UN.Lock(i)]
    + if outcome == SendFailed then [UN.Send(i, false)] else [UN.Send(i, true), UN.Cdi(i, outcome == Watching)]
  }

  /** What a stream does in a round. */
  ghost function RoundTrace(i: nat, event: Event, outcome: StreamOutcome): seq<Step> {
    match event
    case Nothing => []
    case Done => [UN.Done(i)]
    case Token =>
      [UN.Consume(i), UN.Lock(i)]
      + if outcome == SendFailed then [UN.Send(i, false), UN.Reraise(i)]
        else [UN.Send(i, true), UN.Cdi(i, outcome == Watching)]
  }

  /** What a stream does in rounds, given for each of them whether there was a token. */
  ghost function RoundsTrace(i: nat, useCdi: bool, rounds: seq<Round>, tokens: seq<bool>): seq<Step>
    requires |tokens| <= |rounds|
  {
    if tokens == [] then []
    else
      var last := |tokens| - 1;
      var event := EventAt(rounds[last], tokens[last]);
      RoundsTrace(i, useCdi, rounds, tokens[..last]) + RoundTrace(i, event, RoundOutcome(useCdi, rounds[last], event))
  }

  /** How many lists are sent in these rounds. */
  ghost function SendCount(rounds: seq<Round>, tokens: seq<bool>): nat
    requires |tokens| <= |rounds|
  {
    if tokens == [] then 0
    else
      var last := |tokens| - 1;
      SendCount(rounds, tokens[..last])
      + if EventAt(rounds[last], tokens[last]) == Token && rounds[last].sendOk then 1 else 0
  }

  /** Who takes a step. */
  datatype Party = Updater | Stream(i: nat)

  const SOCKET_SUFFIX := ".sock"

  ghost predicate By(a: Step, who: Party) {
    if a.Update? || a.Notify? then who == Updater else who == Stream(a.i)
  }

  /** The steps of one party. */
  ghost function PartOf(actions: seq<Step>, who: Party): seq<Step> {
    if actions == [] then []
    else
      var last := actions[|actions| - 1];
      PartOf(actions[..|actions| - 1], who) + if By(last, who) then [last] else []
  }

  lemma NoRounds(i: nat, useCdi: bool, rounds: seq<Round>)
    ensures RoundsTrace(i, useCdi, rounds, []) == [] && SendCount(rounds, []) == 0
    ensures FirstTrace(i, Watching) + [] == FirstTrace(i, Watching)
  {
  }

  lemma OneMoreRound(i: nat, useCdi: bool, rounds: seq<Round>, tokens: seq<bool>, token: bool)
    requires |tokens| < |rounds|
    ensures
      var round := rounds[|tokens|];
      var event := EventAt(round, token);
      && RoundsTrace(i, useCdi, rounds, tokens + [token])
         == RoundsTrace(i, useCdi, rounds, tokens) + RoundTrace(i, event, RoundOutcome(useCdi, round, event))
      && SendCount(rounds, tokens + [token])
         == SendCount(rounds, tokens) + if event == Token && round.sendOk then 1 else 0
  {
    assert (tokens + [token])[..|tokens|] == tokens;
  }

  lemma RunSnoc(states: seq<UN.State<Inventory>>, actions: seq<Step>, a: Step)
    requires UN.Run(states, actions) && UN.Enabled(states[|actions|], a)
    ensures UN.Run(states + [UN.Apply(states[|actions|], a)], actions + [a])
  {
    var states', actions' := states + [UN.Apply(states[|actions|], a)], actions + [a];
    hide UN.Apply, UN.Enabled, UN.Init;
    forall k | 0 <= k < |actions'|
      ensures UN.Enabled(states'[k], actions'[k]) && states'[k + 1] == UN.Apply(states'[k], actions'[k])
    {
      if k < |actions| {
        assert states'[k] == states[k] && states'[k + 1] == states[k + 1] && actions'[k] == actions[k];
      }
    }
  }

  lemma OwesStay(s: UN.State<Inventory>, a: Step)
    requires UN.Enabled(s, a)
    ensures |UN.Apply(s, a).owes| == |s.owes|
  {
  }

  lemma PartOfSnoc(actions: seq<Step>, a: Step)
    ensures forall who :: PartOf(actions + [a], who) == PartOf(actions, who) + if By(a, who) then [a] else []
  {
    assert (actions + [a])[..|actions|] == actions;
  }

  /** What the other parties cannot change: for a stream its own state, and what it is just sending. */
  ghost predicate SameFor(s: UN.State<Inventory>, u: UN.State<Inventory>, who: Party) {
    && |u.streams| == |s.streams| && |u.owes| == |s.owes|
    && match who
       case Updater => u.inventory == s.inventory && u.owes == s.owes
       case Stream(i) =>
         i < |s.streams| ==> u.streams[i] == s.streams[i] && (s.streams[i].pc.Sending? ==> u.inventory == s.inventory)
  }

  /** Indeed none of their steps does: the contract of ResourceServer.Others leaves out nothing that can happen. */
  lemma OthersKeepMine(s: UN.State<Inventory>, a: Step, who: Party)
    requires UN.Enabled(s, a) && !By(a, who)
    ensures SameFor(s, UN.Apply(s, a), who)
  {
  }

  class ResourceServer {
    const resourceName: string
    const socketName: string
    const socketPath: string
    const rdmaHcaMax: nat
    const useCdi: bool
    const pciDevices: seq<PciNetDevice>
    var devs: seq<Device>
    var deviceSpec: seq<DeviceSpec>
    // whether the one-slot channel holds its token
    var updateResource: bool
    ghost var states: seq<UN.State<Inventory>>
    ghost var actions: seq<Step>

    /** newResourceServer once its configuration has passed. */
    constructor (config: UserConfig, devices: seq<PciNetDevice>, sockDir: string, useCdi: bool, ghost streams: nat)
      requires config.rdmaHcaMax >= 0
      ensures Valid() && View() == Built(config.rdmaHcaMax, AllSpecs(devices)) && !updateResource
      ensures rdmaHcaMax == config.rdmaHcaMax && this.useCdi == useCdi && pciDevices == devices
      ensures resourceName == config.resourcePrefix + "/" + config.resourceName
      ensures socketName == config.resourceName + SOCKET_SUFFIX
      ensures socketPath == FilePaths.Join(sockDir, socketName)
      ensures |Now().streams| == streams && actions == []
    {
      hide AllSpecs, FilePaths.Join, NewDevices;
      var specs := GetDevicesSpec(devices);
      var units: seq<Device> := [];
      if |specs| > 0 {
        units := MakeDevices(config.rdmaHcaMax);
      }
      deviceSpec, devs, updateResource := specs, units, false;
      resourceName := config.resourcePrefix + "/" + config.resourceName;
      socketName := config.resourceName + SOCKET_SUFFIX;
      socketPath := FilePaths.Join(sockDir, config.resourceName + SOCKET_SUFFIX);
      rdmaHcaMax, this.useCdi, pciDevices := config.rdmaHcaMax, useCdi, devices;
      states := [UN.State(Inventory(specs, units), false, false, [false],
                          seq(streams, _ => UN.Stream(UN.NotOpened, None)))];
      actions := [];
    }

    ghost function View(): Inventory
      reads this
    {
      Inventory(deviceSpec, devs)
    }

    ghost predicate Recorded()
      reads this
    {
      UN.Run(states, actions) && UN.Init(states[0]) && |Now().owes| == 1
    }

    ghost function Now(): UN.State<Inventory>
      reads this
      requires |states| > 0
    {
      states[|states| - 1]
    }

    /** The fields are those of the machine's present state. */
    ghost predicate Tracked()
      reads this
    {
      && Recorded()
      && Consistent(View(), rdmaHcaMax)
      && Now().inventory == View() && Now().token == updateResource
    }

    /** And the updater is not about to notify. */
    ghost predicate Valid()
      reads this
    {
      Tracked() && !Now().owes[0]
    }

    /** The history has gone on from this one, by steps of others. */
    ghost predicate Meanwhile(states0: seq<UN.State<Inventory>>, actions0: seq<Step>, who: Party)
      reads this
    {
      && Extends(states0) && |Now().owes| == |states0[|states0| - 1].owes|
      && PartOf(actions, who) == PartOf(actions0, who)
      && SameFor(states0[|states0| - 1], Now(), who)
    }

    /** The history has gone on from this one. */
    ghost predicate Extends(states0: seq<UN.State<Inventory>>)
      reads this
    {
      states0 <= states && states0 != [] && |Now().streams| == |states0[|states0| - 1].streams|
    }

    /**
     What the other goroutines do meanwhile. The callers know no more than this contract, which admits any steps of
     the others (see OthersKeepMine); the body is the case in which there are none.
     */
    method Others(ghost who: Party)
      requires Tracked()
      modifies this
      ensures Tracked() && Meanwhile(old(states), old(actions), who)
    {
    }

    /** The write lock waits while the streams go on, until none of them holds the read lock. */
    method WaitForReaders()
      requires Valid()
      modifies this`updateResource, this`states, this`actions
      ensures Valid() && Meanwhile(old(states), old(actions), Updater)
      ensures forall j :: 0 <= j < |Now().streams| ==> !Now().streams[j].pc.Sending?
    {
      hide Consistent, PartOf;
      ghost var n := |Now().streams|;
      for j := 0 to n
        invariant Valid() && Meanwhile(old(states), old(actions), Updater) && |Now().streams| == n
        invariant forall k :: 0 <= k < j ==> !Now().streams[k].pc.Sending?
      {
        if Now().streams[j].pc.Sending? {
          Log(UN.Send(j, true));
        }
      }
    }

    ghost method Log(a: Step)
      requires Recorded() && UN.Enabled(Now(), a)
      modifies this`states, this`actions
      ensures Recorded() && actions == old(actions) + [a] && states == old(states) + [UN.Apply(old(Now()), a)]
      ensures forall who :: PartOf(actions, who) == PartOf(old(actions), who) + if By(a, who) then [a] else []
    {
      hide UN.Apply, UN.Enabled, UN.Init, PartOf;
      RunSnoc(states, actions, a);
      PartOfSnoc(actions, a);
      OwesStay(Now(), a);
      states := states + [UN.Apply(Now(), a)];
      actions := actions + [a];
    }

    /** What UpdateDevices does under the mutex; whether the devices have changed. */
    method ReplaceDevices(devices: seq<PciNetDevice>) returns (changed: bool)
      requires Valid() && forall j :: 0 <= j < |Now().streams| ==> !Now().streams[j].pc.Sending?
      modifies this`deviceSpec, this`devs, this`states, this`actions
      ensures changed <==> Changed(old(deviceSpec), AllSpecs(devices))
      ensures View() == Updated(old(View()), rdmaHcaMax, AllSpecs(devices)) && Consistent(View(), rdmaHcaMax)
      ensures Recorded() && Extends(old(states)) && Now().inventory == View() && Now().token == updateResource
      ensures if changed then Now() == UN.Apply(old(Now()), UN.Update(0, View())) else Now() == old(Now())
      ensures PartOf(actions, Updater)
              == PartOf(old(actions), Updater) + if changed then [UN.Update(0, View())] else []
    {
      hide Consistent, AllSpecs, Changed, PartOf;
      var specs := GetDevicesSpec(devices);
      UpdatedIsConsistent(View(), rdmaHcaMax, specs);
      changed := DevicesChanged(deviceSpec, specs);
      if !changed {
        return;
      }
      deviceSpec := specs;
      if |deviceSpec| == 0 {
        devs := [];
      } else if |devs| == 0 {
        devs := MakeDevices(rdmaHcaMax);
      }
      Log(UN.Update(0, View()));
    }

    /**
     Replaces the inventory, and tells the streams, when the devices have changed. Streams go on all the time,
     between the mutex and the notification too.
     */
    method UpdateDevices(devices: seq<PciNetDevice>)
      requires Valid()
      modifies this
      ensures Valid() && Extends(old(states))
      ensures View() == Updated(old(View()), rdmaHcaMax, AllSpecs(devices))
      ensures
        var changed := Changed(old(deviceSpec), AllSpecs(devices));
        && (changed ==> updateResource)
        && PartOf(actions, Updater)
           == PartOf(old(actions), Updater) + if changed then [UN.Update(0, View()), UN.Notify(0)] else []
    {
      hide AllSpecs, Changed, Updated, UN.Run, UN.Init;
      WaitForReaders();
      var changed := ReplaceDevices(devices);
      if changed {
        Others(Updater);
        NotifyUpdate(UN.Notify(0));
      }
    }

    /** Leaves a token in the channel, without waiting. */
    method NotifyUpdate(ghost a: Step)
      requires Recorded() && UN.Enabled(Now(), a) && (a.Notify? || a.Reraise?)
      modifies this`updateResource, this`states, this`actions
      ensures updateResource
      ensures Recorded() && states == old(states) + [UN.Apply(old(Now()), a)] && actions == old(actions) + [a]
      ensures forall who :: PartOf(actions, who) == PartOf(old(actions), who) + if By(a, who) then [a] else []
    {
      if !updateResource {
        updateResource := true;
      }
      Log(a);
    }

    /** Sends the units of the moment under the read lock; None when the send fails. */
    method SendDevices(ghost i: nat, ok: bool) returns (sent: Option<seq<Device>>)
      requires Tracked() && i < |Now().streams| && Now().streams[i].pc.Ready?
      modifies this
      ensures Tracked() && Extends(old(states))
      ensures sent.Some? <==> ok
      ensures PartOf(actions, Stream(i)) == PartOf(old(actions), Stream(i)) + [UN.Lock(i), UN.Send(i, ok)]
      ensures
        var initial, t := old(Now().streams[i].pc.initial), Now().streams[i];
        if sent.Some? then t.pc == UN.WritingCdi(initial) && t.sent.Some? && t.sent.value.devs == sent.value
        else t == old(Now().streams[i]).(pc := if initial then UN.Closed else UN.Reraising)
    {
      hide UN.Run, UN.Init, Consistent, PartOf, UN.Apply, UN.Enabled;
      var list := LockAndRead(i);
      Send(i, ok);
      return if ok then Some(list) else None;
    }

    method LockAndRead(ghost i: nat) returns (list: seq<Device>)
      requires Tracked() && i < |Now().streams| && Now().streams[i].pc.Ready?
      modifies this
      ensures Tracked() && Extends(old(states)) && list == devs
      ensures PartOf(actions, Stream(i)) == PartOf(old(actions), Stream(i)) + [UN.Lock(i)]
      ensures Now().streams[i] == old(Now().streams[i]).(pc := UN.Sending(old(Now().streams[i].pc.initial), View()))
    {
      hide Consistent, PartOf;
      Others(Stream(i));
      Log(UN.Lock(i));
      list := devs;
    }

    method Send(ghost i: nat, ok: bool)
      requires Tracked() && i < |Now().streams| && Now().streams[i].pc.Sending?
      modifies this
      ensures Tracked() && Extends(old(states))
      ensures PartOf(actions, Stream(i)) == PartOf(old(actions), Stream(i)) + [UN.Send(i, ok)]
      ensures
        var t := old(Now().streams[i]);
        Now().streams[i] == if ok then UN.Stream(UN.WritingCdi(t.pc.initial), Some(t.pc.snapshot))
                            else t.(pc := if t.pc.initial then UN.Closed else UN.Reraising)
    {
      hide Consistent, PartOf;
      Others(Stream(i));
      Log(UN.Send(i, ok));
    }

    /** updateCDISpec: it cannot fail without CDI. */
    method UpdateCDISpec(ghost i: nat, ok: bool) returns (done: bool)
      requires Tracked() && i < |Now().streams| && Now().streams[i].pc.WritingCdi?
      modifies this
      ensures Tracked() && Extends(old(states)) && done == (useCdi ==> ok)
      ensures PartOf(actions, Stream(i)) == PartOf(old(actions), Stream(i)) + [UN.Cdi(i, done)]
      ensures Now().streams[i] == old(Now().streams[i]).(pc := if done then UN.Waiting else UN.Closed)
    {
      Others(Stream(i));
      done := true;
      if useCdi {
        done := ok;
      }
      Log(UN.Cdi(i, done));
    }

    /** The stream has last sent these units. */
    ghost predicate HasSent(i: nat, units: seq<Device>)
      reads this
      requires |states| > 0 && i < |Now().streams|
    {
      Now().streams[i].sent.Some? && Now().streams[i].sent.value.devs == units
    }

    ghost method OpenStream(i: nat)
      requires Tracked() && i < |Now().streams| && Now().streams[i].pc.NotOpened?
      modifies this`states, this`actions
      ensures Tracked() && Extends(old(states))
      ensures PartOf(actions, Stream(i)) == PartOf(old(actions), Stream(i)) + [UN.Open(i)]
      ensures Now().streams[i] == old(Now().streams[i]).(pc := UN.Ready(true))
    {
      hide Consistent, PartOf;
      Log(UN.Open(i));
    }

    /** What ListAndWatch does before its loop. */
    method SendFirst(ghost i: nat, sendOk: bool, cdiOk: bool)
      returns (outcome: StreamOutcome, sent: Option<seq<Device>>)
      requires Tracked() && i < |Now().streams| && Now().streams[i].pc.NotOpened?
      modifies this
      ensures Tracked() && Extends(old(states))
      ensures (sent.Some? <==> sendOk) && outcome == SendOutcome(useCdi, sendOk, cdiOk)
      ensures PartOf(actions, Stream(i)) == PartOf(old(actions), Stream(i)) + FirstTrace(i, outcome)
      ensures Now().streams[i].pc == if outcome == Watching then UN.Waiting else UN.Closed
      ensures sent.Some? ==> HasSent(i, sent.value)
    {
      hide UN.Run, UN.Init, Consistent, PartOf, UN.Apply, UN.Enabled;
      OpenStream(i);
      sent := SendDevices(i, sendOk);
      if sent.None? {
        return SendFailed, sent;
      }
      var done := UpdateCDISpec(i, cdiOk);
      return if done then Watching else CdiFailed, sent;
    }

    /** The branch of its select that takes the token; a failed send leaves the token for the next stream. */
    method HandleNotification(ghost i: nat, sendOk: bool, cdiOk: bool)
      returns (outcome: StreamOutcome, sent: Option<seq<Device>>)
      requires Tracked() && i < |Now().streams| && Now().streams[i].pc.Waiting? && updateResource
      modifies this
      ensures Tracked() && Extends(old(states))
      ensures (sent.Some? <==> sendOk) && outcome == SendOutcome(useCdi, sendOk, cdiOk)
      ensures outcome == SendFailed ==> updateResource
      ensures Now().streams[i].pc == if outcome == Watching then UN.Waiting else UN.Closed
      ensures if sent.Some? then HasSent(i, sent.value) else Now().streams[i].sent == old(Now().streams[i].sent)
      ensures PartOf(actions, Stream(i)) == PartOf(old(actions), Stream(i)) + RoundTrace(i, Token, outcome)
    {
      hide UN.Run, UN.Init, Consistent, PartOf, UN.Apply, UN.Enabled;
      TakeToken(i);
      sent := SendDevices(i, sendOk);
      if sent.None? {
        PutTokenBack(i);
        return SendFailed, sent;
      }
      var done := UpdateCDISpec(i, cdiOk);
      return if done then Watching else CdiFailed, sent;
    }

    method TakeToken(ghost i: nat)
      requires Tracked() && i < |Now().streams| && Now().streams[i].pc.Waiting? && updateResource
      modifies this`updateResource, this`states, this`actions
      ensures Tracked() && Extends(old(states))
      ensures PartOf(actions, Stream(i)) == PartOf(old(actions), Stream(i)) + [UN.Consume(i)]
      ensures Now().streams[i] == old(Now().streams[i]).(pc := UN.Ready(false))
    {
      hide Consistent, PartOf;
      updateResource := false;
      Log(UN.Consume(i));
    }

    method PutTokenBack(ghost i: nat)
      requires Tracked() && i < |Now().streams| && Now().streams[i].pc.Reraising?
      modifies this
      ensures Tracked() && Extends(old(states)) && updateResource
      ensures PartOf(actions, Stream(i)) == PartOf(old(actions), Stream(i)) + [UN.Reraise(i)]
      ensures Now().streams[i] == old(Now().streams[i]).(pc := UN.Closed)
    {
      hide Consistent, PartOf;
      Others(Stream(i));
      NotifyUpdate(UN.Reraise(i));
    }

    ghost method CloseStream(i: nat)
      requires Tracked() && i < |Now().streams| && Now().streams[i].pc.Waiting?
      modifies this`states, this`actions
      ensures Tracked() && Extends(old(states))
      ensures PartOf(actions, Stream(i)) == PartOf(old(actions), Stream(i)) + [UN.Done(i)]
      ensures Now().streams[i] == old(Now().streams[i]).(pc := UN.Closed)
    {
      hide Consistent, PartOf;
      Log(UN.Done(i));
    }

    /**
     One round of its loop: the select waits while the others act, and then takes what there is. token says whether
     there was a token; where the round leaves it alone, it is still there.
     */
    method Meet(ghost i: nat, round: Round)
      returns (outcome: StreamOutcome, sent: Option<seq<Device>>, ghost token: bool)
      requires Tracked() && i < |Now().streams| && Now().streams[i].pc.Waiting?
      modifies this
      ensures Tracked() && Extends(old(states))
      ensures
        var event := EventAt(round, token);
        && (event != Token ==> (token <==> updateResource))
        && outcome == RoundOutcome(useCdi, round, event)
        && (sent.Some? <==> event == Token && round.sendOk)
        && PartOf(actions, Stream(i)) == PartOf(old(actions), Stream(i)) + RoundTrace(i, event, outcome)
      ensures outcome == SendFailed ==> updateResource
      ensures Now().streams[i].pc == if outcome == Watching then UN.Waiting else UN.Closed
      ensures if sent.Some? then HasSent(i, sent.value) else Now().streams[i].sent == old(Now().streams[i].sent)
    {
      hide UN.Run, UN.Init, Consistent, PartOf, UN.Apply, UN.Enabled;
      Others(Stream(i));
      token := updateResource;
      match EventAt(round, updateResource) {
        case Nothing =>
          outcome, sent := Watching, None;
        case Done =>
          CloseStream(i);
          outcome, sent := Finished, None;
        case Token =>
          outcome, sent := HandleNotification(i, round.sendOk, round.cdiOk);
      }
    }

    /** Some stream other than i has sent an update. */
    ghost predicate UpdateSentElsewhere(i: nat)
      reads this
      requires Recorded()
    {
      exists m :: 0 <= m < |actions| && UN.SendsUpdate(states[m], actions[m]) && actions[m].i != i
    }

    /**
     One stream, the i-th, from its call on, through at most these rounds of its loop; sent lists what it has sent,
     and tokens says for each round met whether there was a token. It does exactly what StreamOutcome and the traces
     say: in every round that finds a token, and is not done, it sends the units of the moment, or fails and leaves the
     token. While it watches, the last list it has sent is that of the present units, or a notification is on its way,
     or another stream has sent an update.
     */
    method ListAndWatch(ghost i: nat, sendOk: bool, cdiOk: bool, rounds: seq<Round>)
      returns (outcome: StreamOutcome, sent: seq<seq<Device>>, ghost tokens: seq<bool>)
      requires Tracked() && i < |Now().streams| && Now().streams[i].pc.NotOpened?
      modifies this
      ensures Tracked() && Extends(old(states)) && |tokens| <= |rounds|
      // how it ends
      ensures SendOutcome(useCdi, sendOk, cdiOk) != Watching ==>
                outcome == SendOutcome(useCdi, sendOk, cdiOk) && tokens == []
      ensures SendOutcome(useCdi, sendOk, cdiOk) == Watching ==>
                && (forall n :: 0 <= n < |tokens| - 1 ==>
                      RoundOutcome(useCdi, rounds[n], EventAt(rounds[n], tokens[n])) == Watching)
                && outcome == (if tokens == [] then Watching else
                                 var n := |tokens| - 1;
                                 RoundOutcome(useCdi, rounds[n], EventAt(rounds[n], tokens[n])))
                && (outcome == Watching ==> |tokens| == |rounds|)
      // what it does
      ensures PartOf(actions, Stream(i))
              == PartOf(old(actions), Stream(i))
                 + (FirstTrace(i, SendOutcome(useCdi, sendOk, cdiOk)) + RoundsTrace(i, useCdi, rounds, tokens))
      ensures |sent| == (if sendOk then 1 else 0) + SendCount(rounds, tokens)
      ensures sent != [] ==> HasSent(i, sent[|sent| - 1])
      ensures outcome == SendFailed && sendOk ==> updateResource
      ensures Now().streams[i].pc == if outcome == Watching then UN.Waiting else UN.Closed
      // what its client knows
      ensures outcome == Watching ==>
                sent != [] && (sent[|sent| - 1] == devs || UN.Pending(Now()) || UpdateSentElsewhere(i))
    {
      hide UN.Run, UN.Init, Consistent, PartOf, FirstTrace, RoundTrace, RoundOutcome, RoundsTrace, SendCount;
      NoRounds(i, useCdi, rounds);
      tokens := [];
      var list;
      outcome, list := SendFirst(i, sendOk, cdiOk);
      sent := if list.Some? then [list.value] else [];
      if outcome != Watching {
        return;
      }
      for n := 0 to |rounds|
        invariant Tracked() && Extends(old(states)) && outcome == Watching && |tokens| == n
        invariant forall m :: 0 <= m < n ==>
                    RoundOutcome(useCdi, rounds[m], EventAt(rounds[m], tokens[m])) == Watching
        invariant PartOf(actions, Stream(i))
                  == PartOf(old(actions), Stream(i))
                     + (FirstTrace(i, Watching) + RoundsTrace(i, useCdi, rounds, tokens))
        invariant |sent| == 1 + SendCount(rounds, tokens) && HasSent(i, sent[|sent| - 1])
        invariant Now().streams[i].pc == UN.Waiting
      {
        ghost var token;
        outcome, list, token := Meet(i, rounds[n]);
        OneMoreRound(i, useCdi, rounds, tokens, token);
        tokens := tokens + [token];
        if list.Some? {
          sent := sent + [list.value];
        }
        if outcome != Watching {
          return;
        }
      }
      NotStarvedAlone(i);
    }

    /** What UpdateNotification proves of all runs, for the present state. */
    lemma NotStarvedAlone(i: nat)
      requires Tracked() && i < |Now().streams| && Now().streams[i].pc.Waiting?
      ensures Now().streams[i].sent == Some(View()) || UN.Pending(Now()) || UpdateSentElsewhere(i)
    {
      UN.StarvedByAnother(states, actions, |actions|, i);
    }

    /** The response to each container request, or None when an annotation cannot be made. */
    method Allocate(requests: nat, annotations: seq<Option<string>>) returns (responses: Option<seq<ContainerResponse>>)
      requires |annotations| == requests
      ensures responses.None? <==> useCdi && None in annotations
      ensures responses.Some? ==> |responses.value| == requests
      ensures responses.Some? && !useCdi ==>
                forall n :: 0 <= n < requests ==> responses.value[n] == ContainerResponse(deviceSpec, None)
      ensures responses.Some? && useCdi ==>
                forall n :: 0 <= n < requests ==> responses.value[n] == ContainerResponse([], annotations[n])
    {
      var ress: seq<ContainerResponse> := [];
      for n := 0 to requests
        invariant |ress| == n && (useCdi ==> None !in annotations[..n])
        invariant forall m :: 0 <= m < n ==>
                    ress[m] == if useCdi then ContainerResponse([], annotations[m])
                               else ContainerResponse(deviceSpec, None)
      {
        if useCdi {
          if annotations[n].None? {
            return None;
          }
          ress := ress + [ContainerResponse([], annotations[n])];
        } else {
          ress := ress + [ContainerResponse(deviceSpec, None)];
        }
      }
      return Some(ress);
    }
  }

  /** newResourceServer. */
  method NewResourceServer(
      config: UserConfig, devices: seq<PciNetDevice>, sockDir: string, useCdi: bool, ghost streams: nat)
      returns (rs: ResourceServer?, err: Option<ServerError>)
    ensures err == if config.rdmaHcaMax < 0 then Some(NegativeMax)
                   else if config.resourcePrefix == "" then Some(EmptyPrefix) else None
    ensures rs == null <==> err.Some?
    ensures rs != null ==>
              && fresh(rs) && rs.Valid()
              && rs.View() == Built(config.rdmaHcaMax, AllSpecs(devices)) && !rs.updateResource
              && rs.rdmaHcaMax == config.rdmaHcaMax && rs.useCdi == useCdi && rs.pciDevices == devices
              && rs.resourceName == config.resourcePrefix + "/" + config.resourceName
              && rs.socketName == config.resourceName + SOCKET_SUFFIX
              && rs.socketPath == FilePaths.Join(sockDir, rs.socketName)
  {
    if config.rdmaHcaMax < 0 {
      return null, Some(NegativeMax);
    }
    if config.resourcePrefix == "" {
      return null, Some(EmptyPrefix);
    }
    rs := new ResourceServer(config, devices, sockDir, useCdi, streams);
    return rs, None;
  }

  method MakeDevices(max: nat) returns (devs: seq<Device>)
    ensures devs == NewDevices(max)
  {
    devs := [];
    for n := 0 to max
      invariant |devs| == n && forall m :: 0 <= m < n ==> devs[m] == Device(Itoa(m), Healthy)
    {
      devs := devs + [Device(Itoa(n), Healthy)];
    }
  }
}
