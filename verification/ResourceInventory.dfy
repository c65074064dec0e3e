/**
 The inventory of a resource server (pkg/resources/server.go): the device specs it hands to containers and the
 units it advertises, how UpdateDevices keeps them up to date, and how ListAndWatch and Allocate use them.
 */
module ResourceInventory {
  import opened PluginTypes
  import opened RdmaDevices
  import opened Text

  datatype Health = Healthy | Unhealthy

  datatype Device = Device(id: string, health: Health)

  // ---------- device specs ----------

  /** The specs of all devices, in order. */
  function AllSpecs(devices: seq<PciNetDevice>): seq<DeviceSpec> {
    if devices == [] then [] else AllSpecs(devices[..|devices| - 1]) + devices[|devices| - 1].rdmaSpec
  }

  method GetDevicesSpec(devices: seq<PciNetDevice>) returns (specs: seq<DeviceSpec>)
    ensures specs == AllSpecs(devices)
  {
    specs := [];
    for n := 0 to |devices|
      invariant specs == AllSpecs(devices[..n])
    {
      assert devices[..n + 1][..n] == devices[..n];
      specs := specs + devices[n].rdmaSpec;
    }
    assert devices[..|devices|] == devices;
  }

  /** Nothing is lost, added or moved. */
  lemma {:induction false} AllSpecsInOrder(first: PciNetDevice, rest: seq<PciNetDevice>)
    ensures AllSpecs([first] + rest) == first.rdmaSpec + AllSpecs(rest)
  {
    var all := [first] + rest;
    if rest == [] {
      assert all[..|all| - 1] == [] && all[|all| - 1] == first;
    } else {
      var init, last := rest[..|rest| - 1], rest[|rest| - 1];
      AllSpecsInOrder(first, init);
      assert all[..|all| - 1] == [first] + init && all[|all| - 1] == last;
      var a, b, c := first.rdmaSpec, AllSpecs(init), last.rdmaSpec;
      assert a + b + c == a + (b + c);
    }
  }

  /** A spec is there exactly when some device has it. */
  lemma {:induction false} AllSpecsMember(devices: seq<PciNetDevice>, s: DeviceSpec)
    ensures s in AllSpecs(devices) <==> exists d :: d in devices && s in d.rdmaSpec
  {
    if devices != [] {
      var last := devices[|devices| - 1];
      AllSpecsMember(devices[..|devices| - 1], s);
      assert forall d :: d in devices <==> d in devices[..|devices| - 1] || d == last;
    }
  }

  ghost function Paths(specs: seq<DeviceSpec>): set<string> {
    set s | s in specs :: s.hostPath
  }

  ghost function SpecSet(specs: seq<DeviceSpec>): set<DeviceSpec> {
    set s | s in specs
  }

  /** devicesChanged: another length, or a host path that is not an old one. */
  ghost predicate Changed(before: seq<DeviceSpec>, after: seq<DeviceSpec>) {
    |before| != |after| || !(Paths(after) <= Paths(before))
  }

  method DevicesChanged(before: seq<DeviceSpec>, after: seq<DeviceSpec>) returns (changed: bool)
    ensures changed <==> Changed(before, after)
  {
    if |before| != |after| {
      return true;
    }
    var listed: map<string, bool> := map[];
    for n := 0 to |before|
      invariant listed.Keys == Paths(before[..n])
    {
      assert before[..n + 1] == before[..n] + [before[n]];
      listed := listed[before[n].hostPath := true];
    }
    assert before[..|before|] == before;
    for n := 0 to |after|
      invariant Paths(after[..n]) <= Paths(before)
    {
      assert after[..n + 1] == after[..n] + [after[n]];
      if after[n].hostPath !in listed {
        assert after[n].hostPath in Paths(after);
        return true;
      }
    }
    assert after[..|after|] == after;
    return false;
  }

  /** A change goes unnoticed: as many specs as before, but fewer host paths, all of them old ones. */
  ghost predicate Masked(before: seq<DeviceSpec>, after: seq<DeviceSpec>) {
    |before| == |after| && Paths(after) < Paths(before)
  }

  /** devicesChanged says no although the host paths differ exactly when the change is masked. */
  lemma UnnoticedIffMasked(before: seq<DeviceSpec>, after: seq<DeviceSpec>)
    ensures !Changed(before, after) && Paths(before) != Paths(after) <==> Masked(before, after)
  {
  }

  /** It depends on neither list's order. */
  lemma ChangedIgnoresOrder(
      before: seq<DeviceSpec>, after: seq<DeviceSpec>, before': seq<DeviceSpec>, after': seq<DeviceSpec>)
    requires multiset(before) == multiset(before') && multiset(after) == multiset(after')
    ensures Changed(before, after) == Changed(before', after')
  {
    assert |multiset(before)| == |before| && |multiset(before')| == |before'|;
    assert |multiset(after)| == |after| && |multiset(after')| == |after'|;
    SamePaths(before, before');
    SamePaths(after, after');
  }

  lemma SamePaths(a: seq<DeviceSpec>, b: seq<DeviceSpec>)
    requires multiset(a) == multiset(b)
    ensures Paths(a) == Paths(b)
  {
    assert forall s :: s in a <==> s in multiset(a);
    assert forall s :: s in b <==> s in multiset(b);
  }

  lemma SubsetOfSameSize<T>(a: set<T>, b: set<T>)
    requires a <= b && |a| == |b|
    ensures a == b
  {
    assert b == a + (b - a);
    assert |b| == |a| + |b - a|;
  }

  /** By pigeonhole no change is masked between lists with the same number of distinct host paths. */
  lemma SameCountIsNotMasked(before: seq<DeviceSpec>, after: seq<DeviceSpec>)
    requires |before| == |after| ==> |Paths(before)| == |Paths(after)|
    ensures !Masked(before, after)
    ensures !Changed(before, after) ==> Paths(before) == Paths(after)
  {
    if |before| == |after| && Paths(after) <= Paths(before) {
      SubsetOfSameSize(Paths(after), Paths(before));
    }
  }

  ghost predicate DistinctPaths(specs: seq<DeviceSpec>) {
    forall m, n :: 0 <= m < n < |specs| ==> specs[m].hostPath != specs[n].hostPath
  }

  /** A list without repetition has as many host paths as specs, so that two such lists are compared exactly. */
  lemma {:induction false} DistinctPathsCount(specs: seq<DeviceSpec>)
    requires DistinctPaths(specs)
    ensures |Paths(specs)| == |specs|
  {
    if specs == [] {
      assert Paths(specs) == {};
    } else {
      var last := |specs| - 1;
      DistinctPathsCount(specs[..last]);
      assert specs == specs[..last] + [specs[last]];
      assert Paths(specs) == Paths(specs[..last]) + {specs[last].hostPath};
      assert specs[last].hostPath !in Paths(specs[..last]);
    }
  }

  // ---------- the inventory as a value ----------

  datatype Inventory = Inventory(deviceSpec: seq<DeviceSpec>, devs: seq<Device>)

  function NewDevices(max: nat): (devs: seq<Device>)
    ensures |devs| == max && forall n :: 0 <= n < max ==> devs[n] == Device(Itoa(n), Healthy)
  {
    seq(max, n requires 0 <= n < max => Device(Itoa(n), Healthy))
  }

  ghost function Built(max: nat, specs: seq<DeviceSpec>): Inventory {
    Inventory(specs, if specs == [] then [] else NewDevices(max))
  }

  ghost function Updated(inv: Inventory, max: nat, specs: seq<DeviceSpec>): Inventory {
    if !Changed(inv.deviceSpec, specs) then inv
    else if specs == [] then Inventory([], [])
    else Inventory(specs, if inv.devs == [] then NewDevices(max) else inv.devs)
  }

  /** The inventory after a sequence of updates. */
  ghost function After(inv: Inventory, max: nat, updates: seq<seq<DeviceSpec>>): Inventory {
    if updates == [] then inv
    else Updated(After(inv, max, updates[..|updates| - 1]), max, updates[|updates| - 1])
  }

  /** The units are "0" to "max - 1" when there are specs, and none otherwise. */
  ghost predicate Consistent(inv: Inventory, max: nat) {
    && |inv.devs| == (if inv.deviceSpec == [] then 0 else max)
    && forall n :: 0 <= n < |inv.devs| ==> inv.devs[n].id == Itoa(n)
  }

  lemma UpdatedIsConsistent(inv: Inventory, max: nat, specs: seq<DeviceSpec>)
    requires Consistent(inv, max)
    ensures Consistent(Updated(inv, max, specs), max)
  {
  }

  lemma {:induction false} AlwaysConsistent(max: nat, specs: seq<DeviceSpec>, updates: seq<seq<DeviceSpec>>)
    ensures Consistent(After(Built(max, specs), max, updates), max)
  {
    if updates != [] {
      AlwaysConsistent(max, specs, updates[..|updates| - 1]);
    }
  }

  /** And all units are healthy. */
  lemma {:induction false} AlwaysHealthy(max: nat, specs: seq<DeviceSpec>, updates: seq<seq<DeviceSpec>>)
    ensures forall d :: d in After(Built(max, specs), max, updates).devs ==> d.health == Healthy
  {
    if updates != [] {
      AlwaysHealthy(max, specs, updates[..|updates| - 1]);
    }
  }

  lemma UnitsAreDistinct(inv: Inventory, max: nat, m: nat, n: nat)
    requires Consistent(inv, max) && m < n < |inv.devs|
    ensures inv.devs[m].id != inv.devs[n].id
  {
    if Itoa(m) == Itoa(n) {
      ItoaInjective(m, n);
    }
  }

  /** While there are specs, the units and their health marks stay as they are. */
  lemma {:induction false} MarksAreKept(inv: Inventory, max: nat, updates: seq<seq<DeviceSpec>>)
    requires Consistent(inv, max)
    requires forall k :: 0 <= k <= |updates| ==> After(inv, max, updates[..k]).deviceSpec != []
    ensures After(inv, max, updates).devs == inv.devs
  {
    if updates != [] {
      var init := updates[..|updates| - 1];
      forall k | 0 <= k <= |init|
        ensures After(inv, max, init[..k]).deviceSpec != []
      {
        assert init[..k] == updates[..k];
      }
      MarksAreKept(inv, max, init);
      assert updates[..0] == [] && updates[..|updates|] == updates;
      assert inv.devs == [] ==> NewDevices(max) == [];
    }
  }

  // ---------- freshness ----------

  lemma CanonicalSpecSets(a: seq<DeviceSpec>, b: seq<DeviceSpec>)
    requires Canonical(a) && Canonical(b)
    ensures SpecSet(a) == SpecSet(b) <==> Paths(a) == Paths(b)
  {
    if Paths(a) == Paths(b) {
      forall s
        ensures s in SpecSet(a) <==> s in SpecSet(b)
      {
        if s in a {
          assert s.hostPath in Paths(b);
        }
        if s in b {
          assert s.hostPath in Paths(a);
        }
      }
    } else {
      assert forall p :: p in Paths(a) <==> SpecOf(p) in SpecSet(a);
      assert forall p :: p in Paths(b) <==> SpecOf(p) in SpecSet(b);
    }
  }

  /** One update leaves exactly the specs it was given, unless it is masked. */
  lemma UpdateIsFreshIff(inv: Inventory, max: nat, specs: seq<DeviceSpec>)
    requires Canonical(inv.deviceSpec) && Canonical(specs)
    ensures SpecSet(Updated(inv, max, specs).deviceSpec) == SpecSet(specs) <==> !Masked(inv.deviceSpec, specs)
  {
    CanonicalSpecSets(inv.deviceSpec, specs);
  }

  lemma {:induction false} AfterIsCanonical(inv: Inventory, max: nat, updates: seq<seq<DeviceSpec>>)
    requires Canonical(inv.deviceSpec) && forall u :: u in updates ==> Canonical(u)
    ensures Canonical(After(inv, max, updates).deviceSpec)
  {
    if updates != [] {
      AfterIsCanonical(inv, max, updates[..|updates| - 1]);
    }
  }

  /**
   Freshness over a whole run: after every update exactly the specs of that update are served - also where
   the update was skipped as unchanged - if and only if no update is masked by what was served before it.
   */
  lemma FreshThroughoutIff(inv: Inventory, max: nat, updates: seq<seq<DeviceSpec>>)
    requires Canonical(inv.deviceSpec) && forall u :: u in updates ==> Canonical(u)
    ensures
      (forall k :: 0 <= k < |updates| ==> SpecSet(After(inv, max, updates[..k + 1]).deviceSpec) == SpecSet(updates[k]))
      <==>
      (forall k :: 0 <= k < |updates| ==> !Masked(After(inv, max, updates[..k]).deviceSpec, updates[k]))
  {
    forall k | 0 <= k < |updates|
      ensures SpecSet(After(inv, max, updates[..k + 1]).deviceSpec) == SpecSet(updates[k])
              <==> !Masked(After(inv, max, updates[..k]).deviceSpec, updates[k])
    {
      AfterIsCanonical(inv, max, updates[..k]);
      UpdateIsFreshIff(After(inv, max, updates[..k]), max, updates[k]);
      assert updates[..k + 1][..k] == updates[..k];
    }
  }

  /**
   In particular when any two lists that UpdateDevices compares have the same number of distinct host paths
   whenever they have the same length, the last inventory passed in is the one served.
   */
  lemma LastUpdateIsServed(inv: Inventory, max: nat, updates: seq<seq<DeviceSpec>>)
    requires Canonical(inv.deviceSpec) && (forall u :: u in updates ==> Canonical(u)) && updates != []
    requires forall k :: 0 <= k < |updates| ==>
               var before := After(inv, max, updates[..k]).deviceSpec;
               |before| == |updates[k]| ==> |Paths(before)| == |Paths(updates[k])|
    ensures SpecSet(After(inv, max, updates).deviceSpec) == SpecSet(updates[|updates| - 1])
  {
    var last := |updates| - 1;
    SameCountIsNotMasked(After(inv, max, updates[..last]).deviceSpec, updates[last]);
    AfterIsCanonical(inv, max, updates[..last]);
    UpdateIsFreshIff(After(inv, max, updates[..last]), max, updates[last]);
  }
}
