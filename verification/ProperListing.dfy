/**
 When devicesChanged sees every change (pkg/resources/server.go, pkg/utils/utils.go). All RDMA devices share one
 host path, rdma_cm, so that host paths do repeat; but if no RDMA device is listed twice, the repetition is
 regular enough for the comparison of lengths and paths to be exact.
 */
module ProperListing {
  import opened DeviceSelectors
  import opened FilePaths
  import opened PluginTypes
  import opened RdmaDevices
  import opened ResourceInventory

  ghost predicate IsVerbs(path: string) {
    HasSubstring(Base(path), "uverbs")
  }

  /** The host paths other than the common one. */
  ghost function Private(specs: seq<DeviceSpec>, common: string): set<string> {
    set p | p in Paths(specs) && p != common
  }

  ghost function Verbs(specs: seq<DeviceSpec>, common: string): set<string> {
    set p | p in Private(specs, common) && IsVerbs(p)
  }

  /** As many specs as private paths and verbs paths: the common path is listed once for each verbs path. */
  ghost predicate Proper(specs: seq<DeviceSpec>, common: string) {
    && |specs| == |Private(specs, common)| + |Verbs(specs, common)|
    && (common in Paths(specs) <==> Verbs(specs, common) != {})
  }

  lemma SubsetIsNoLarger<T>(a: set<T>, b: set<T>)
    requires a <= b
    ensures |a| <= |b|
    ensures |a| == |b| ==> a == b
  {
    assert b == a + (b - a);
    assert |b| == |a| + |b - a|;
  }

  /** Between proper lists no change is masked: devicesChanged says exactly whether the host paths differ. */
  lemma ProperIsExact(before: seq<DeviceSpec>, after: seq<DeviceSpec>, common: string)
    requires Proper(before, common) && Proper(after, common)
    ensures !Masked(before, after)
    ensures Changed(before, after) <==> Paths(before) != Paths(after)
  {
    if Paths(after) <= Paths(before) {
      SubsetIsNoLarger(Private(after, common), Private(before, common));
      SubsetIsNoLarger(Verbs(after, common), Verbs(before, common));
    }
    if Paths(before) == Paths(after) {
      assert Private(before, common) == Private(after, common);
      assert Verbs(before, common) == Verbs(after, common);
    }
    if |before| == |after| && Paths(after) <= Paths(before) {
      assert Private(before, common) == Private(after, common);
      forall p
        ensures p in Paths(before) <==> p in Paths(after)
      {
        assert p != common ==> (p in Paths(before) <==> p in Private(before, common));
        assert p != common ==> (p in Paths(after) <==> p in Private(after, common));
      }
    }
  }

  lemma ProperTogether(a: seq<DeviceSpec>, b: seq<DeviceSpec>, common: string)
    requires Proper(a, common) && Proper(b, common) && Private(a, common) !! Private(b, common)
    ensures Proper(a + b, common) && Private(a + b, common) == Private(a, common) + Private(b, common)
  {
    PathsTogether(a, b, common);
    hide Paths, Private, Verbs;
    UnionSize(Private(a, common), Private(b, common));
    VerbsArePrivate(a, b, common);
    UnionSize(Verbs(a, common), Verbs(b, common));
  }

  lemma VerbsArePrivate(a: seq<DeviceSpec>, b: seq<DeviceSpec>, common: string)
    ensures Verbs(a, common) <= Private(a, common) && Verbs(b, common) <= Private(b, common)
  {
    hide IsVerbs;
  }

  lemma UnionSize<T>(a: set<T>, b: set<T>)
    requires a !! b
    ensures |a + b| == |a| + |b|
  {
    assert a + b - a == b;
  }

  lemma PathsTogether(a: seq<DeviceSpec>, b: seq<DeviceSpec>, common: string)
    ensures Paths(a + b) == Paths(a) + Paths(b)
    ensures Private(a + b, common) == Private(a, common) + Private(b, common)
    ensures Verbs(a + b, common) == Verbs(a, common) + Verbs(b, common)
  {
    hide IsVerbs;
    assert Paths(a + b) == Paths(a) + Paths(b);
  }

  // ---------- RDMA devices ----------

  /** An RDMA device with the common path, one verbs path of its own, and no path twice. */
  ghost predicate IsRdma(r: RdmaDevice, common: string) {
    && (forall m, n :: 0 <= m < n < |r.charDevices| ==> r.charDevices[m] != r.charDevices[n])
    && common in r.charDevices
    && (exists v :: Verbs(SpecsFor(r.charDevices), common) == {v})
  }

  lemma RdmaIsProper(r: RdmaDevice, common: string)
    requires IsRdma(r, common)
    ensures Proper(SpecsFor(r.charDevices), common)
  {
    hide IsVerbs;
    var specs := SpecsFor(r.charDevices);
    DistinctPathsCount(specs);
    var n :| 0 <= n < |r.charDevices| && r.charDevices[n] == common;
    assert specs[n] in specs && specs[n].hostPath == common;
    assert Paths(specs) == Private(specs, common) + {common};
    UnionSize(Private(specs, common), {common});
    var v :| Verbs(specs, common) == {v};
  }

  /** Every one is an RDMA device, and no path but the common one belongs to two of them. */
  ghost predicate Unshared(rdmaDevices: seq<RdmaDevice>, common: string) {
    && (forall r :: r in rdmaDevices ==> IsRdma(r, common))
    && (forall m, n :: 0 <= m < n < |rdmaDevices| ==> Apart(rdmaDevices[m], rdmaDevices[n], common))
  }

  ghost predicate Apart(q: RdmaDevice, r: RdmaDevice, common: string) {
    Private(SpecsFor(q.charDevices), common) !! Private(SpecsFor(r.charDevices), common)
  }

  lemma PrivateMember(charDevices: seq<string>, common: string, p: string)
    ensures p in Private(SpecsFor(charDevices), common) <==> p in charDevices && p != common
  {
    var specs := SpecsFor(charDevices);
    if p in charDevices {
      var n :| 0 <= n < |charDevices| && charDevices[n] == p;
      assert specs[n] in specs;
    }
  }

  /** The private paths of a list of RDMA devices are those of its members. */
  lemma PrivateOfAll(rdmaDevices: seq<RdmaDevice>, common: string, p: string)
    ensures p in Private(SpecsFor(CharDevices(rdmaDevices)), common)
            <==> exists r :: r in rdmaDevices && p in Private(SpecsFor(r.charDevices), common)
  {
    PrivateMember(CharDevices(rdmaDevices), common, p);
    CharDevicesMember(rdmaDevices, p);
    forall r: RdmaDevice
      ensures p in Private(SpecsFor(r.charDevices), common) <==> p in r.charDevices && p != common
    {
      PrivateMember(r.charDevices, common, p);
    }
  }

  lemma {:induction false} EarlierAreApart(init: seq<RdmaDevice>, r: RdmaDevice, common: string)
    requires forall q :: q in init ==> Apart(q, r, common)
    ensures Private(SpecsFor(CharDevices(init)), common) !! Private(SpecsFor(r.charDevices), common)
  {
    forall p | p in Private(SpecsFor(CharDevices(init)), common)
      ensures p !in Private(SpecsFor(r.charDevices), common)
    {
      PrivateOfAll(init, common, p);
      var q :| q in init && p in Private(SpecsFor(q.charDevices), common);
      assert Apart(q, r, common);
    }
  }

  lemma SpecsForBoth(a: seq<string>, b: seq<string>)
    ensures SpecsFor(a + b) == SpecsFor(a) + SpecsFor(b)
  {
  }

  lemma NothingIsProper(common: string)
    ensures Proper([], common)
  {
    assert Paths([]) == {};
    assert Private([], common) == {};
    assert Verbs([], common) == {};
  }

  lemma {:induction false} UnsharedIsProper(rdmaDevices: seq<RdmaDevice>, common: string)
    requires Unshared(rdmaDevices, common)
    ensures Proper(SpecsFor(CharDevices(rdmaDevices)), common)
  {
    hide Proper, Private, Verbs;
    if rdmaDevices == [] {
      NothingIsProper(common);
      assert SpecsFor([]) == [];
    } else {
      var last := |rdmaDevices| - 1;
      var init, r := rdmaDevices[..last], rdmaDevices[last];
      assert init + [r] == rdmaDevices;
      UnsharedParts(init, [r], common);
      UnsharedIsProper(init, common);
      RdmaIsProper(r, common);
      EarlierAreApart(init, r, common);
      ProperTogether(SpecsFor(CharDevices(init)), SpecsFor(r.charDevices), common);
      SpecsForBoth(CharDevices(init), r.charDevices);
    }
  }

  // ---------- PCI devices ----------

  /** Each device's specs are proper, and no private path belongs to two devices. */
  ghost predicate ProperDevices(devices: seq<PciNetDevice>, common: string) {
    && (forall dev :: dev in devices ==> Proper(dev.rdmaSpec, common))
    && (forall m, n :: 0 <= m < n < |devices| ==>
          Private(devices[m].rdmaSpec, common) !! Private(devices[n].rdmaSpec, common))
  }

  lemma {:induction false} ProperDevicesList(devices: seq<PciNetDevice>, common: string)
    requires ProperDevices(devices, common)
    ensures Proper(AllSpecs(devices), common)
  {
    hide Proper, Private, Verbs;
    if devices == [] {
      NothingIsProper(common);
    } else {
      var last := |devices| - 1;
      var init, dev := devices[..last], devices[last];
      ProperDevicesList(init, common);
      EarlierDevicesAreApart(init, dev, common);
      ProperTogether(AllSpecs(init), dev.rdmaSpec, common);
    }
  }

  lemma {:induction false} EarlierDevicesAreApart(init: seq<PciNetDevice>, dev: PciNetDevice, common: string)
    requires forall m :: 0 <= m < |init| ==> Private(init[m].rdmaSpec, common) !! Private(dev.rdmaSpec, common)
    ensures Private(AllSpecs(init), common) !! Private(dev.rdmaSpec, common)
  {
    forall p | p in Private(AllSpecs(init), common)
      ensures p !in Private(dev.rdmaSpec, common)
    {
      var spec :| spec in AllSpecs(init) && spec.hostPath == p;
      AllSpecsMember(init, spec);
      var d :| d in init && spec in d.rdmaSpec;
      var m :| 0 <= m < |init| && init[m] == d;
      assert p in Private(init[m].rdmaSpec, common);
    }
  }

  lemma {:induction false} SelectionIsProper(
      devices: seq<PciNetDevice>, test: PciNetDevice -> bool, common: string)
    requires ProperDevices(devices, common)
    ensures ProperDevices(Select(devices, test), common)
  {
    if devices != [] {
      var first, rest := devices[0], devices[1..];
      forall m, n | 0 <= m < n < |rest|
        ensures Private(rest[m].rdmaSpec, common) !! Private(rest[n].rdmaSpec, common)
      {
        assert rest[m] == devices[m + 1] && rest[n] == devices[n + 1];
      }
      SelectionIsProper(rest, test, common);
      forall dev | dev in Select(rest, test)
        ensures Private(first.rdmaSpec, common) !! Private(dev.rdmaSpec, common)
        ensures Proper(dev.rdmaSpec, common)
      {
        SelectMember(rest, test, dev);
        var n :| 0 <= n < |rest| && rest[n] == dev;
        assert devices[0] == first && devices[n + 1] == dev;
      }
      assert first in devices;
    }
  }

  /** All RDMA devices of the listed PCI devices. */
  ghost function RdmaDevicesOf(list: seq<PciDevice>, host: Host): seq<RdmaDevice> {
    if list == [] then []
    else RdmaDevicesOf(list[..|list| - 1], host) + host(list[|list| - 1]).rdmaDevices
  }

  lemma {:induction false} RdmaDevicesOfMember(list: seq<PciDevice>, host: Host, d: PciDevice)
    requires d in list
    ensures forall r :: r in host(d).rdmaDevices ==> r in RdmaDevicesOf(list, host)
  {
    var last := |list| - 1;
    if d != list[last] {
      assert d in list[..last];
      RdmaDevicesOfMember(list[..last], host, d);
    }
  }

  lemma UnsharedParts(a: seq<RdmaDevice>, b: seq<RdmaDevice>, common: string)
    requires Unshared(a + b, common)
    ensures Unshared(a, common) && Unshared(b, common)
    ensures forall q, r :: q in a && r in b ==> Apart(q, r, common)
  {
    var all := a + b;
    assert forall r :: r in a || r in b ==> r in all;
    assert forall m :: 0 <= m < |a| ==> all[m] == a[m];
    assert forall n :: 0 <= n < |b| ==> all[|a| + n] == b[n];
    forall q, r | q in a && r in b
      ensures Apart(q, r, common)
    {
      var m :| 0 <= m < |a| && a[m] == q;
      var n :| 0 <= n < |b| && b[n] == r;
      assert Apart(all[m], all[|a| + n], common);
    }
    forall m, n | 0 <= m < n < |b|
      ensures Apart(b[m], b[n], common)
    {
      assert Apart(all[|a| + m], all[|a| + n], common);
    }
    forall m, n | 0 <= m < n < |a|
      ensures Apart(a[m], a[n], common)
    {
      assert Apart(all[m], all[n], common);
    }
  }

  /** If no RDMA device is listed twice, the accepted devices share no path but the common one. */
  lemma {:induction false} AcceptedAreProper(list: seq<PciDevice>, host: Host, common: string)
    requires Unshared(RdmaDevicesOf(list, host), common)
    ensures ProperDevices(AcceptedDevices(list, host), common)
  {
    if list != [] {
      var last := |list| - 1;
      var init, d := list[..last], list[last];
      var x := host(d);
      UnsharedParts(RdmaDevicesOf(init, host), x.rdmaDevices, common);
      AcceptedAreProper(init, host, common);
      if Accepted(x) {
        UnsharedIsProper(x.rdmaDevices, common);
        forall dev | dev in AcceptedDevices(init, host)
          ensures Private(dev.rdmaSpec, common) !! Private(SpecsOf(x), common)
        {
          AcceptedIsApart(init, host, dev, x, common);
        }
      }
    }
  }

  lemma AcceptedIsApart(init: seq<PciDevice>, host: Host, dev: PciNetDevice, x: Details, common: string)
    requires dev in AcceptedDevices(init, host)
    requires forall q, r :: q in RdmaDevicesOf(init, host) && r in x.rdmaDevices ==> Apart(q, r, common)
    ensures Private(dev.rdmaSpec, common) !! Private(SpecsOf(x), common)
  {
    AcceptedDevicesHaveSpecs(init, host);
    var c :| c in init && Accepted(host(c)) && dev == DeviceOf(c, host(c));
    RdmaDevicesOfMember(init, host, c);
    forall p | p in Private(dev.rdmaSpec, common)
      ensures p !in Private(SpecsOf(x), common)
    {
      PrivateOfAll(host(c).rdmaDevices, common, p);
      PrivateOfAll(x.rdmaDevices, common, p);
      var q :| q in host(c).rdmaDevices && p in Private(SpecsFor(q.charDevices), common);
      assert forall r :: r in x.rdmaDevices ==> Apart(q, r, common);
    }
  }

  // ---------- what the hypothesis excludes ----------

  /**
   Were one RDMA device listed for two PCI devices, a change could go unnoticed: of two RDMA devices with as many
   character devices, the second gives way to another listing of the first.
   */
  lemma ListedTwiceIsMasked(q: RdmaDevice, r: RdmaDevice, max: nat, common: string)
    requires IsRdma(q, common) && IsRdma(r, common) && Apart(q, r, common)
    requires |q.charDevices| == |r.charDevices|
    ensures
      var before, after := SpecsFor(CharDevices([q, r])), SpecsFor(CharDevices([q, q]));
      Masked(before, after) && Updated(Built(max, before), max, after) == Built(max, before)
  {
    hide IsVerbs;
    var a, b := SpecsFor(q.charDevices), SpecsFor(r.charDevices);
    TwoRdmaDevices(q, r);
    TwoRdmaDevices(q, q);
    hide CharDevices, SpecsFor;
    PathsTogether(a, b, common);
    PathsTogether(a, a, common);
    var v :| Verbs(b, common) == {v};
    assert v in Verbs(b, common);
  }

  lemma TwoRdmaDevices(q: RdmaDevice, r: RdmaDevice)
    ensures SpecsFor(CharDevices([q, r])) == SpecsFor(q.charDevices) + SpecsFor(r.charDevices)
  {
    var both := [q, r];
    assert both[..1] == [q] && both[..1][..0] == [];
    assert CharDevices(both[..1]) == q.charDevices;
    assert CharDevices(both) == q.charDevices + r.charDevices;
  }
}
