/**
 The RDMA device specs of a PCI device and their verification (pkg/resources/rdma_device_spec.go), and the
 construction of the devices that pass it (pkg/resources/pci_net_device.go, pkg/resources/resources_manager.go).
 */
module RdmaDevices {
  import opened FilePaths
  import opened PluginTypes
  import opened Wrappers

  const PERMISSIONS := "rwm"

  /** requiredRdmaDevices. */
  const REQUIRED: seq<string> := ["rdma_cm", "umad", "uverbs"]

  function SpecOf(device: string): DeviceSpec {
    DeviceSpec(device, device, PERMISSIONS)
  }

  /** Every spec is what Get makes of its host path. */
  ghost predicate Canonical(specs: seq<DeviceSpec>) {
    forall s :: s in specs ==> s == SpecOf(s.hostPath)
  }

  /** Get: one spec for each character device, in order. */
  method Get(rdmaDevices: seq<string>) returns (specs: seq<DeviceSpec>)
    ensures |specs| == |rdmaDevices|
    ensures forall n :: 0 <= n < |specs| ==> specs[n] == DeviceSpec(rdmaDevices[n], rdmaDevices[n], "rwm")
    ensures specs == SpecsFor(rdmaDevices)
  {
    specs := [];
    for n := 0 to |rdmaDevices|
      invariant |specs| == n && forall m :: 0 <= m < n ==> specs[m] == SpecOf(rdmaDevices[m])
    {
      specs := specs + [SpecOf(rdmaDevices[n])];
    }
  }

  /** strings.Contains. */
  predicate HasSubstring(s: string, sub: string) {
    sub <= s || (s != [] && HasSubstring(s[1..], sub))
  }

  ghost predicate OccursAt(sub: string, s: string, k: nat) {
    k + |sub| <= |s| && s[k..k + |sub|] == sub
  }

  /** The text occurs somewhere in the other. */
  ghost predicate Occurs(sub: string, s: string) {
    exists k: nat :: OccursAt(sub, s, k)
  }

  lemma OccursLater(s: string, sub: string, k: nat)
    requires s != []
    ensures OccursAt(sub, s[1..], k) <==> OccursAt(sub, s, k + 1)
    ensures OccursAt(sub, s, 0) <==> sub <= s
  {
    if k + 1 + |sub| <= |s| {
      assert s[1..][k..k + |sub|] == s[k + 1..k + 1 + |sub|];
    }
  }

  /** strings.Contains: the text occurs at some index. */
  lemma {:induction false} HasSubstringIff(s: string, sub: string)
    ensures HasSubstring(s, sub) <==> Occurs(sub, s)
  {
    if s == [] {
      assert OccursAt(sub, s, 0) <==> sub <= s;
    } else {
      HasSubstringIff(s[1..], sub);
      OccursLater(s, sub, 0);
      if HasSubstring(s[1..], sub) {
        var k: nat :| OccursAt(sub, s[1..], k);
        OccursLater(s, sub, k);
      }
      if Occurs(sub, s) && !(sub <= s) {
        var k: nat :| OccursAt(sub, s, k);
        OccursLater(s, sub, k - 1);
      }
    }
  }

  /** Some spec's device is of the wanted kind. */
  ghost predicate Provides(specs: seq<DeviceSpec>, kind: string) {
    exists s :: s in specs && HasSubstring(Base(s.hostPath), kind)
  }

  method ContainsRdmaDev(specs: seq<DeviceSpec>, kind: string) returns (found: bool)
    ensures found <==> Provides(specs, kind)
  {
    hide HasSubstring, Base;
    for n := 0 to |specs|
      invariant forall m :: 0 <= m < n ==> !HasSubstring(Base(specs[m].hostPath), kind)
    {
      if HasSubstring(Base(specs[n].hostPath), kind) {
        return true;
      }
    }
    return false;
  }

  /** The first required kind that no spec provides, or None: the specs are complete. */
  method VerifyRdmaSpec(required: seq<string>, specs: seq<DeviceSpec>) returns (missing: Option<string>)
    ensures missing == None <==> Complete(required, specs)
    ensures missing.Some? ==> exists n :: 0 <= n < |required| && missing.value == required[n]
                                         && !Provides(specs, required[n]) && Complete(required[..n], specs)
  {
    for n := 0 to |required|
      invariant Complete(required[..n], specs)
    {
      var found := ContainsRdmaDev(specs, required[n]);
      if !found {
        assert required[n] in required;
        return Some(required[n]);
      }
      assert forall kind :: kind in required[..n + 1] ==> kind in required[..n] || kind == required[n];
    }
    assert required[..|required|] == required;
    return None;
  }

  ghost predicate Complete(required: seq<string>, specs: seq<DeviceSpec>) {
    forall kind :: kind in required ==> Provides(specs, kind)
  }

  /** Something is required, so what passes the verification is not empty. */
  lemma CompleteIsNonEmpty(required: seq<string>, specs: seq<DeviceSpec>)
    requires required != [] && Complete(required, specs)
    ensures specs != []
  {
    assert Provides(specs, required[0]);
  }

  // ---------- devices ----------

  /** A PCI device as the discovery lists it; classId: None when it does not parse. */
  datatype PciDevice = PciDevice(address: string, classId: Option<int>, vendorId: string, productId: string)

  /** An RDMA device with its character devices. */
  datatype RdmaDevice = RdmaDevice(name: string, charDevices: seq<string>)

  /**
   What sysfs and netlink say of a PCI device. driver: None when the driver link cannot be read; link: the
   encapsulation type of the first network interface, None when netlink does not know it.
   */
  datatype Details = Details(
    driver: Option<string>, netNames: seq<string>, link: Option<string>, rdmaDevices: seq<RdmaDevice>)

  /** The host at some moment: what it says of every device. */
  type Host = PciDevice -> Details

  const NET_CLASS := 2

  ghost predicate IsNetwork(d: PciDevice) {
    d.classId == Some(NET_CLASS)
  }

  /** DiscoverHostDevices: the network devices among those found, in order. */
  method DiscoverHostDevices(found: seq<PciDevice>) returns (devices: seq<PciDevice>)
    ensures devices == Networks(found)
  {
    devices := [];
    for n := 0 to |found|
      invariant devices == Networks(found[..n])
    {
      assert found[..n + 1][..n] == found[..n];
      if found[n].classId.None? {
        continue;
      }
      if found[n].classId.value != NET_CLASS {
        continue;
      }
      devices := devices + [found[n]];
    }
    assert found[..|found|] == found;
  }

  ghost function Networks(found: seq<PciDevice>): seq<PciDevice> {
    if found == [] then []
    else
      var last := found[|found| - 1];
      Networks(found[..|found| - 1]) + if IsNetwork(last) then [last] else []
  }

  /** Nothing is lost, added or moved. */
  lemma {:induction false} NetworksInOrder(first: PciDevice, rest: seq<PciDevice>)
    ensures Networks([first] + rest) == (if IsNetwork(first) then [first] else []) + Networks(rest)
  {
    var all := [first] + rest;
    if rest == [] {
      assert all[..|all| - 1] == [] && all[|all| - 1] == first;
    } else {
      var init, last := rest[..|rest| - 1], rest[|rest| - 1];
      NetworksInOrder(first, init);
      assert all[..|all| - 1] == [first] + init && all[|all| - 1] == last;
      var a, b, c := (if IsNetwork(first) then [first] else []), Networks(init), if IsNetwork(last) then [last] else [];
      assert a + b + c == a + (b + c);
    }
  }

  lemma {:induction false} NetworksMember(found: seq<PciDevice>, d: PciDevice)
    ensures d in Networks(found) <==> d in found && IsNetwork(d)
  {
    if found != [] {
      NetworksMember(found[..|found| - 1], d);
      assert d in found <==> d in found[..|found| - 1] || d == found[|found| - 1];
    }
  }

  /** The character devices of some RDMA devices, in order. */
  ghost function CharDevices(rdmaDevices: seq<RdmaDevice>): seq<string> {
    if rdmaDevices == [] then []
    else CharDevices(rdmaDevices[..|rdmaDevices| - 1]) + rdmaDevices[|rdmaDevices| - 1].charDevices
  }

  /** Nothing is lost, added or moved. */
  lemma {:induction false} CharDevicesInOrder(first: RdmaDevice, rest: seq<RdmaDevice>)
    ensures CharDevices([first] + rest) == first.charDevices + CharDevices(rest)
  {
    var all := [first] + rest;
    if rest == [] {
      assert all[..|all| - 1] == [] && all[|all| - 1] == first;
    } else {
      var init, last := rest[..|rest| - 1], rest[|rest| - 1];
      CharDevicesInOrder(first, init);
      assert all[..|all| - 1] == [first] + init && all[|all| - 1] == last;
      var a, b, c := first.charDevices, CharDevices(init), last.charDevices;
      assert a + b + c == a + (b + c);
    }
  }

  method GetRdmaDevices(rdmaDevices: seq<RdmaDevice>) returns (charDevices: seq<string>)
    ensures charDevices == CharDevices(rdmaDevices)
  {
    charDevices := [];
    for n := 0 to |rdmaDevices|
      invariant charDevices == CharDevices(rdmaDevices[..n])
    {
      assert rdmaDevices[..n + 1][..n] == rdmaDevices[..n];
      charDevices := charDevices + rdmaDevices[n].charDevices;
    }
    assert rdmaDevices[..|rdmaDevices|] == rdmaDevices;
  }

  /** The device passes: its driver and its link, if it has an interface, are known, and its specs are complete. */
  ghost predicate Accepted(x: Details) {
    && x.driver.Some?
    && (x.netNames != [] && x.netNames[0] != "" ==> x.link.Some?)
    && Complete(REQUIRED, SpecsOf(x))
  }

  ghost function SpecsOf(x: Details): (specs: seq<DeviceSpec>)
    ensures Canonical(specs)
  {
    SpecsFor(CharDevices(x.rdmaDevices))
  }

  ghost function SpecsFor(charDevices: seq<string>): (specs: seq<DeviceSpec>)
    ensures Canonical(specs) && |specs| == |charDevices|
    ensures forall n :: 0 <= n < |specs| ==> specs[n] == SpecOf(charDevices[n])
  {
    seq(|charDevices|, n requires 0 <= n < |charDevices| => SpecOf(charDevices[n]))
  }

  ghost function DeviceOf(d: PciDevice, x: Details): PciNetDevice
    requires Accepted(x)
  {
    var ifName := if x.netNames == [] then "" else x.netNames[0];
    PciNetDevice(d.address, ifName, d.vendorId, d.productId, x.driver.value,
                 if ifName == "" then "" else x.link.value, SpecsOf(x))
  }

  /** The name that a device goes by: that of its first network interface, if it has one. */
  ghost function FirstName(x: Details): string {
    if x.netNames == [] then "" else x.netNames[0]
  }

  /** Some character device of the device is of this kind. */
  ghost predicate HasCharDevice(x: Details, kind: string) {
    exists r, c :: r in x.rdmaDevices && c in r.charDevices && Occurs(kind, Base(c))
  }

  /**
   What makes a device usable: its driver can be read, netlink knows its interface if it has one, and it has
   character devices of the three kinds.
   */
  ghost predicate Usable(x: Details) {
    && x.driver.Some?
    && (FirstName(x) != "" ==> x.link.Some?)
    && HasCharDevice(x, "rdma_cm") && HasCharDevice(x, "umad") && HasCharDevice(x, "uverbs")
  }

  lemma {:induction false} CharDevicesMember(rdmaDevices: seq<RdmaDevice>, p: string)
    ensures p in CharDevices(rdmaDevices) <==> exists r :: r in rdmaDevices && p in r.charDevices
  {
    if rdmaDevices != [] {
      var last := |rdmaDevices| - 1;
      CharDevicesMember(rdmaDevices[..last], p);
      assert forall r :: r in rdmaDevices <==> r in rdmaDevices[..last] || r == rdmaDevices[last];
    }
  }

  lemma ProvidesIff(x: Details, kind: string)
    ensures Provides(SpecsOf(x), kind) <==> HasCharDevice(x, kind)
  {
    hide HasSubstring, Base, Occurs;
    var chars, specs := CharDevices(x.rdmaDevices), SpecsOf(x);
    if Provides(specs, kind) {
      var spec :| spec in specs && HasSubstring(Base(spec.hostPath), kind);
      HasSubstringIff(Base(spec.hostPath), kind);
      CharDevicesMember(x.rdmaDevices, spec.hostPath);
    }
    if HasCharDevice(x, kind) {
      var r, c :| r in x.rdmaDevices && c in r.charDevices && Occurs(kind, Base(c));
      HasSubstringIff(Base(c), kind);
      CharDevicesMember(x.rdmaDevices, c);
      var n :| 0 <= n < |chars| && chars[n] == c;
      assert specs[n] in specs && specs[n].hostPath == c;
    }
  }

  /** Accepted devices are the usable ones. */
  lemma AcceptedIffUsable(x: Details)
    ensures Accepted(x) <==> Usable(x)
  {
    hide Provides, SpecsOf, HasCharDevice;
    ProvidesIff(x, "rdma_cm");
    ProvidesIff(x, "umad");
    ProvidesIff(x, "uverbs");
    assert REQUIRED[0] == "rdma_cm" && REQUIRED[1] == "umad" && REQUIRED[2] == "uverbs";
    assert forall kind :: kind in REQUIRED <==> kind == "rdma_cm" || kind == "umad" || kind == "uverbs";
  }

  /**
   The selectors let the device through, by what was found: the vendor and the product of the PCI device, and its
   driver, its first interface and the link type of that as the host has them.
   */
  ghost predicate Passes(s: Selectors, d: PciDevice, x: Details) {
    && (s.vendors != [] ==> d.vendorId in s.vendors)
    && (s.deviceIds != [] ==> d.productId in s.deviceIds)
    && (s.drivers != [] ==> x.driver.Some? && x.driver.value in s.drivers)
    && (s.ifNames != [] ==> FirstName(x) in s.ifNames)
    && (s.linkTypes != [] ==> if FirstName(x) == "" then "" in s.linkTypes
                              else x.link.Some? && x.link.value in s.linkTypes)
  }

  method NewPciNetDevice(d: PciDevice, x: Details) returns (dev: Option<PciNetDevice>)
    ensures dev == if Accepted(x) then Some(DeviceOf(d, x)) else None
  {
    var ifName := "";
    if |x.netNames| > 0 {
      ifName := x.netNames[0];
    }
    if x.driver.None? {
      return None;
    }
    var linkType := "";
    if ifName != "" {
      if x.link.None? {
        return None;
      }
      linkType := x.link.value;
    }
    var charDevices := GetRdmaDevices(x.rdmaDevices);
    var specs := Get(charDevices);
    var missing := VerifyRdmaSpec(REQUIRED, specs);
    if missing.Some? {
      return None;
    }
    return Some(PciNetDevice(d.address, ifName, d.vendorId, d.productId, x.driver.value, linkType, specs));
  }

  /** The accepted devices, in order. */
  ghost function AcceptedDevices(list: seq<PciDevice>, host: Host): seq<PciNetDevice> {
    if list == [] then []
    else
      var last := list[|list| - 1];
      AcceptedDevices(list[..|list| - 1], host) + if Accepted(host(last)) then [DeviceOf(last, host(last))] else []
  }

  /** Nothing is lost, added or moved. */
  lemma {:induction false} AcceptedDevicesInOrder(first: PciDevice, rest: seq<PciDevice>, host: Host)
    ensures AcceptedDevices([first] + rest, host)
            == (if Accepted(host(first)) then [DeviceOf(first, host(first))] else []) + AcceptedDevices(rest, host)
  {
    var all := [first] + rest;
    if rest == [] {
      assert all[..|all| - 1] == [] && all[|all| - 1] == first;
    } else {
      var init, last := rest[..|rest| - 1], rest[|rest| - 1];
      AcceptedDevicesInOrder(first, init, host);
      assert all[..|all| - 1] == [first] + init && all[|all| - 1] == last;
      var a := if Accepted(host(first)) then [DeviceOf(first, host(first))] else [];
      var b := AcceptedDevices(init, host);
      var c := if Accepted(host(last)) then [DeviceOf(last, host(last))] else [];
      assert a + b + c == a + (b + c);
    }
  }

  method GetDevices(deviceList: seq<PciDevice>, host: Host) returns (devices: seq<PciNetDevice>)
    ensures devices == AcceptedDevices(deviceList, host)
  {
    devices := [];
    for n := 0 to |deviceList|
      invariant devices == AcceptedDevices(deviceList[..n], host)
    {
      assert deviceList[..n + 1][..n] == deviceList[..n];
      var dev := NewPciNetDevice(deviceList[n], host(deviceList[n]));
      if dev.Some? {
        devices := devices + [dev.value];
      }
    }
    assert deviceList[..|deviceList|] == deviceList;
  }

  /** The device comes from an accepted one on the list. */
  ghost predicate ComesFrom(dev: PciNetDevice, list: seq<PciDevice>, host: Host) {
    exists d :: d in list && Accepted(host(d)) && dev == DeviceOf(d, host(d))
  }

  /** Every accepted device comes from a discovered one, and has specs, all of them as Get makes them. */
  lemma {:induction false} AcceptedDevicesHaveSpecs(list: seq<PciDevice>, host: Host)
    ensures forall dev :: dev in AcceptedDevices(list, host) ==> dev.rdmaSpec != [] && Canonical(dev.rdmaSpec)
    ensures forall dev :: dev in AcceptedDevices(list, host) <==> ComesFrom(dev, list, host)
  {
    if list != [] {
      var last := list[|list| - 1];
      AcceptedDevicesHaveSpecs(list[..|list| - 1], host);
      if Accepted(host(last)) {
        CompleteIsNonEmpty(REQUIRED, SpecsOf(host(last)));
      }
      assert forall d :: d in list <==> d in list[..|list| - 1] || d == last;
    }
  }
}
