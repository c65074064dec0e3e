/**
 The selector pipeline (pkg/resources/device_selectors.go, pkg/resources/resources_manager.go): five stages,
 each of which keeps the devices that have one of the listed values of one attribute.
 */
module DeviceSelectors {
  import opened PluginTypes

  /** One stage: the attribute it looks at and the values it lets through. */
  datatype DeviceSelector =
    | VendorSelector(values: seq<string>)
    | DeviceIdSelector(values: seq<string>)
    | DriverSelector(values: seq<string>)
    | IfNameSelector(values: seq<string>)
    | LinkTypeSelector(values: seq<string>)
  {
    function Attribute(dev: PciNetDevice): string {
      match this
      case VendorSelector(_) => dev.vendor
      case DeviceIdSelector(_) => dev.deviceId
      case DriverSelector(_) => dev.driver
      case IfNameSelector(_) => dev.ifName
      case LinkTypeSelector(_) => dev.linkType
    }

    ghost predicate Accepts(dev: PciNetDevice) {
      Attribute(dev) in values
    }

    /** The source's loop, the same for the five attributes. */
    method Filter(inDevices: seq<PciNetDevice>) returns (filtered: seq<PciNetDevice>)
      ensures filtered == Select(inDevices, Accepts)
    {
      filtered := [];
      for n := 0 to |inDevices|
        invariant filtered == Select(inDevices[..n], Accepts)
      {
        SelectSnoc(inDevices[..n], inDevices[n], Accepts);
        assert inDevices[..n] + [inDevices[n]] == inDevices[..n + 1];
        var ok := Contains(values, Attribute(inDevices[n]));
        if ok {
          filtered := filtered + [inDevices[n]];
        }
      }
      assert inDevices[..|inDevices|] == inDevices;
    }
  }

  method Contains(list: seq<string>, needle: string) returns (found: bool)
    ensures found <==> needle in list
  {
    for n := 0 to |list|
      invariant needle !in list[..n]
    {
      if list[n] == needle {
        return true;
      }
    }
    return false;
  }

  /** The devices that satisfy the test, in their order. */
  ghost function Select(devices: seq<PciNetDevice>, test: PciNetDevice -> bool): seq<PciNetDevice> {
    if devices == [] then []
    else (if test(devices[0]) then [devices[0]] else []) + Select(devices[1..], test)
  }

  lemma {:induction false} SelectSnoc(devices: seq<PciNetDevice>, dev: PciNetDevice, test: PciNetDevice -> bool)
    ensures Select(devices + [dev], test) == Select(devices, test) + if test(dev) then [dev] else []
  {
    if devices == [] {
      assert [dev][1..] == [];
      assert [] + [dev] == [dev];
    } else {
      SelectSnoc(devices[1..], dev, test);
      assert (devices + [dev])[1..] == devices[1..] + [dev];
    }
  }

  /** Two selections in a row are one selection by both tests. */
  lemma {:induction false} SelectTwice(
      devices: seq<PciNetDevice>, p: PciNetDevice -> bool, q: PciNetDevice -> bool, both: PciNetDevice -> bool)
    requires forall d :: d in devices ==> both(d) == (p(d) && q(d))
    ensures Select(Select(devices, p), q) == Select(devices, both)
  {
    if devices != [] {
      SelectTwice(devices[1..], p, q, both);
      var rest := Select(devices[1..], p);
      assert [] + rest == rest;
      if p(devices[0]) {
        assert [devices[0]] + rest == Select(devices, p);
        assert ([devices[0]] + rest)[1..] == rest;
      }
    }
  }

  lemma {:induction false} SelectAgrees(devices: seq<PciNetDevice>, p: PciNetDevice -> bool, q: PciNetDevice -> bool)
    requires forall d :: d in devices ==> p(d) == q(d)
    ensures Select(devices, p) == Select(devices, q)
  {
    if devices != [] {
      SelectAgrees(devices[1..], p, q);
    }
  }

  lemma {:induction false} SelectMember(devices: seq<PciNetDevice>, test: PciNetDevice -> bool, d: PciNetDevice)
    ensures d in Select(devices, test) <==> d in devices && test(d)
  {
    if devices != [] {
      SelectMember(devices[1..], test, d);
    }
  }

  /** OR within a list, AND between the lists; an empty list is ignored. */
  ghost predicate Matches(s: Selectors, dev: PciNetDevice) {
    && (s.vendors != [] ==> dev.vendor in s.vendors)
    && (s.deviceIds != [] ==> dev.deviceId in s.deviceIds)
    && (s.drivers != [] ==> dev.driver in s.drivers)
    && (s.ifNames != [] ==> dev.ifName in s.ifNames)
    && (s.linkTypes != [] ==> dev.linkType in s.linkTypes)
  }

  /** The devices that match, in their order. */
  ghost function Matching(devices: seq<PciNetDevice>, s: Selectors): seq<PciNetDevice> {
    Select(devices, d => Matches(s, d))
  }

  lemma MatchingMember(devices: seq<PciNetDevice>, s: Selectors, d: PciNetDevice)
    ensures d in Matching(devices, s) <==> d in devices && Matches(s, d)
  {
    SelectMember(devices, d => Matches(s, d), d);
  }

  /** The stages in the order of the source. */
  function Stages(s: Selectors): seq<DeviceSelector> {
    [VendorSelector(s.vendors), DeviceIdSelector(s.deviceIds), DriverSelector(s.drivers),
     IfNameSelector(s.ifNames), LinkTypeSelector(s.linkTypes)]
  }

  ghost predicate StageAccepts(stage: DeviceSelector, dev: PciNetDevice) {
    stage.values != [] ==> stage.Accepts(dev)
  }

  /** What the stages leave over, one after the other; a stage without values is skipped. */
  ghost function RunStages(devices: seq<PciNetDevice>, stages: seq<DeviceSelector>): seq<PciNetDevice>
    decreases |stages|
  {
    if stages == [] then devices else RunStages(Staged(devices, stages[0]), stages[1..])
  }

  ghost function Staged(devices: seq<PciNetDevice>, stage: DeviceSelector): seq<PciNetDevice> {
    if stage.values == [] then devices else Select(devices, stage.Accepts)
  }

  /** Any list of stages is one selection by all of them. */
  lemma {:induction false} StagesAreOneSelection(
      devices: seq<PciNetDevice>, stages: seq<DeviceSelector>, all: PciNetDevice -> bool)
    requires forall d :: all(d) <==> forall x :: x in stages ==> StageAccepts(x, d)
    ensures RunStages(devices, stages) == Select(devices, all)
    decreases |stages|
  {
    if stages == [] {
      SelectAll(devices, all);
    } else {
      var stage := stages[0];
      var rest := d => forall x :: x in stages[1..] ==> StageAccepts(x, d);
      StagesAreOneSelection(Staged(devices, stage), stages[1..], rest);
      forall d
        ensures all(d) <==> StageAccepts(stage, d) && rest(d)
      {
        assert forall x :: x in stages <==> x == stage || x in stages[1..];
      }
      if stage.values == [] {
        SelectAgrees(devices, rest, all);
      } else {
        SelectTwice(devices, stage.Accepts, rest, all);
      }
    }
  }

  lemma {:induction false} SelectAll(devices: seq<PciNetDevice>, test: PciNetDevice -> bool)
    requires forall d :: d in devices ==> test(d)
    ensures Select(devices, test) == devices
  {
    if devices != [] {
      SelectAll(devices[1..], test);
    }
  }

  /** The order of the stages does not matter, nor does repeating one. */
  lemma StageOrderIsIrrelevant(devices: seq<PciNetDevice>, a: seq<DeviceSelector>, b: seq<DeviceSelector>)
    requires forall x :: x in a <==> x in b
    ensures RunStages(devices, a) == RunStages(devices, b)
  {
    var all := d => forall x :: x in a ==> StageAccepts(x, d);
    StagesAreOneSelection(devices, a, all);
    StagesAreOneSelection(devices, b, all);
  }

  lemma StagesMatch(s: Selectors, dev: PciNetDevice)
    ensures (forall x :: x in Stages(s) ==> StageAccepts(x, dev)) <==> Matches(s, dev)
  {
    var stages := Stages(s);
    assert stages[0] in stages && stages[1] in stages && stages[2] in stages;
    assert stages[3] in stages && stages[4] in stages;
  }

  /** The five stages of the source are one order-preserving selection of the devices that match. */
  lemma PipelineIsSelection(devices: seq<PciNetDevice>, s: Selectors)
    ensures RunStages(devices, Stages(s)) == Matching(devices, s)
  {
    var all := d => Matches(s, d);
    forall d
      ensures all(d) <==> forall x :: x in Stages(s) ==> StageAccepts(x, d)
    {
      StagesMatch(s, d);
    }
    StagesAreOneSelection(devices, Stages(s), all);
    SelectAgrees(devices, all, d => Matches(s, d));
  }

  /** Filtering again changes nothing. */
  lemma FilteringIsIdempotent(devices: seq<PciNetDevice>, s: Selectors)
    ensures RunStages(RunStages(devices, Stages(s)), Stages(s)) == RunStages(devices, Stages(s))
  {
    var once := Matching(devices, s);
    PipelineIsSelection(devices, s);
    PipelineIsSelection(once, s);
    forall d | d in once
      ensures Matches(s, d)
    {
      MatchingMember(devices, s, d);
    }
    SelectAll(once, d => Matches(s, d));
  }

  method GetFilteredDevices(devices: seq<PciNetDevice>, s: Selectors) returns (filtered: seq<PciNetDevice>)
    ensures filtered == Matching(devices, s)
  {
    filtered := devices;
    ghost var stages := Stages(s);
    if |s.vendors| > 0 {
      filtered := VendorSelector(s.vendors).Filter(filtered);
    }
    assert RunStages(filtered, stages[1..]) == RunStages(devices, stages);
    if |s.deviceIds| > 0 {
      filtered := DeviceIdSelector(s.deviceIds).Filter(filtered);
    }
    assert stages[1..][1..] == stages[2..] && RunStages(filtered, stages[2..]) == RunStages(devices, stages);
    if |s.drivers| > 0 {
      filtered := DriverSelector(s.drivers).Filter(filtered);
    }
    assert stages[2..][1..] == stages[3..] && RunStages(filtered, stages[3..]) == RunStages(devices, stages);
    if |s.ifNames| > 0 {
      filtered := IfNameSelector(s.ifNames).Filter(filtered);
    }
    assert stages[3..][1..] == stages[4..] && RunStages(filtered, stages[4..]) == RunStages(devices, stages);
    if |s.linkTypes| > 0 {
      filtered := LinkTypeSelector(s.linkTypes).Filter(filtered);
    }
    assert stages[4..][1..] == [] && RunStages(filtered, []) == RunStages(devices, stages);
    PipelineIsSelection(devices, s);
  }
}
