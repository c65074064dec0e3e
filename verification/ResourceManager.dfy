/**
 The manager that validates the configuration, creates one resource server for each resource and updates
 the servers periodically (pkg/resources/resources_manager.go).
 */
module ResourceManager {
  import opened Configuration
  import opened DeviceSelectors
  import opened FilePaths
  import opened InventoryServer
  import opened PluginTypes
  import opened ProperListing
  import opened RdmaDevices
  import opened ResourceInventory
  import opened Wrappers

  const DEFAULT_KUBELET_ROOT_DIR := "/var/lib/kubelet"
  const KUBELET_PLUGIN_REGISTRY := "plugins_registry"
  const DEPRECATED_PLUGIN_REGISTRY := "device-plugins"

  datatype InitError = CleanupFailed | ServerFailed(error: ServerError)

  datatype SetupError = BadConfig(fault: ConfigError) | DiscoveryFailed | NotInitialized(error: InitError)

  /** What a resource with these selectors gets of the devices on the list. */
  ghost function DevicesFor(deviceList: seq<PciDevice>, host: Host, s: Selectors): seq<PciNetDevice> {
    Matching(AcceptedDevices(deviceList, host), s)
  }

  /** Some device on the list is usable and passes the selectors. */
  ghost predicate SomeDeviceFor(deviceList: seq<PciDevice>, host: Host, s: Selectors) {
    exists d :: d in deviceList && Usable(host(d)) && Passes(s, d, host(d))
  }

  /** An accepted device is described as it was found, and the selectors look at just that. */
  lemma DeviceIsAsFound(d: PciDevice, x: Details, s: Selectors)
    requires Accepted(x)
    ensures
      var dev := DeviceOf(d, x);
      && dev.pciAddress == d.address && dev.vendor == d.vendorId && dev.deviceId == d.productId
      && Some(dev.driver) == x.driver && dev.ifName == FirstName(x)
      && (if FirstName(x) == "" then dev.linkType == "" else Some(dev.linkType) == x.link)
      && dev.rdmaSpec == SpecsFor(CharDevices(x.rdmaDevices))
      && (Matches(s, dev) <==> Passes(s, d, x))
  {
  }

  /** A resource is given exactly the devices that describe an accepted one on the list that passes the selectors. */
  lemma DevicesForMember(deviceList: seq<PciDevice>, host: Host, s: Selectors, dev: PciNetDevice)
    ensures dev in DevicesFor(deviceList, host, s) <==>
              exists d :: d in deviceList && Accepted(host(d)) && Passes(s, d, host(d)) && dev == DeviceOf(d, host(d))
  {
    AcceptedDevicesHaveSpecs(deviceList, host);
    MatchingMember(AcceptedDevices(deviceList, host), s, dev);
    assert dev in AcceptedDevices(deviceList, host) <==> ComesFrom(dev, deviceList, host);
    forall d | Accepted(host(d))
      ensures Passes(s, d, host(d)) <==> Matches(s, DeviceOf(d, host(d)))
    {
      DeviceIsAsFound(d, host(d), s);
    }
    hide Accepted, Passes, Matches, DeviceOf;
  }

  lemma SomeDeviceIff(deviceList: seq<PciDevice>, host: Host, s: Selectors)
    ensures SomeDeviceFor(deviceList, host, s) <==> exists dev :: dev in DevicesFor(deviceList, host, s)
  {
    forall d
      ensures Usable(host(d)) <==> Accepted(host(d))
    {
      AcceptedIffUsable(host(d));
    }
    hide Accepted, Usable, Passes, DeviceOf, DevicesFor;
    if SomeDeviceFor(deviceList, host, s) {
      var d :| d in deviceList && Usable(host(d)) && Passes(s, d, host(d));
      DevicesForMember(deviceList, host, s, DeviceOf(d, host(d)));
    }
    if dev :| dev in DevicesFor(deviceList, host, s) {
      DevicesForMember(deviceList, host, s, dev);
    }
  }

  /** Because verification makes every accepted device's specs non-empty, no specs means no device. */
  lemma SpecsIffSomeDevice(deviceList: seq<PciDevice>, host: Host, s: Selectors)
    ensures AllSpecs(DevicesFor(deviceList, host, s)) != [] <==> SomeDeviceFor(deviceList, host, s)
    ensures Canonical(AllSpecs(DevicesFor(deviceList, host, s)))
  {
    var devices := DevicesFor(deviceList, host, s);
    SomeDeviceIff(deviceList, host, s);
    AcceptedDevicesHaveSpecs(deviceList, host);
    forall dev | dev in devices
      ensures dev.rdmaSpec != [] && Canonical(dev.rdmaSpec)
    {
      MatchingMember(AcceptedDevices(deviceList, host), s, dev);
    }
    forall spec
      ensures spec in AllSpecs(devices) <==> exists dev :: dev in devices && spec in dev.rdmaSpec
    {
      AllSpecsMember(devices, spec);
    }
    hide AllSpecs, DevicesFor, SomeDeviceFor;
    if dev :| dev in devices {
      assert dev.rdmaSpec[0] in AllSpecs(devices);
    }
    if AllSpecs(devices) != [] {
      assert AllSpecs(devices)[0] in AllSpecs(devices);
    }
  }

  ghost predicate NetworkDeviceFor(found: seq<PciDevice>, host: Host, s: Selectors) {
    exists d :: d in found && d.classId == Some(2) && Usable(host(d)) && Passes(s, d, host(d))
  }

  /** The device is one that this resource was configured for. */
  ghost predicate WantedBy(c: Config, d: PciDevice, x: Details) {
    if c.devices != [] then FirstName(x) in c.devices else Passes(c.selectors, d, x)
  }

  /** Some network device found is usable, and one that this resource was configured for. */
  ghost predicate DeviceWantedBy(c: Config, found: seq<PciDevice>, host: Host) {
    exists d :: d in found && d.classId == Some(2) && Usable(host(d)) && WantedBy(c, d, host(d))
  }

  /** What validation fills in makes no difference to that. */
  lemma WantedAsGiven(c: Config, prefix: string, found: seq<PciDevice>, host: Host)
    requires Sound(c)
    ensures NetworkDeviceFor(found, host, Completed(c, prefix).selectors) <==> DeviceWantedBy(c, found, host)
  {
    forall d
      ensures Passes(Completed(c, prefix).selectors, d, host(d)) <==> WantedBy(c, d, host(d))
    {
    }
    hide Passes, WantedBy, Usable, Completed;
  }

  lemma DeviceForNetworks(found: seq<PciDevice>, host: Host, s: Selectors)
    ensures SomeDeviceFor(Networks(found), host, s) <==> NetworkDeviceFor(found, host, s)
  {
    forall d
      ensures d in Networks(found) <==> d in found && IsNetwork(d)
    {
      NetworksMember(found, d);
    }
  }

  /** However the inventory was before, an update makes it as large as there are devices for it. */
  lemma UpdateAdvertises(inv: Inventory, max: nat, deviceList: seq<PciDevice>, host: Host, s: Selectors)
    requires Consistent(inv, max)
    ensures
      |Updated(inv, max, AllSpecs(DevicesFor(deviceList, host, s))).devs|
      == if SomeDeviceFor(deviceList, host, s) then max else 0
  {
    SpecsIffSomeDevice(deviceList, host, s);
  }

  // ---------- many ticks ----------

  /** A successful discovery, and what the host says of the devices when it is the n-th server's turn. */
  datatype Discovery = Discovery(found: seq<PciDevice>, hosts: nat -> Host)

  /** What a discovery passes on to server n with these selectors. */
  ghost function SpecsFrom(d: Discovery, n: nat, s: Selectors): seq<DeviceSpec> {
    AllSpecs(DevicesFor(Networks(d.found), d.hosts(n), s))
  }

  /** What the successful ones among the discoveries pass on, in order. */
  ghost function UpdatesFrom(ticks: seq<Option<Discovery>>, n: nat, s: Selectors): seq<seq<DeviceSpec>> {
    if ticks == [] then []
    else
      var last := ticks[|ticks| - 1];
      UpdatesFrom(ticks[..|ticks| - 1], n, s) + if last.Some? then [SpecsFrom(last.value, n, s)] else []
  }

  /** What the goroutine of PeriodicUpdate receives: a tick, with its discovery if that succeeds, or the stop. */
  datatype PeriodicEvent = Ticked(tick: Option<Discovery>) | StopRequest

  /** The ticks before the first request to stop. */
  ghost function TicksOf(events: seq<PeriodicEvent>): (ticks: seq<Option<Discovery>>)
    ensures |ticks| <= |events| && forall n :: 0 <= n < |ticks| ==> events[n] == Ticked(ticks[n])
    ensures |ticks| < |events| ==> events[|ticks|] == StopRequest
  {
    if events == [] || events[0] == StopRequest then [] else [events[0].tick] + TicksOf(events[1..])
  }

  lemma TicksOfNext(ticks: seq<Option<Discovery>>, events: seq<PeriodicEvent>, k: nat)
    requires k < |events|
    ensures events[0..] == events
    ensures events[k] == StopRequest ==> ticks + TicksOf(events[k..]) == ticks
    ensures events[k].Ticked? ==>
              ticks + TicksOf(events[k..]) == ticks + [events[k].tick] + TicksOf(events[k + 1..])
  {
    assert events[k..][0] == events[k] && events[k..][1..] == events[k + 1..];
  }

  lemma TicksOfAll(ticks: seq<Option<Discovery>>, events: seq<PeriodicEvent>)
    ensures ticks + TicksOf(events[|events|..]) == ticks
  {
  }

  /** The inventory of server n after the ticks. */
  ghost function AfterTicks(inv: Inventory, max: nat, ticks: seq<Option<Discovery>>, n: nat, s: Selectors): Inventory {
    After(inv, max, UpdatesFrom(ticks, n, s))
  }

  lemma {:induction false} UpdatesAreCanonical(ticks: seq<Option<Discovery>>, n: nat, s: Selectors)
    ensures forall u :: u in UpdatesFrom(ticks, n, s) ==> Canonical(u)
  {
    if ticks != [] {
      var last := ticks[|ticks| - 1];
      UpdatesAreCanonical(ticks[..|ticks| - 1], n, s);
      if last.Some? {
        SpecsIffSomeDevice(Networks(last.value.found), last.value.hosts(n), s);
      }
    }
  }

  lemma AfterOneMore(
      inv: Inventory, max: nat, ticks: seq<Option<Discovery>>, tick: Option<Discovery>, n: nat, s: Selectors)
    ensures AfterTicks(inv, max, [], n, s) == inv
    ensures AfterTicks(inv, max, ticks + [tick], n, s)
            == if tick.None? then AfterTicks(inv, max, ticks, n, s)
               else Updated(AfterTicks(inv, max, ticks, n, s), max, SpecsFrom(tick.value, n, s))
  {
    var before := UpdatesFrom(ticks, n, s);
    assert (ticks + [tick])[..|ticks|] == ticks;
    if tick.Some? {
      var update := SpecsFrom(tick.value, n, s);
      assert UpdatesFrom(ticks + [tick], n, s) == before + [update];
      assert (before + [update])[..|before|] == before;
    } else {
      assert UpdatesFrom(ticks + [tick], n, s) == before;
    }
  }

  /**
   After any ticks the last of which found the devices, a server serves exactly the specs of those that its
   selectors let through - also where the update was skipped as unchanged - if and only if what it served
   before does not mask them.
   */
  lemma LastTickIsServedIff(
      specs: seq<DeviceSpec>, max: nat, ticks: seq<Option<Discovery>>, last: Discovery, n: nat, s: Selectors)
    requires Canonical(specs)
    ensures
      var wanted := SpecsFrom(last, n, s);
      var before := AfterTicks(Built(max, specs), max, ticks, n, s);
      var after := AfterTicks(Built(max, specs), max, ticks + [Some(last)], n, s);
      SpecSet(after.deviceSpec) == SpecSet(wanted) <==> !Masked(before.deviceSpec, wanted)
  {
    var before := AfterTicks(Built(max, specs), max, ticks, n, s);
    AfterOneMore(Built(max, specs), max, ticks, Some(last), n, s);
    UpdatesAreCanonical(ticks, n, s);
    AfterIsCanonical(Built(max, specs), max, UpdatesFrom(ticks, n, s));
    SpecsIffSomeDevice(Networks(last.found), last.hosts(n), s);
    UpdateIsFreshIff(before, max, SpecsFrom(last, n, s));
  }

  /** No RDMA device is listed twice, whether for one PCI device or for two. */
  ghost predicate ListsOnce(d: Discovery, n: nat, common: string) {
    Unshared(RdmaDevicesOf(Networks(d.found), d.hosts(n)), common)
  }

  lemma SpecsFromAreProper(d: Discovery, n: nat, s: Selectors, common: string)
    requires ListsOnce(d, n, common)
    ensures Proper(SpecsFrom(d, n, s), common)
  {
    var accepted := AcceptedDevices(Networks(d.found), d.hosts(n));
    AcceptedAreProper(Networks(d.found), d.hosts(n), common);
    MatchingIsProper(accepted, s, common);
    ProperDevicesList(DevicesFor(Networks(d.found), d.hosts(n), s), common);
  }

  lemma MatchingIsProper(devices: seq<PciNetDevice>, s: Selectors, common: string)
    requires ProperDevices(devices, common)
    ensures ProperDevices(Matching(devices, s), common)
  {
    SelectionIsProper(devices, d => Matches(s, d), common);
  }

  lemma {:induction false} TicksKeepProper(
      specs: seq<DeviceSpec>, max: nat, ticks: seq<Option<Discovery>>, n: nat, s: Selectors, common: string)
    requires Proper(specs, common)
    requires forall k :: 0 <= k < |ticks| && ticks[k].Some? ==> ListsOnce(ticks[k].value, n, common)
    ensures Proper(AfterTicks(Built(max, specs), max, ticks, n, s).deviceSpec, common)
  {
    hide Proper, ListsOnce, AfterTicks, SpecsFrom;
    if ticks == [] {
      AfterOneMore(Built(max, specs), max, [], None, n, s);
    } else {
      var init, last := ticks[..|ticks| - 1], ticks[|ticks| - 1];
      TicksKeepProper(specs, max, init, n, s, common);
      AfterOneMore(Built(max, specs), max, init, last, n, s);
      assert ticks == init + [last];
      if last.Some? {
        SpecsFromAreProper(last.value, n, s, common);
      }
    }
  }

  /**
   Freshness. If no discovery lists an RDMA device twice, then after any ticks the last of which found the
   devices, a server serves exactly the specs of those that its selectors let through.
   */
  lemma LastTickIsServed(
      specs: seq<DeviceSpec>, max: nat, ticks: seq<Option<Discovery>>, last: Discovery, n: nat, s: Selectors,
      common: string)
    requires Canonical(specs) && Proper(specs, common) && ListsOnce(last, n, common)
    requires forall k :: 0 <= k < |ticks| && ticks[k].Some? ==> ListsOnce(ticks[k].value, n, common)
    ensures
      SpecSet(AfterTicks(Built(max, specs), max, ticks + [Some(last)], n, s).deviceSpec)
      == SpecSet(SpecsFrom(last, n, s))
  {
    TicksKeepProper(specs, max, ticks, n, s, common);
    SpecsFromAreProper(last, n, s, common);
    ProperIsExact(AfterTicks(Built(max, specs), max, ticks, n, s).deviceSpec, SpecsFrom(last, n, s), common);
    LastTickIsServedIff(specs, max, ticks, last, n, s);
  }

  // ---------- socket paths ----------

  /** A valid name followed by the suffix is one directory entry: it has no slash and is not made of dots. */
  lemma SocketNameIsEntry(name: string)
    requires ValidResourceName(name)
    ensures IsEntry(name + SOCKET_SUFFIX)
  {
    var socketName := name + SOCKET_SUFFIX;
    assert forall n :: 0 <= n < |name| ==> socketName[n] == name[n] && IsWordChar(name[n]);
    assert forall n :: |name| <= n < |socketName| ==> socketName[n] == SOCKET_SUFFIX[n - |name|];
    assert socketName[0] != '.';
  }

  /** Different valid names have different socket paths, whatever the directory. */
  lemma SocketPathsInjective(sockDir: string, a: string, b: string)
    requires ValidResourceName(a) && ValidResourceName(b)
    requires Join(sockDir, a + SOCKET_SUFFIX) == Join(sockDir, b + SOCKET_SUFFIX)
    ensures a == b
  {
    SocketNameIsEntry(a);
    SocketNameIsEntry(b);
    JoinInjective(sockDir, a + SOCKET_SUFFIX, b + SOCKET_SUFFIX);
    assert a == (a + SOCKET_SUFFIX)[..|a|];
    assert b == (b + SOCKET_SUFFIX)[..|b|];
  }

  lemma SocketPathsDiffer(sockDir: string, a: string, b: string)
    requires ValidResourceName(a) && ValidResourceName(b) && a != b
    ensures Join(sockDir, a + SOCKET_SUFFIX) != Join(sockDir, b + SOCKET_SUFFIX)
  {
    if Join(sockDir, a + SOCKET_SUFFIX) == Join(sockDir, b + SOCKET_SUFFIX) {
      SocketPathsInjective(sockDir, a, b);
    }
  }

  lemma NamesAreDistinct(interval: int, configs: seq<Config>, m: nat, n: nat)
    requires Verdict(interval, configs).None? && m < n < |configs|
    ensures ValidResourceName(configs[m].resourceName) && ValidResourceName(configs[n].resourceName)
    ensures configs[m].resourceName != configs[n].resourceName
  {
    AcceptedIff(interval, configs);
    assert Sound(configs[m]) && Sound(configs[n]);
  }

  /** An accepted configuration, completed with a prefix that is not empty, is what every resource server needs. */
  lemma CompletedIsServable(interval: int, configs: seq<Config>, prefix: string, n: nat)
    requires Verdict(interval, configs).None? && prefix != "" && n < |configs|
    ensures Completed(configs[n], prefix).rdmaHcaMax >= 0 && Completed(configs[n], prefix).resourcePrefix != ""
  {
    AcceptedIff(interval, configs);
  }

  // ---------- the manager ----------

  class ResourceManager {
    const defaultResourcePrefix: string
    const kubeletRootDir: string
    const watchMode: bool
    const useCdi: bool
    const periodicUpdateInterval: int
    var configList: seq<UserConfig>
    var resourceServers: seq<ResourceServer>
    var deviceList: seq<PciDevice>

    constructor (prefix: string, root: string, watchMode: bool, useCdi: bool, interval: int, configs: seq<Config>)
      ensures Valid() && Views() == configs && resourceServers == [] && deviceList == []
      ensures defaultResourcePrefix == prefix && kubeletRootDir == root
      ensures this.watchMode == watchMode && this.useCdi == useCdi && periodicUpdateInterval == interval
      ensures fresh(configList)
    {
      defaultResourcePrefix, kubeletRootDir, this.watchMode, this.useCdi := prefix, root, watchMode, useCdi;
      periodicUpdateInterval := interval;
      resourceServers, deviceList := [], [];
      var list: seq<UserConfig> := [];
      for n := 0 to |configs|
        invariant |list| == n && fresh(list)
        invariant forall m :: 0 <= m < n ==> list[m].View() == configs[m]
        invariant forall m, k :: 0 <= m < k < n ==> list[m] != list[k]
      {
        var c := new UserConfig(configs[n]);
        list := list + [c];
      }
      configList := list;
    }

    /** Each resource has its own configuration object and each server its own state. */
    ghost predicate Valid()
      reads this, resourceServers
    {
      && (forall m, n :: 0 <= m < n < |configList| ==> configList[m] != configList[n])
      && (forall m, n :: 0 <= m < n < |resourceServers| ==> resourceServers[m] != resourceServers[n])
      && forall n :: 0 <= n < |resourceServers| ==> resourceServers[n].Valid()
    }

    ghost function Views(): (views: seq<Config>)
      reads this, configList
      ensures |views| == |configList| && forall n :: 0 <= n < |views| ==> views[n] == configList[n].View()
    {
      seq(|configList|, n requires 0 <= n < |configList| reads this, configList => configList[n].View())
    }

    method ValidateConfigs() returns (err: Option<ConfigError>)
      requires Valid()
      modifies configList
      ensures Valid()
      ensures err == Verdict(periodicUpdateInterval, old(Views()))
      ensures forall n :: 0 <= n < |configList| ==>
                configList[n].View() == Validated(old(configList[n].View()), defaultResourcePrefix, n, err)
    {
      hide ResourceServer.Valid, Fault, Completed, WithPrefix, ValidResourceName, IsEmptySelector;
      ghost var configs := Views();
      if periodicUpdateInterval < 0 {
        return Some(InvalidInterval);
      }
      if |configList| < 1 {
        return Some(NoResources);
      }
      var names: map<string, string> := map[];
      for n := 0 to |configList|
        invariant FirstFault(configs, n).None?
        invariant names.Keys == set m | 0 <= m < n :: configs[m].resourceName
        invariant forall m :: 0 <= m < |configList| ==>
                    configList[m].View() == if m < n then Completed(configs[m], defaultResourcePrefix) else configs[m]
      {
        FaultIsVerdict(configs, n);
        err := ValidateConfig(configList[n], n, names, configs);
        if err.Some? {
          return err;
        }
        names := names[configList[n].resourceName := configList[n].resourceName];
      }
      return None;
    }

    /** The body of its loop. */
    method ValidateConfig(conf: UserConfig, n: nat, names: map<string, string>, ghost configs: seq<Config>)
      returns (err: Option<ConfigError>)
      requires n < |configs| && conf.View() == configs[n]
      requires conf.resourceName in names <==> exists m :: 0 <= m < n && configs[m].resourceName == conf.resourceName
      modifies conf
      ensures err == Fault(configs, n)
      ensures conf.View() == Validated(old(conf.View()), defaultResourcePrefix, n, err)
    {
      if !ValidResourceName(conf.resourceName) {
        return Some(InvalidName(n));
      }
      if conf.resourceName in names {
        return Some(RepeatedName(n));
      }
      if conf.resourcePrefix == "" {
        conf.resourcePrefix := defaultResourcePrefix;
      }
      if conf.rdmaHcaMax < 0 {
        return Some(InvalidMax(n));
      }
      var isEmptySelector := IsEmptySelector(conf.selectors);
      if isEmptySelector && |conf.devices| == 0 {
        return Some(NothingSelected(n));
      }
      if !isEmptySelector && |conf.devices| > 0 {
        return Some(SelectedTwice(n));
      } else if isEmptySelector {
        conf.selectors := conf.selectors.(ifNames := conf.devices);
      }
      return None;
    }

    function SockDir(): string {
      if watchMode then Join(kubeletRootDir, KUBELET_PLUGIN_REGISTRY)
      else Join(DEFAULT_KUBELET_ROOT_DIR, DEPRECATED_PLUGIN_REGISTRY)
    }

    /** The network devices of a successful discovery replace the list; a failed one leaves it. */
    method DiscoverDevices(found: Option<seq<PciDevice>>) returns (ok: bool)
      modifies this`deviceList
      ensures ok == found.Some?
      ensures deviceList == if found.Some? then Networks(found.value) else old(deviceList)
    {
      if found.None? {
        return false;
      }
      deviceList := DiscoverHostDevices(found.value);
      return true;
    }

    method SelectDiscovered(host: Host, s: Selectors) returns (filtered: seq<PciNetDevice>)
      ensures filtered == DevicesFor(deviceList, host, s)
    {
      var devices := GetDevices(deviceList, host);
      filtered := GetFilteredDevices(devices, s);
    }

    /** What keeps a resource from getting its server; cleanup: with CDI, the old CDI specs could be removed. */
    ghost function InitFault(config: UserConfig, cleanup: bool): Option<InitError>
      reads config
    {
      if useCdi && !cleanup then Some(CleanupFailed)
      else if config.rdmaHcaMax < 0 then Some(ServerFailed(NegativeMax))
      else if config.resourcePrefix == "" then Some(ServerFailed(EmptyPrefix))
      else None
    }

    /** The server belongs to this configuration. */
    ghost predicate Aligned(rs: ResourceServer, config: UserConfig)
      reads config
    {
      && rs.rdmaHcaMax == config.rdmaHcaMax && rs.useCdi == useCdi
      && rs.resourceName == config.resourcePrefix + "/" + config.resourceName
      && rs.socketName == config.resourceName + SOCKET_SUFFIX
      && rs.socketPath == Join(SockDir(), rs.socketName)
    }

    /** And has the inventory that the devices on the list make. */
    ghost predicate Initialized(rs: ResourceServer, config: UserConfig, host: Host)
      reads this`deviceList, rs, config
    {
      && Aligned(rs, config)
      && rs.View() == Built(rs.rdmaHcaMax, AllSpecs(DevicesFor(deviceList, host, config.selectors)))
      && rs.pciDevices == DevicesFor(deviceList, host, config.selectors)
    }

    method InitServer(config: UserConfig, cleanup: bool, host: Host, ghost streams: nat)
      returns (rs: ResourceServer?, err: Option<InitError>)
      ensures err == InitFault(config, cleanup)
      ensures rs == null <==> err.Some?
      ensures rs != null ==> fresh(rs) && rs.Valid() && Initialized(rs, config, host)
    {
      var filtered := SelectDiscovered(host, config.selectors);
      if useCdi && !cleanup {
        return null, Some(CleanupFailed);
      }
      var fault;
      rs, fault := NewResourceServer(config, filtered, SockDir(), useCdi, streams);
      err := if fault.Some? then Some(ServerFailed(fault.value)) else None;
    }

    /** One server for each resource, in order, up to the first that fails; made lists them. */
    method InitServers(cleanups: seq<bool>, hosts: nat -> Host, ghost streams: nat)
      returns (err: Option<InitError>, ghost made: seq<ResourceServer>)
      requires Valid() && |cleanups| == |configList|
      modifies this`resourceServers
      ensures Valid() && resourceServers == old(resourceServers) + made && |made| <= |configList|
      ensures forall n :: 0 <= n < |made| ==>
                && InitFault(configList[n], cleanups[n]).None?
                && fresh(made[n]) && Initialized(made[n], configList[n], hosts(n))
      ensures if |made| == |configList| then err.None?
              else err.Some? && err == InitFault(configList[|made|], cleanups[|made|])
    {
      hide ResourceServer.Valid, InitFault, Initialized;
      made := [];
      for n := 0 to |configList|
        invariant Valid() && resourceServers == old(resourceServers) + made && |made| == n
        invariant forall m :: 0 <= m < n ==>
                    && InitFault(configList[m], cleanups[m]).None?
                    && fresh(made[m]) && Initialized(made[m], configList[m], hosts(m))
      {
        var rs, fault := InitServer(configList[n], cleanups[n], hosts(n), streams);
        if rs == null {
          return fault, made;
        }
        resourceServers := resourceServers + [rs];
        made := made + [rs];
      }
      return None, made;
    }

    /**
     What the program does before it starts the servers. Once the configuration is accepted and the default
     prefix is not empty, nothing but the removal of old CDI specs keeps a server from being made. Then server
     n belongs to configuration n - so that PeriodicUpdate may index one list by the other - and advertises what
     that configuration, as it was given, asks for; and no two servers have the same socket path.
     */
    method Prepare(found: Option<seq<PciDevice>>, hosts: nat -> Host, cleanups: seq<bool>, ghost streams: nat)
      returns (err: Option<SetupError>)
      requires Valid() && resourceServers == [] && |cleanups| == |configList|
      modifies this`resourceServers, this`deviceList, configList
      ensures Valid() && configList == old(configList)
      ensures var verdict := Verdict(periodicUpdateInterval, old(Views()));
              if verdict.Some? then err == Some(BadConfig(verdict.value))
              else if found.None? then err == Some(DiscoveryFailed)
              else err.None? || err.value.NotInitialized?
      ensures err.Some? && err.value.NotInitialized? && defaultResourcePrefix != "" ==>
                err.value.error == CleanupFailed && useCdi && false in cleanups
      ensures err.None? ==>
                && |resourceServers| == |configList| && !(useCdi && false in cleanups)
                && (forall n :: 0 <= n < |configList| ==>
                      && Aligned(resourceServers[n], configList[n])
                      && ServesAsGiven(resourceServers[n], old(configList[n].View()), found.value, hosts(n)))
                && (forall m, n :: 0 <= m < n < |configList| ==>
                      resourceServers[m].socketPath != resourceServers[n].socketPath)
    {
      hide ResourceServer.Valid, Verdict, Completed, Aligned, Initialized, InitFault, ServesAsGiven;
      ghost var configs := Views();
      var fault := ValidateConfigs();
      if fault.Some? {
        return Some(BadConfig(fault.value));
      }
      var ok := DiscoverDevices(found);
      if !ok {
        return Some(DiscoveryFailed);
      }
      var failure := InitValidated(hosts, cleanups, streams, configs, found.value);
      if failure.Some? {
        return Some(NotInitialized(failure.value));
      }
      return None;
    }

    /** InitServers after a successful validation and discovery. */
    method InitValidated(
        hosts: nat -> Host, cleanups: seq<bool>, ghost streams: nat, ghost configs: seq<Config>,
        ghost found: seq<PciDevice>)
      returns (err: Option<InitError>)
      requires Valid() && resourceServers == [] && |cleanups| == |configList| == |configs|
      requires Verdict(periodicUpdateInterval, configs).None? && deviceList == Networks(found)
      requires forall n :: 0 <= n < |configList| ==>
                 configList[n].View() == Completed(configs[n], defaultResourcePrefix)
      modifies this`resourceServers
      ensures Valid()
      ensures err.Some? && defaultResourcePrefix != "" ==>
                err.value == CleanupFailed && useCdi && false in cleanups
      ensures err.None? ==>
                && |resourceServers| == |configList| && !(useCdi && false in cleanups)
                && (forall n :: 0 <= n < |configList| ==>
                      && Aligned(resourceServers[n], configList[n])
                      && ServesAsGiven(resourceServers[n], configs[n], found, hosts(n)))
                && (forall m, n :: 0 <= m < n < |configList| ==>
                      resourceServers[m].socketPath != resourceServers[n].socketPath)
    {
      hide ResourceServer.Valid, Verdict, Completed, Aligned, Initialized, InitFault, ServesAsGiven;
      ghost var made;
      err, made := InitServers(cleanups, hosts, streams);
      assert resourceServers == made;
      if err.Some? {
        FaultIsCleanup(configs, |resourceServers|, cleanups);
      } else {
        PreparedAsGiven(configs, found, hosts);
        PreparedPathsDiffer(configs);
        NoFaultIsClean(cleanups);
      }
    }

    /**
     The server does what its configuration asks for, as it was given: its names, its socket, and its full number of
     units exactly if some usable network device found is one that it was configured for.
     */
    ghost predicate ServesAsGiven(rs: ResourceServer, c: Config, found: seq<PciDevice>, host: Host)
      reads rs
    {
      && rs.rdmaHcaMax == c.rdmaHcaMax
      && rs.resourceName == (if c.resourcePrefix == "" then defaultResourcePrefix else c.resourcePrefix)
                            + "/" + c.resourceName
      && rs.socketName == c.resourceName + ".sock"
      && (!watchMode ==> rs.socketPath == "/var/lib/kubelet/device-plugins" + "/" + (c.resourceName + ".sock"))
      && (watchMode && CleanDirectory(kubeletRootDir) ==>
            rs.socketPath == kubeletRootDir + "/" + "plugins_registry" + "/" + (c.resourceName + ".sock"))
      && |rs.devs| == if DeviceWantedBy(c, found, host) then c.rdmaHcaMax else 0
    }

    lemma SocketDirectory(name: string)
      requires ValidResourceName(name)
      ensures !watchMode ==>
                Join(SockDir(), name + ".sock") == "/var/lib/kubelet/device-plugins" + "/" + (name + ".sock")
      ensures watchMode && CleanDirectory(kubeletRootDir) ==>
                Join(SockDir(), name + ".sock") == kubeletRootDir + "/" + "plugins_registry" + "/" + (name + ".sock")
    {
      SocketNameIsEntry(name);
      if watchMode && CleanDirectory(kubeletRootDir) {
        JoinAppends(kubeletRootDir, "plugins_registry");
        JoinAppends(kubeletRootDir + "/" + "plugins_registry", name + ".sock");
      }
      DefaultDirectory();
      hide CleanDirectory;
      JoinAppends("/var/lib/kubelet/device-plugins", name + ".sock");
    }

    lemma DefaultDirectory()
      ensures CleanDirectory("/var/lib/kubelet/device-plugins")
      ensures Join(DEFAULT_KUBELET_ROOT_DIR, DEPRECATED_PLUGIN_REGISTRY) == "/var/lib/kubelet/device-plugins"
    {
      hide CleanDirectory, Join;
      OneEntryIsClean("var");
      Spelled("/var", "/", "var");
      JoinAppends("/var", "lib");
      Spelled("/var/lib", "/var/", "lib");
      Spelled("/var/", "/var", "/");
      JoinAppends("/var/lib", "kubelet");
      Spelled("/var/lib/kubelet", "/var/lib/", "kubelet");
      Spelled("/var/lib/", "/var/lib", "/");
      JoinAppends("/var/lib/kubelet", "device-plugins");
      Spelled("/var/lib/kubelet/device-plugins", "/var/lib/kubelet/", "device-plugins");
      Spelled("/var/lib/kubelet/", "/var/lib/kubelet", "/");
    }

    lemma Spelled(whole: string, front: string, back: string)
      requires |whole| == |front| + |back|
      requires forall n :: 0 <= n < |front| ==> whole[n] == front[n]
      requires forall n :: 0 <= n < |back| ==> whole[|front| + n] == back[n]
      ensures whole == front + back
    {
    }

    lemma InitializedAsGiven(
        rs: ResourceServer, config: UserConfig, c: Config, found: seq<PciDevice>, host: Host)
      requires Initialized(rs, config, host) && deviceList == Networks(found)
      requires Sound(c) && config.View() == Completed(c, defaultResourcePrefix)
      ensures Aligned(rs, config) && ServesAsGiven(rs, c, found, host)
    {
      InitializedAdvertises(rs, config, found, host);
      WantedAsGiven(c, defaultResourcePrefix, found, host);
      SocketDirectory(c.resourceName);
      CompletedKeeps(c, defaultResourcePrefix);
      hide Completed, DeviceWantedBy, NetworkDeviceFor, SockDir, CleanDirectory;
    }

    lemma PreparedAsGiven(configs: seq<Config>, found: seq<PciDevice>, hosts: nat -> Host)
      requires |resourceServers| == |configList| == |configs| && deviceList == Networks(found)
      requires Verdict(periodicUpdateInterval, configs).None?
      requires forall n :: 0 <= n < |configList| ==>
                 && Initialized(resourceServers[n], configList[n], hosts(n))
                 && configList[n].View() == Completed(configs[n], defaultResourcePrefix)
      ensures forall n :: 0 <= n < |configList| ==>
                && Aligned(resourceServers[n], configList[n])
                && ServesAsGiven(resourceServers[n], configs[n], found, hosts(n))
    {
      AcceptedIff(periodicUpdateInterval, configs);
      hide Completed, Initialized, Aligned, ServesAsGiven, Verdict;
      forall n | 0 <= n < |configList|
        ensures Aligned(resourceServers[n], configList[n])
        ensures ServesAsGiven(resourceServers[n], configs[n], found, hosts(n))
      {
        InitializedAsGiven(resourceServers[n], configList[n], configs[n], found, hosts(n));
      }
    }

    lemma NoFaultIsClean(cleanups: seq<bool>)
      requires |cleanups| == |configList|
      requires forall n :: 0 <= n < |configList| ==> InitFault(configList[n], cleanups[n]).None?
      ensures !(useCdi && false in cleanups)
    {
    }

    lemma PreparedPathsDiffer(configs: seq<Config>)
      requires |resourceServers| == |configList| == |configs| && Verdict(periodicUpdateInterval, configs).None?
      requires forall n :: 0 <= n < |configList| ==>
                 && Aligned(resourceServers[n], configList[n])
                 && configList[n].View() == Completed(configs[n], defaultResourcePrefix)
      ensures forall m, n :: 0 <= m < n < |configList| ==>
                resourceServers[m].socketPath != resourceServers[n].socketPath
    {
      forall m, n | 0 <= m < n < |configList|
        ensures resourceServers[m].socketPath != resourceServers[n].socketPath
      {
        NamesAreDistinct(periodicUpdateInterval, configs, m, n);
        CompletedKeeps(configs[m], defaultResourcePrefix);
        CompletedKeeps(configs[n], defaultResourcePrefix);
        AlignedPathsDiffer(resourceServers[m], configList[m], resourceServers[n], configList[n]);
      }
    }

    lemma FaultIsCleanup(configs: seq<Config>, n: nat, cleanups: seq<bool>)
      requires Verdict(periodicUpdateInterval, configs).None? && n < |configs| == |configList| == |cleanups|
      requires configList[n].View() == Completed(configs[n], defaultResourcePrefix)
      ensures defaultResourcePrefix != "" && InitFault(configList[n], cleanups[n]).Some? ==>
                InitFault(configList[n], cleanups[n]).value == CleanupFailed && useCdi && false in cleanups
    {
      if defaultResourcePrefix != "" {
        CompletedIsServable(periodicUpdateInterval, configs, defaultResourcePrefix, n);
      }
    }

    lemma AlignedPathsDiffer(a: ResourceServer, c: UserConfig, b: ResourceServer, d: UserConfig)
      requires Aligned(a, c) && Aligned(b, d) && c.resourceName != d.resourceName
      requires ValidResourceName(c.resourceName) && ValidResourceName(d.resourceName)
      ensures a.socketPath != b.socketPath
    {
      SocketPathsDiffer(SockDir(), c.resourceName, d.resourceName);
    }

    lemma InitializedAdvertises(rs: ResourceServer, config: UserConfig, found: seq<PciDevice>, host: Host)
      requires Initialized(rs, config, host) && deviceList == Networks(found)
      ensures Aligned(rs, config)
      ensures |rs.devs| == if NetworkDeviceFor(found, host, config.selectors) then config.rdmaHcaMax else 0
    {
      DeviceForNetworks(found, host, config.selectors);
      SpecsIffSomeDevice(deviceList, host, config.selectors);
    }

    /** The server has been given the devices on the list that its selectors let through. */
    ghost predicate Refreshed(rs: ResourceServer, s: Selectors, host: Host, inv: Inventory)
      reads this`deviceList, rs
    {
      var specs := AllSpecs(DevicesFor(deviceList, host, s));
      && rs.View() == Updated(inv, rs.rdmaHcaMax, specs)
      && (Changed(inv.deviceSpec, specs) ==> rs.updateResource)
      && |rs.devs| == if SomeDeviceFor(deviceList, host, s) then rs.rdmaHcaMax else 0
    }

    method RefreshServer(rs: ResourceServer, s: Selectors, host: Host)
      requires rs.Valid()
      modifies rs
      ensures rs.Valid() && Refreshed(rs, s, host, old(rs.View()))
    {
      var filtered := SelectDiscovered(host, s);
      UpdateAdvertises(rs.View(), rs.rdmaHcaMax, deviceList, host, s);
      rs.UpdateDevices(filtered);
    }

    /**
     One tick of PeriodicUpdate; None: the discovery fails. A failed one changes nothing; after a successful one
     each server has been given what its own selectors let through, and advertises its full number of units when
     that is some network device found, and none otherwise.
     */
    method PeriodicUpdateTick(tick: Option<Discovery>)
      requires Valid() && |resourceServers| <= |configList|
      modifies this`deviceList, resourceServers
      ensures Valid()
      ensures tick.None? ==> deviceList == old(deviceList) && forall rs :: rs in resourceServers ==> unchanged(rs)
      ensures tick.Some? ==>
                && deviceList == Networks(tick.value.found)
                && forall n :: 0 <= n < |resourceServers| ==>
                     var rs, s, host := resourceServers[n], configList[n].selectors, tick.value.hosts(n);
                     && Refreshed(rs, s, host, old(rs.View()))
                     && |rs.devs| == if NetworkDeviceFor(tick.value.found, host, s) then rs.rdmaHcaMax else 0
    {
      hide ResourceServer.Valid, Refreshed, NetworkDeviceFor, SomeDeviceFor;
      var ok := DiscoverDevices(if tick.Some? then Some(tick.value.found) else None);
      if !ok {
        return;
      }
      var hosts := tick.value.hosts;
      for n := 0 to |resourceServers|
        invariant Valid() && deviceList == Networks(tick.value.found)
        invariant forall m :: 0 <= m < n ==>
                    Refreshed(resourceServers[m], configList[m].selectors, hosts(m), old(resourceServers[m].View()))
        invariant forall m :: n <= m < |resourceServers| ==> unchanged(resourceServers[m])
      {
        RefreshServer(resourceServers[n], configList[n].selectors, hosts(n));
      }
      forall n | 0 <= n < |resourceServers|
        ensures
          var rs, s := resourceServers[n], configList[n].selectors;
          |rs.devs| == if NetworkDeviceFor(tick.value.found, hosts(n), s) then rs.rdmaHcaMax else 0
      {
        var rs := resourceServers[n];
        RefreshedAdvertises(rs, configList[n].selectors, hosts(n), old(rs.View()), tick.value.found);
      }
    }

    lemma RefreshedAdvertises(rs: ResourceServer, s: Selectors, host: Host, inv: Inventory, found: seq<PciDevice>)
      requires Refreshed(rs, s, host, inv) && deviceList == Networks(found)
      ensures |rs.devs| == if NetworkDeviceFor(found, host, s) then rs.rdmaHcaMax else 0
    {
      DeviceForNetworks(found, host, s);
    }

    lemma RefreshedIsUpdated(rs: ResourceServer, s: Selectors, d: Discovery, n: nat, inv: Inventory)
      requires Refreshed(rs, s, d.hosts(n), inv) && deviceList == Networks(d.found)
      ensures rs.View() == Updated(inv, rs.rdmaHcaMax, SpecsFrom(d, n, s))
    {
    }

    /**
     The goroutine of PeriodicUpdate, if there is one, up to the request to stop: each server goes through the
     updates that its selectors make of the discoveries.
     */
    method PeriodicUpdate(events: seq<PeriodicEvent>)
      requires Valid() && |resourceServers| <= |configList|
      modifies this`deviceList, resourceServers
      ensures Valid()
      ensures
        var ticks := if periodicUpdateInterval > 0 then TicksOf(events) else [];
        forall n :: 0 <= n < |resourceServers| ==>
          var rs := resourceServers[n];
          rs.View() == AfterTicks(old(rs.View()), rs.rdmaHcaMax, ticks, n, configList[n].selectors)
    {
      hide ResourceServer.Valid, Through, TicksOf;
      ghost var start := seq(|resourceServers|, n requires 0 <= n < |resourceServers| reads this, resourceServers =>
                               resourceServers[n].View());
      ghost var ticks: seq<Option<Discovery>> := [];
      ThroughNothing(start);
      if periodicUpdateInterval > 0 {
        for k := 0 to |events|
          invariant Valid() && Through(start, ticks) && ticks + TicksOf(events[k..]) == TicksOf(events)
        {
          TicksOfNext(ticks, events, k);
          if events[k] == StopRequest {
            break;
          }
          GoThrough(start, ticks, events[k].tick);
          ticks := ticks + [events[k].tick];
        }
        TicksOfAll(ticks, events);
      }
      ThroughMeans(start, ticks);
    }

    /** Server n has gone from inventory n through the ticks. */
    ghost predicate Through(start: seq<Inventory>, ticks: seq<Option<Discovery>>)
      reads this, resourceServers, configList
    {
      && |start| == |resourceServers| <= |configList|
      && forall n :: 0 <= n < |resourceServers| ==>
           var rs := resourceServers[n];
           rs.View() == AfterTicks(start[n], rs.rdmaHcaMax, ticks, n, configList[n].selectors)
    }

    lemma ThroughMeans(start: seq<Inventory>, ticks: seq<Option<Discovery>>)
      requires Through(start, ticks)
      ensures |start| == |resourceServers| <= |configList|
      ensures forall n :: 0 <= n < |resourceServers| ==>
                var rs := resourceServers[n];
                rs.View() == AfterTicks(start[n], rs.rdmaHcaMax, ticks, n, configList[n].selectors)
    {
    }

    lemma ThroughNothing(start: seq<Inventory>)
      requires |start| == |resourceServers| <= |configList|
      requires forall n :: 0 <= n < |start| ==> start[n] == resourceServers[n].View()
      ensures Through(start, [])
    {
      hide AfterTicks;
      forall n | 0 <= n < |start|
        ensures start[n] == AfterTicks(start[n], resourceServers[n].rdmaHcaMax, [], n, configList[n].selectors)
      {
        AfterOneMore(start[n], resourceServers[n].rdmaHcaMax, [], None, n, configList[n].selectors);
      }
    }

    method GoThrough(ghost start: seq<Inventory>, ghost ticks: seq<Option<Discovery>>, tick: Option<Discovery>)
      requires Valid() && Through(start, ticks)
      modifies this`deviceList, resourceServers
      ensures Valid() && Through(start, ticks + [tick])
    {
      hide ResourceServer.Valid, AfterTicks, SpecsFrom, NetworkDeviceFor, SomeDeviceFor, Refreshed, Networks;
      PeriodicUpdateTick(tick);
      forall n | 0 <= n < |resourceServers|
        ensures
          var rs, s := resourceServers[n], configList[n].selectors;
          rs.View() == AfterTicks(start[n], rs.rdmaHcaMax, ticks + [tick], n, s)
      {
        var rs, s := resourceServers[n], configList[n].selectors;
        assert rs in resourceServers;
        AfterOneMore(start[n], rs.rdmaHcaMax, ticks, tick, n, s);
        if tick.Some? {
          RefreshedIsUpdated(rs, s, tick.value, n, AfterTicks(start[n], rs.rdmaHcaMax, ticks, n, s));
        }
      }
    }
  }

  // ---------- from discovery to container ----------

  /**
   Whatever the host goes through, after a successful discovery a container of server n is given exactly the specs
   of the devices that were found and pass the selectors, without CDI and if no discovery lists an RDMA device
   twice. specs is what the server was made with.
   */
  method UpdateThenAllocate(
      rm: ResourceManager, events: seq<PeriodicEvent>, n: nat, requests: nat,
      ghost specs: seq<DeviceSpec>, ghost ticks: seq<Option<Discovery>>, ghost last: Discovery, ghost common: string)
      returns (responses: Option<seq<ContainerResponse>>)
    requires rm.Valid() && n < |rm.resourceServers| <= |rm.configList| && rm.periodicUpdateInterval > 0
    requires !rm.resourceServers[n].useCdi
    requires rm.resourceServers[n].View() == Built(rm.resourceServers[n].rdmaHcaMax, specs)
    requires Canonical(specs) && Proper(specs, common)
    requires TicksOf(events) == ticks + [Some(last)] && ListsOnce(last, n, common)
    requires forall k :: 0 <= k < |ticks| && ticks[k].Some? ==> ListsOnce(ticks[k].value, n, common)
    modifies rm`deviceList, rm.resourceServers
    ensures responses.Some? && |responses.value| == requests
    ensures forall k :: 0 <= k < requests ==>
              SpecSet(responses.value[k].devices) == SpecSet(SpecsFrom(last, n, rm.configList[n].selectors))
  {
    hide ResourceServer.Valid, AfterTicks, SpecsFrom, ListsOnce, Proper, Canonical, Built, TicksOf, SpecSet;
    rm.PeriodicUpdate(events);
    var rs := rm.resourceServers[n];
    LastTickIsServed(specs, rs.rdmaHcaMax, ticks, last, n, rm.configList[n].selectors, common);
    responses := rs.Allocate(requests, seq(requests, _ => None));
  }

  lemma {:induction false} FirstFaultStays(configs: seq<Config>, m: nat, n: nat)
    requires m <= n <= |configs| && FirstFault(configs, m).Some?
    ensures FirstFault(configs, n) == FirstFault(configs, m)
    decreases n
  {
    if m < n {
      FirstFaultStays(configs, m, n - 1);
    }
  }

  lemma FaultIsVerdict(configs: seq<Config>, n: nat)
    requires n < |configs| && FirstFault(configs, n).None?
    ensures Fault(configs, n).Some? ==> FirstFault(configs, |configs|) == Fault(configs, n)
  {
    if Fault(configs, n).Some? {
      FirstFaultStays(configs, n + 1, |configs|);
    }
  }
}
