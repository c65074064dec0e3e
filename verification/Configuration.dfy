/**
 The configuration of the resources (pkg/types/types.go) and what makes it acceptable
 (pkg/resources/resources_manager.go).
 */
module Configuration {
  import opened DeviceSelectors
  import opened PluginTypes
  import opened Wrappers

  datatype Config = Config(
    resourceName: string, resourcePrefix: string, rdmaHcaMax: int, devices: seq<string>, selectors: Selectors)

  /** A resource as the configuration file gives it; ValidateConfigs fills in its prefix and its selectors. */
  class UserConfig {
    const resourceName: string
    var resourcePrefix: string
    const rdmaHcaMax: int
    const devices: seq<string>
    var selectors: Selectors

    constructor (c: Config)
      ensures View() == c
    {
      resourceName, resourcePrefix, rdmaHcaMax := c.resourceName, c.resourcePrefix, c.rdmaHcaMax;
      devices, selectors := c.devices, c.selectors;
    }

    ghost function View(): Config
      reads this
    {
      Config(resourceName, resourcePrefix, rdmaHcaMax, devices, selectors)
    }
  }

  /** The regular expression ^[a-zA-Z0-9_]+$. */
  predicate ValidResourceName(name: string) {
    name != "" && forall n :: 0 <= n < |name| ==> IsWordChar(name[n])
  }

  /** The letters, the digits and the underscore of ASCII. */
  lemma WordChars(c: char)
    ensures IsWordChar(c) <==>
              var n := c as int;
              65 <= n < 65 + 26 || 97 <= n < 97 + 26 || 48 <= n < 48 + 10 || n == 95
  {
  }

  predicate IsWordChar(c: char) {
    'a' <= c <= 'z' || 'A' <= c <= 'Z' || '0' <= c <= '9' || c == '_'
  }

  predicate IsEmptySelector(s: Selectors) {
    s.vendors == [] && s.deviceIds == [] && s.drivers == [] && s.ifNames == [] && s.linkTypes == []
  }

  /** An empty selector is one that lets every device through. */
  lemma EmptySelectorIff(s: Selectors)
    ensures IsEmptySelector(s) <==> forall dev :: Matches(s, dev)
  {
    if !IsEmptySelector(s) {
      var other := Other(s.vendors + s.deviceIds + s.drivers + s.ifNames + s.linkTypes);
      var dev := PciNetDevice("", other, other, other, other, other, []);
      assert !Matches(s, dev);
    }
  }

  /** A text that is not in the list. */
  function Other(list: seq<string>): (text: string)
    ensures text !in list && forall n :: 0 <= n < |list| ==> |list[n]| < |text|
  {
    if list == [] then ""
    else
      var shorter := Other(list[1..]);
      if |list[0]| < |shorter| then shorter else list[0] + "x"
  }

  datatype ConfigError =
    | InvalidInterval
    | NoResources
    | InvalidName(at: nat)
    | RepeatedName(at: nat)
    | InvalidMax(at: nat)
    | NothingSelected(at: nat)
    | SelectedTwice(at: nat)

  /** A configuration by itself: a valid name, no negative number, and either selectors or devices. */
  ghost predicate Sound(c: Config) {
    && ValidResourceName(c.resourceName)
    && c.rdmaHcaMax >= 0
    && (IsEmptySelector(c.selectors) <==> c.devices != [])
  }

  ghost predicate DistinctNames(configs: seq<Config>) {
    forall m, n :: 0 <= m < n < |configs| ==> configs[m].resourceName != configs[n].resourceName
  }

  ghost predicate Acceptable(configs: seq<Config>) {
    DistinctNames(configs) && forall n :: 0 <= n < |configs| ==> Sound(configs[n])
  }

  /** What is wrong with the n-th configuration, given those before it; of several faults, the first in this order. */
  ghost function Fault(configs: seq<Config>, n: nat): (fault: Option<ConfigError>)
    requires n < |configs|
    ensures fault.Some? ==> !fault.value.InvalidInterval? && !fault.value.NoResources? && fault.value.at == n
  {
    var c := configs[n];
    if !ValidResourceName(c.resourceName) then Some(InvalidName(n))
    else if exists m :: 0 <= m < n && configs[m].resourceName == c.resourceName then Some(RepeatedName(n))
    else if c.rdmaHcaMax < 0 then Some(InvalidMax(n))
    else if IsEmptySelector(c.selectors) && c.devices == [] then Some(NothingSelected(n))
    else if !IsEmptySelector(c.selectors) && c.devices != [] then Some(SelectedTwice(n))
    else None
  }

  /** The error of the first faulty one among the first n configurations. */
  ghost function FirstFault(configs: seq<Config>, n: nat): (fault: Option<ConfigError>)
    requires n <= |configs|
    ensures fault.Some? ==> !fault.value.InvalidInterval? && !fault.value.NoResources? && fault.value.at < n
  {
    if n == 0 then None
    else if FirstFault(configs, n - 1).Some? then FirstFault(configs, n - 1)
    else Fault(configs, n - 1)
  }

  /** The validation's verdict. */
  ghost function Verdict(interval: int, configs: seq<Config>): Option<ConfigError> {
    if interval < 0 then Some(InvalidInterval)
    else if configs == [] then Some(NoResources)
    else FirstFault(configs, |configs|)
  }

  /** The configuration with what it leaves out filled in. */
  ghost function Completed(c: Config, prefix: string): Config {
    var d := WithPrefix(c, prefix);
    if IsEmptySelector(c.selectors) then d.(selectors := c.selectors.(ifNames := c.devices)) else d
  }

  ghost function WithPrefix(c: Config, prefix: string): Config {
    if c.resourcePrefix == "" then c.(resourcePrefix := prefix) else c
  }

  /**
   What validation makes of the n-th configuration. It stops at the first fault: the configurations before
   it are completed, and the faulty one has its prefix when its name is in order.
   */
  ghost function Validated(c: Config, prefix: string, n: nat, verdict: Option<ConfigError>): Config {
    if verdict.None? then Completed(c, prefix)
    else if verdict.value.InvalidInterval? || verdict.value.NoResources? then c
    else if n < verdict.value.at then Completed(c, prefix)
    else if n == verdict.value.at && !verdict.value.InvalidName? && !verdict.value.RepeatedName?
    then WithPrefix(c, prefix)
    else c
  }

  /**
   What a completed configuration selects: of a resource given by devices, the interfaces of these names; otherwise
   what its own selectors let through.
   */
  lemma CompletedSelects(c: Config, prefix: string, dev: PciNetDevice)
    requires Sound(c)
    ensures Matches(Completed(c, prefix).selectors, dev) <==>
              if c.devices != [] then dev.ifName in c.devices else Matches(c.selectors, dev)
    ensures c.devices == [] ==> Completed(c, prefix).selectors == c.selectors
  {
  }

  /** Everything else stays as it was given, except that the default stands in for a prefix left out. */
  lemma CompletedKeeps(c: Config, prefix: string)
    ensures
      var d := Completed(c, prefix);
      && d.resourceName == c.resourceName && d.rdmaHcaMax == c.rdmaHcaMax && d.devices == c.devices
      && (c.resourcePrefix != "" ==> d.resourcePrefix == c.resourcePrefix)
      && (c.resourcePrefix == "" ==> d.resourcePrefix == prefix)
  {
  }

  /**
   A validation that fails leaves the configurations after the faulty one alone, and of the faulty one at most
   fills in the prefix; one that refuses the interval or an empty list leaves everything alone.
   */
  lemma FailedValidationKeeps(c: Config, prefix: string, n: nat, fault: ConfigError)
    ensures
      var d := Validated(c, prefix, n, Some(fault));
      && (fault.InvalidInterval? || fault.NoResources? || n > fault.at ==> d == c)
      && (!fault.InvalidInterval? && !fault.NoResources? && n == fault.at ==>
            && d.selectors == c.selectors
            && (c.resourcePrefix != "" || fault.InvalidName? || fault.RepeatedName? ==> d == c))
  {
  }

  /** Which fault is reported: of several, the first in the order of the source. */
  lemma FaultIs(configs: seq<Config>, n: nat)
    requires n < |configs|
    ensures
      var c, fault := configs[n], Fault(configs, n);
      var named := ValidResourceName(c.resourceName);
      var repeated := exists m :: 0 <= m < n && configs[m].resourceName == c.resourceName;
      && (fault == Some(InvalidName(n)) <==> !named)
      && (fault == Some(RepeatedName(n)) <==> named && repeated)
      && (fault == Some(InvalidMax(n)) <==> named && !repeated && c.rdmaHcaMax < 0)
      && (fault == Some(NothingSelected(n)) <==>
            named && !repeated && c.rdmaHcaMax >= 0 && IsEmptySelector(c.selectors) && c.devices == [])
      && (fault == Some(SelectedTwice(n)) <==>
            named && !repeated && c.rdmaHcaMax >= 0 && !IsEmptySelector(c.selectors) && c.devices != [])
  {
  }

  ghost function AllCompleted(configs: seq<Config>, prefix: string): (r: seq<Config>)
    ensures |r| == |configs| && forall n :: 0 <= n < |r| ==> r[n] == Completed(configs[n], prefix)
  {
    seq(|configs|, n requires 0 <= n < |configs| => Completed(configs[n], prefix))
  }

  lemma {:induction false} NoFaultIff(configs: seq<Config>, n: nat)
    requires n <= |configs|
    ensures FirstFault(configs, n).None? <==> forall m :: 0 <= m < n ==> Fault(configs, m).None?
  {
    if n > 0 {
      NoFaultIff(configs, n - 1);
    }
  }

  /**
   Validation succeeds exactly for an acceptable, non-empty configuration with an interval that is not
   negative; the order in which it looks at the faults does not matter for that.
   */
  lemma AcceptedIff(interval: int, configs: seq<Config>)
    ensures Verdict(interval, configs).None? <==> interval >= 0 && configs != [] && Acceptable(configs)
  {
    NoFaultIff(configs, |configs|);
    if FirstFault(configs, |configs|).None? {
      forall n | 0 <= n < |configs|
        ensures Sound(configs[n])
        ensures forall m :: 0 <= m < n ==> configs[m].resourceName != configs[n].resourceName
      {
        assert Fault(configs, n).None?;
      }
    }
    if Acceptable(configs) {
      forall n | 0 <= n < |configs|
        ensures Fault(configs, n).None?
      {
        assert Sound(configs[n]);
      }
    }
  }

  /**
   Validation is not idempotent: an accepted configuration is accepted again, as validation left it, if and
   only if no resource is given by the deprecated list of devices. The second time the list is still
   there, beside the selectors that were filled in from it.
   */
  lemma AcceptedAgainIff(interval: int, configs: seq<Config>, prefix: string)
    requires Verdict(interval, configs).None?
    ensures Verdict(interval, AllCompleted(configs, prefix)).None?
            <==> forall n :: 0 <= n < |configs| ==> configs[n].devices == []
  {
    var again := AllCompleted(configs, prefix);
    AcceptedIff(interval, configs);
    AcceptedIff(interval, again);
    hide Verdict;
    forall n | 0 <= n < |configs|
      ensures Sound(again[n]) <==> configs[n].devices == []
      ensures again[n].resourceName == configs[n].resourceName
    {
      assert Sound(configs[n]);
    }
  }

  /** Such a configuration: one resource given by one device is accepted, and what validation makes of it is not. */
  lemma DevicesAreRefusedAgain(prefix: string, device: string)
    ensures
      var configs := [Config("hca", "", 1, [device], Selectors([], [], [], [], []))];
      && Verdict(0, configs).None?
      && Verdict(0, AllCompleted(configs, prefix)) == Some(SelectedTwice(0))
  {
    var configs := [Config("hca", "", 1, [device], Selectors([], [], [], [], []))];
    var again := AllCompleted(configs, prefix);
    assert configs[0].devices != [];
    assert Fault(configs, 0).None?;
    assert Fault(again, 0) == Some(SelectedTwice(0));
    assert FirstFault(configs, 0).None? && FirstFault(again, 0).None?;
    assert FirstFault(configs, 1).None? && FirstFault(again, 1) == Some(SelectedTwice(0));
  }
}
