/**
  The calico-vpp agent's configuration package: the process-wide settings
  with their defaults, and `LoadConfig`, which reads them from the
  environment one variable after another and stops at the first invalid
  value, keeping whatever it had already assigned.

  `Load` states the whole loader as a function of the old settings and the
  environment; `AgentConfig.LoadConfig` is the loader written the way the
  source writes it, assignment by assignment, and is proved to compute
  exactly `Load`.
*/
module Config {
  import opened Wrappers
  import opened GoStrings
  import opened GoStrconv
  import opened Logrus

  /** The VPP interface index the main uplink must receive. */
  const DataInterfaceSwIfIndex: nat := 1

  const NodeNameEnvVar: string := "NODENAME"
  const TapNumRxQueuesEnvVar: string := "CALICOVPP_TAP_RX_QUEUES"
  const TapNumTxQueuesEnvVar: string := "CALICOVPP_TAP_TX_QUEUES"
  const TapGSOEnvVar: string := "CALICOVPP_DEBUG_ENABLE_GSO"
  const EnableServicesEnvVar: string := "CALICOVPP_DEBUG_ENABLE_NAT"
  const EnablePoliciesEnvVar: string := "CALICOVPP_DEBUG_ENABLE_POLICIES"
  const CrossIpsecTunnelsEnvVar: string := "CALICOVPP_IPSEC_CROSS_TUNNELS"
  const EnableIPSecEnvVar: string := "CALICOVPP_IPSEC_ENABLED"
  const IPSecExtraAddressesEnvVar: string := "CALICOVPP_IPSEC_ASSUME_EXTRA_ADDRESSES"
  const IPSecIkev2PskEnvVar: string := "CALICOVPP_IPSEC_IKEV2_PSK"
  const TapRxModeEnvVar: string := "CALICOVPP_TAP_RX_MODE"
  const TapQueueSizeEnvVar: string := "CALICOVPP_TAP_RING_SIZE"
  const TapMtuEnvVar: string := "CALICOVPP_TAP_MTU"
  const BgpLogLevelEnvVar: string := "CALICO_BGP_LOGSEVERITYSCREEN"
  const LogLevelEnvVar: string := "CALICO_LOG_LEVEL"
  const ServicePrefixEnvVar: string := "SERVICE_PREFIX"

  /** Marker that makes an environment variable one the agent should know. */
  const AgentVarMarker: string := "CALICOVPP_"

  /** Every variable `LoadConfig` reads, in the order it reads them. */
  const ReadOrder: seq<string> := [
    BgpLogLevelEnvVar, LogLevelEnvVar, NodeNameEnvVar,
    TapNumRxQueuesEnvVar, TapNumTxQueuesEnvVar, TapGSOEnvVar,
    EnableIPSecEnvVar, CrossIpsecTunnelsEnvVar, EnableServicesEnvVar,
    EnablePoliciesEnvVar, IPSecExtraAddressesEnvVar, TapMtuEnvVar,
    TapQueueSizeEnvVar, IPSecIkev2PskEnvVar, ServicePrefixEnvVar,
    TapRxModeEnvVar]

  /** The receive modes of a VPP tap (the source's spelling kept). */
  datatype RxMode = Polling | Interrupt | Adaptative

  const DefaultRxMode: RxMode := Adaptative

  /** A parsed network prefix, as `net.ParseCIDR` returns it. */
  datatype IPNet = IPNet(ip: seq<bv8>, mask: seq<bv8>)

  /** `net.ParseCIDR`, taken as a parameter: `None` is its error. */
  type CidrParser = string -> Option<IPNet>

  /** The package-level settings, as one value. */
  datatype Settings = Settings(
    TapNumRxQueues: int,
    TapNumTxQueues: int,
    TapGSOEnabled: bool,
    EnableServices: bool,
    EnablePolicies: bool,
    EnableIPSec: bool,
    IpsecAddressCount: int,
    CrossIpsecTunnels: bool,
    IPSecIkev2Psk: string,
    TapRxMode: RxMode,
    BgpLogLevel: Level,
    LogLevel: Level,
    NodeName: string,
    ServiceCIDRs: seq<IPNet>,
    TapRxQueueSize: int,
    TapTxQueueSize: int,
    TapMtu: int)

  /** The initial values of the package-level settings. */
  const Defaults: Settings := Settings(
    TapNumRxQueues := 1,
    TapNumTxQueues := 1,
    TapGSOEnabled := true,
    EnableServices := true,
    EnablePolicies := true,
    EnableIPSec := false,
    IpsecAddressCount := 1,
    CrossIpsecTunnels := false,
    IPSecIkev2Psk := "",
    TapRxMode := DefaultRxMode,
    BgpLogLevel := InfoLevel,
    LogLevel := InfoLevel,
    NodeName := "",
    ServiceCIDRs := [],
    TapRxQueueSize := 0,
    TapTxQueueSize := 0,
    TapMtu := 0)

  /**
    The process environment: the value of each set variable, and the names
    in the order `os.Environ` lists them.
  */
  datatype Environment = Environment(vars: map<string, string>, names: seq<string>)

  /** `os.Getenv`: the value, or the empty string when the variable is unset. */
  function Getenv(env: Environment, name: string): string
  {
    if name in env.vars then env.vars[name] else ""
  }

  datatype ConfigError =
    | InvalidValue(variable: string, value: string)
    | PskNotConfigured
    | InvalidServicePrefix(prefix: string)

  /** What the loader logs without failing. */
  datatype Diagnostic =
    | BadLogLevel(variable: string, value: string)
    | UnsupportedVariable(name: string)

  /**
    The loader's state after some prefix of its steps: the settings, the
    names read so far (the keys of `supportedEnvVars`), what it logged, and
    the error it stopped with, if any.
  */
  datatype Progress = Progress(settings: Settings, supported: set<string>, diagnostics: seq<Diagnostic>, error: Option<ConfigError>)
  {
    predicate IsFailure()
    {
      error.Some?
    }

    function PropagateFailure(): Progress
      requires IsFailure()
    {
      this
    }

    function Extract(): Progress
      requires !IsFailure()
    {
      this
    }
  }

  function Read(p: Progress, name: string): Progress
  {
    p.(supported := p.supported + {name})
  }

  /**
    A guarded variable that is set and parses gives its setting the parsed
    value; unset, or set to something that does not parse, it leaves `current`.
  */
  function Guarded<T>(conf: string, parsed: Option<T>, current: T): T
  {
    if conf != "" && parsed.Some? then parsed.value else current
  }

  /** A guarded variable that is set but does not parse stops the loader with an error naming it. */
  function Verdict<T>(p: Progress, name: string, conf: string, parsed: Option<T>): Option<ConfigError>
  {
    if conf != "" && parsed.None? then Some(InvalidValue(name, conf)) else p.error
  }

  /** A level variable that is set and parses replaces `current`; otherwise `current` stays. */
  function LevelSetting(conf: string, current: Level): Level
  {
    Guarded(conf, ParseLevel(conf), current)
  }

  /** A level variable that is set but does not parse is logged, never fatal. */
  function LevelReport(name: string, conf: string): seq<Diagnostic>
  {
    if conf != "" && ParseLevel(conf).None? then [BadLogLevel(name, conf)] else []
  }

  function BgpLogLevelStage(p: Progress, env: Environment): Progress
  {
    var conf := Getenv(env, BgpLogLevelEnvVar);
    Read(p, BgpLogLevelEnvVar).(
      settings := p.settings.(BgpLogLevel := LevelSetting(conf, p.settings.BgpLogLevel)),
      diagnostics := p.diagnostics + LevelReport(BgpLogLevelEnvVar, conf))
  }

  function LogLevelStage(p: Progress, env: Environment): Progress
  {
    var conf := Getenv(env, LogLevelEnvVar);
    Read(p, LogLevelEnvVar).(
      settings := p.settings.(LogLevel := LevelSetting(conf, p.settings.LogLevel)),
      diagnostics := p.diagnostics + LevelReport(LogLevelEnvVar, conf))
  }

  function NodeNameStage(p: Progress, env: Environment): Progress
  {
    Read(p, NodeNameEnvVar).(settings := p.settings.(NodeName := Getenv(env, NodeNameEnvVar)))
  }

  /** A queue count: a 16-bit base-10 integer that is positive. */
  function QueueCount(conf: string): (r: Option<int>)
    ensures r.Some? ==> 0 < r.value < 0x8000 && ParseInt(conf, 16) == r
  {
    var q := ParseInt(conf, 16);
    if q.Some? && q.value > 0 then q else None
  }

  function RxQueuesStage(p: Progress, env: Environment): Progress
  {
    var conf := Getenv(env, TapNumRxQueuesEnvVar);
    Read(p, TapNumRxQueuesEnvVar).(
      settings := p.settings.(TapNumRxQueues := Guarded(conf, QueueCount(conf), p.settings.TapNumRxQueues)),
      error := Verdict(p, TapNumRxQueuesEnvVar, conf, QueueCount(conf)))
  }

  function TxQueuesStage(p: Progress, env: Environment): Progress
  {
    var conf := Getenv(env, TapNumTxQueuesEnvVar);
    Read(p, TapNumTxQueuesEnvVar).(
      settings := p.settings.(TapNumTxQueues := Guarded(conf, QueueCount(conf), p.settings.TapNumTxQueues)),
      error := Verdict(p, TapNumTxQueuesEnvVar, conf, QueueCount(conf)))
  }

  function GsoStage(p: Progress, env: Environment): Progress
  {
    var conf := Getenv(env, TapGSOEnvVar);
    Read(p, TapGSOEnvVar).(
      settings := p.settings.(TapGSOEnabled := Guarded(conf, ParseBool(conf), p.settings.TapGSOEnabled)),
      error := Verdict(p, TapGSOEnvVar, conf, ParseBool(conf)))
  }

  function IPSecStage(p: Progress, env: Environment): Progress
  {
    var conf := Getenv(env, EnableIPSecEnvVar);
    Read(p, EnableIPSecEnvVar).(
      settings := p.settings.(EnableIPSec := Guarded(conf, ParseBool(conf), p.settings.EnableIPSec)),
      error := Verdict(p, EnableIPSecEnvVar, conf, ParseBool(conf)))
  }

  function CrossTunnelsStage(p: Progress, env: Environment): Progress
  {
    var conf := Getenv(env, CrossIpsecTunnelsEnvVar);
    Read(p, CrossIpsecTunnelsEnvVar).(
      settings := p.settings.(CrossIpsecTunnels := Guarded(conf, ParseBool(conf), p.settings.CrossIpsecTunnels)),
      error := Verdict(p, CrossIpsecTunnelsEnvVar, conf, ParseBool(conf)))
  }

  function ServicesStage(p: Progress, env: Environment): Progress
  {
    var conf := Getenv(env, EnableServicesEnvVar);
    Read(p, EnableServicesEnvVar).(
      settings := p.settings.(EnableServices := Guarded(conf, ParseBool(conf), p.settings.EnableServices)),
      error := Verdict(p, EnableServicesEnvVar, conf, ParseBool(conf)))
  }

  function PoliciesStage(p: Progress, env: Environment): Progress
  {
    var conf := Getenv(env, EnablePoliciesEnvVar);
    Read(p, EnablePoliciesEnvVar).(
      settings := p.settings.(EnablePolicies := Guarded(conf, ParseBool(conf), p.settings.EnablePolicies)),
      error := Verdict(p, EnablePoliciesEnvVar, conf, ParseBool(conf)))
  }

  /** The extra-address count is an 8-bit integer; the setting counts the node's own address too. */
  function AddressCount(conf: string): (r: Option<int>)
    ensures r.Some? ==> -127 <= r.value <= 128
  {
    match ParseInt(conf, 8)
    case None => None
    case Some(n) => Some(n + 1)
  }

  function ExtraAddressesStage(p: Progress, env: Environment): Progress
  {
    var conf := Getenv(env, IPSecExtraAddressesEnvVar);
    Read(p, IPSecExtraAddressesEnvVar).(
      settings := p.settings.(IpsecAddressCount := Guarded(conf, AddressCount(conf), p.settings.IpsecAddressCount)),
      error := Verdict(p, IPSecExtraAddressesEnvVar, conf, AddressCount(conf)))
  }

  function MtuStage(p: Progress, env: Environment): Progress
  {
    var conf := Getenv(env, TapMtuEnvVar);
    Read(p, TapMtuEnvVar).(
      settings := p.settings.(TapMtu := Guarded(conf, ParseInt(conf, 32), p.settings.TapMtu)),
      error := Verdict(p, TapMtuEnvVar, conf, ParseInt(conf, 32)))
  }

  /**
    The receive ring size the ring-size variable yields: its first field,
    when there are one or two fields and the first parses as a 32-bit size.
  */
  function RxRingSize(conf: string): Option<int>
  {
    var sizes := Split(conf, ',');
    if |sizes| <= 2 then ParseInt(sizes[0], 32) else None
  }

  /**
    The transmit ring size: the only field, or the second of two when both
    parse. When this is `None` for a set variable the loader fails.
  */
  function TxRingSize(conf: string): Option<int>
  {
    var sizes := Split(conf, ',');
    if |sizes| == 1 then ParseInt(sizes[0], 32)
    else if |sizes| == 2 && ParseInt(sizes[0], 32).Some? then ParseInt(sizes[1], 32)
    else None
  }

  /**
    The ring size is one 32-bit size for both directions, or "rx,tx". In the
    second form the receive size is assigned before the transmit size is
    parsed, so a bad transmit size leaves the new receive size behind.
  */
  function RingSizeStage(p: Progress, env: Environment): Progress
  {
    var conf := Getenv(env, TapQueueSizeEnvVar);
    Read(p, TapQueueSizeEnvVar).(
      settings := p.settings.(
        TapRxQueueSize := Guarded(conf, RxRingSize(conf), p.settings.TapRxQueueSize),
        TapTxQueueSize := Guarded(conf, TxRingSize(conf), p.settings.TapTxQueueSize)),
      error := Verdict(p, TapQueueSizeEnvVar, conf, TxRingSize(conf)))
  }

  /** IPsec is on and no pre-shared key is configured. */
  predicate MissingPsk(p: Progress, psk: string)
  {
    p.settings.EnableIPSec && psk == ""
  }

  /** The pre-shared key is always read and stored, and must be set when IPsec is on. */
  function PskStage(p: Progress, env: Environment): Progress
  {
    var psk := Getenv(env, IPSecIkev2PskEnvVar);
    Read(p, IPSecIkev2PskEnvVar).(
      settings := p.settings.(IPSecIkev2Psk := if MissingPsk(p, psk) then p.settings.IPSecIkev2Psk else psk),
      error := if MissingPsk(p, psk) then Some(PskNotConfigured) else p.error)
  }

  /** The prefixes parsed before the first entry that does not parse, and that entry. */
  datatype PrefixScan = PrefixScan(parsed: seq<IPNet>, rejected: Option<string>)

  /**
    Parses comma-separated entries in order up to the first one
    `parseCidr` rejects.
  */
  function ParsePrefixes(entries: seq<string>, parseCidr: CidrParser): (r: PrefixScan)
    ensures |r.parsed| <= |entries|
    ensures forall k :: 0 <= k < |r.parsed| ==> parseCidr(entries[k]) == Some(r.parsed[k])
    ensures r.rejected.None? ==> |r.parsed| == |entries|
    ensures r.rejected.Some? ==> |r.parsed| < |entries| && r.rejected.value == entries[|r.parsed|]
    ensures r.rejected.Some? ==> parseCidr(entries[|r.parsed|]).None?
  {
    if entries == [] then PrefixScan([], None)
    else match parseCidr(entries[0])
      case None => PrefixScan([], Some(entries[0]))
      case Some(net) =>
        var rest := ParsePrefixes(entries[1..], parseCidr);
        PrefixScan([net] + rest.parsed, rest.rejected)
  }

  /**
    Every entry of the variable is parsed and appended in order; the list is
    extended, never reset, and entries before a bad one stay appended.
  */
  function ServicePrefixStage(p: Progress, env: Environment, parseCidr: CidrParser): Progress
  {
    var conf := Getenv(env, ServicePrefixEnvVar);
    var scan := ParsePrefixes(Split(conf, ','), parseCidr);
    Read(p, ServicePrefixEnvVar).(
      settings := p.settings.(ServiceCIDRs := p.settings.ServiceCIDRs + scan.parsed),
      error := if scan.rejected.Some? then Some(InvalidServicePrefix(scan.rejected.value)) else p.error)
  }

  /** The tap receive mode named by the variable; anything else is the default. */
  function RxModeOf(conf: string): RxMode
  {
    match conf
    case "interrupt" => Interrupt
    case "polling" => Polling
    case "adaptive" => Adaptative
    case _ => DefaultRxMode
  }

  function RxModeStage(p: Progress, env: Environment): Progress
  {
    Read(p, TapRxModeEnvVar).(settings := p.settings.(TapRxMode := RxModeOf(Getenv(env, TapRxModeEnvVar))))
  }

  /** The agent's variables (names holding the marker) that the loader never read, in order. */
  function Unsupported(names: seq<string>, supported: set<string>): (warnings: seq<Diagnostic>)
    ensures |warnings| <= |names|
    decreases |names|
  {
    if names == [] then []
    else
      var last := names[|names| - 1];
      Unsupported(names[..|names| - 1], supported)
      + (if Contains(last, AgentVarMarker) && last !in supported then [UnsupportedVariable(last)] else [])
  }

  /**
    A warning is logged exactly for each name that holds the marker and was
    not read, and for nothing else.
  */
  lemma {:induction false} UnsupportedExactly(names: seq<string>, supported: set<string>)
    ensures forall d :: d in Unsupported(names, supported) <==>
      d.UnsupportedVariable? && d.name in names && Contains(d.name, AgentVarMarker) && d.name !in supported
    decreases |names|
  {
    if names != [] {
      var last := names[|names| - 1];
      UnsupportedExactly(names[..|names| - 1], supported);
      assert names == names[..|names| - 1] + [last];
    }
  }

  /** The log levels and the node name, which never stop the loader. */
  function LoggingStages(p: Progress, env: Environment): Progress
  {
    NodeNameStage(LogLevelStage(BgpLogLevelStage(p, env), env), env)
  }

  /** The tap queue counts and segmentation offload. */
  function QueueStages(p: Progress, env: Environment): Progress
  {
    var p :- RxQueuesStage(p, env);
    var p :- TxQueuesStage(p, env);
    GsoStage(p, env)
  }

  /** The four feature switches. */
  function SwitchStages(p: Progress, env: Environment): Progress
  {
    var p :- IPSecStage(p, env);
    var p :- CrossTunnelsStage(p, env);
    var p :- ServicesStage(p, env);
    PoliciesStage(p, env)
  }

  /** The IPsec address count, the tap MTU and the tap ring sizes. */
  function SizeStages(p: Progress, env: Environment): Progress
  {
    var p :- ExtraAddressesStage(p, env);
    var p :- MtuStage(p, env);
    RingSizeStage(p, env)
  }

  /** The IKEv2 key, the service prefixes and the receive mode. */
  function NetworkStages(p: Progress, env: Environment, parseCidr: CidrParser): Progress
  {
    var p :- PskStage(p, env);
    var p :- ServicePrefixStage(p, env, parseCidr);
    RxModeStage(p, env)
  }

  /**
    `LoadConfig` as a function of the settings it starts from: every
    guarded block in the source's order, stopping at the first that fails;
    on success, the warnings about unread agent variables come last.
  */
  function Load(s: Settings, env: Environment, parseCidr: CidrParser): Progress
  {
    var p := LoggingStages(Progress(s, {}, [], None), env);
    var p :- QueueStages(p, env);
    var p :- SwitchStages(p, env);
    var p :- SizeStages(p, env);
    var p :- NetworkStages(p, env, parseCidr);
    Finish(p, env)
  }

  /**
    After a successful run, warns about the agent variables that were never
    read: it only appends to the log, and a failed run is left as it is.
  */
  function Finish(p: Progress, env: Environment): (r: Progress)
    ensures r.settings == p.settings && r.supported == p.supported && r.error == p.error
    ensures |p.diagnostics| <= |r.diagnostics| <= |p.diagnostics| + |env.names|
    ensures r.diagnostics[..|p.diagnostics|] == p.diagnostics
    ensures p.IsFailure() ==> r == p
  {
    if p.IsFailure() then p
    else p.(diagnostics := p.diagnostics + Unsupported(env.names, p.supported))
  }

  /** The package-level variables of the configuration package. */
  class AgentConfig {
    var TapNumRxQueues: int
    var TapNumTxQueues: int
    var TapGSOEnabled: bool
    var EnableServices: bool
    var EnablePolicies: bool
    var EnableIPSec: bool
    var IpsecAddressCount: int
    var CrossIpsecTunnels: bool
    var IPSecIkev2Psk: string
    var TapRxMode: RxMode
    var BgpLogLevel: Level
    var LogLevel: Level
    var NodeName: string
    var ServiceCIDRs: seq<IPNet>
    var TapRxQueueSize: int
    var TapTxQueueSize: int
    var TapMtu: int
    /** The keys of the source's `supportedEnvVars` map (its values are always true). */
    var supportedEnvVars: set<string>

    function Snapshot(): Settings
      reads this
    {
      Settings(TapNumRxQueues, TapNumTxQueues, TapGSOEnabled, EnableServices, EnablePolicies,
               EnableIPSec, IpsecAddressCount, CrossIpsecTunnels, IPSecIkev2Psk, TapRxMode,
               BgpLogLevel, LogLevel, NodeName, ServiceCIDRs, TapRxQueueSize, TapTxQueueSize, TapMtu)
    }

    /** Package initialisation. */
    constructor ()
      ensures Snapshot() == Defaults && supportedEnvVars == {}
    {
      TapNumRxQueues, TapNumTxQueues := 1, 1;
      TapGSOEnabled, EnableServices, EnablePolicies := true, true, true;
      EnableIPSec, IpsecAddressCount, CrossIpsecTunnels := false, 1, false;
      IPSecIkev2Psk, TapRxMode := "", DefaultRxMode;
      BgpLogLevel, LogLevel, NodeName := InfoLevel, InfoLevel, "";
      ServiceCIDRs := [];
      TapRxQueueSize, TapTxQueueSize, TapMtu := 0, 0, 0;
      supportedEnvVars := {};
    }

    predicate IsEnvVarSupported(name: string)
      reads this
    {
      name in supportedEnvVars
    }

    /** Reads a variable and records that it was read. */
    method GetEnvValue(env: Environment, name: string) returns (value: string)
      modifies this`supportedEnvVars
      ensures supportedEnvVars == old(supportedEnvVars) + {name}
      ensures IsEnvVarSupported(name)
      ensures value == Getenv(env, name)
    {
      supportedEnvVars := supportedEnvVars + {name};
      value := Getenv(env, name);
    }

    /** The fields hold the settings, read-variable set and log of `p`. */
    predicate Tracks(p: Progress, diagnostics: seq<Diagnostic>)
      reads this
    {
      Snapshot() == p.settings && supportedEnvVars == p.supported && diagnostics == p.diagnostics
    }

    /**
      Loads the configuration from `env`. The settings, the read-variable
      set, the log and the error are exactly those of `Load` applied to the
      settings held before the call.
    */
    method LoadConfig(env: Environment, parseCidr: CidrParser) returns (err: Option<ConfigError>, diagnostics: seq<Diagnostic>)
      modifies this
      ensures Tracks(Load(old(Snapshot()), env, parseCidr), diagnostics)
      ensures err == Load(old(Snapshot()), env, parseCidr).error
    {
      supportedEnvVars := {};
      ghost var p := Progress(Snapshot(), {}, [], None);
      diagnostics := LoadLogging(env, p, []);
      p := LoggingStages(p, env);

      err := LoadQueues(env, p, diagnostics);
      p := QueueStages(p, env);
      if err.Some? { return; }

      err := LoadSwitches(env, p, diagnostics);
      p := SwitchStages(p, env);
      if err.Some? { return; }

      err := LoadSizes(env, p, diagnostics);
      p := SizeStages(p, env);
      if err.Some? { return; }

      err := LoadNetwork(env, parseCidr, p, diagnostics);
      p := NetworkStages(p, env, parseCidr);
      if err.Some? { return; }

      diagnostics := WarnUnsupported(env, diagnostics);
    }

    method LoadLogging(env: Environment, ghost p: Progress, diagnostics: seq<Diagnostic>) returns (logged: seq<Diagnostic>)
      requires Tracks(p, diagnostics) && p.error == None
      modifies this
      ensures Tracks(LoggingStages(p, env), logged) && LoggingStages(p, env).error == None
    {
      logged := LoadBgpLogLevel(env, p, diagnostics);
      ghost var q := BgpLogLevelStage(p, env);
      logged := LoadLogLevel(env, q, logged);
      q := LogLevelStage(q, env);
      LoadNodeName(env, q, logged);
    }

    method LoadQueues(env: Environment, ghost p: Progress, diagnostics: seq<Diagnostic>) returns (err: Option<ConfigError>)
      requires Tracks(p, diagnostics) && p.error == None
      modifies this
      ensures Tracks(QueueStages(p, env), diagnostics) && err == QueueStages(p, env).error
    {
      err := LoadTapNumRxQueues(env, p, diagnostics);
      ghost var q := RxQueuesStage(p, env);
      if err.Some? { return; }
      err := LoadTapNumTxQueues(env, q, diagnostics);
      q := TxQueuesStage(q, env);
      if err.Some? { return; }
      err := LoadTapGSO(env, q, diagnostics);
    }

    method LoadSwitches(env: Environment, ghost p: Progress, diagnostics: seq<Diagnostic>) returns (err: Option<ConfigError>)
      requires Tracks(p, diagnostics) && p.error == None
      modifies this
      ensures Tracks(SwitchStages(p, env), diagnostics) && err == SwitchStages(p, env).error
    {
      err := LoadEnableIPSec(env, p, diagnostics);
      ghost var q := IPSecStage(p, env);
      if err.Some? { return; }
      err := LoadCrossIpsecTunnels(env, q, diagnostics);
      q := CrossTunnelsStage(q, env);
      if err.Some? { return; }
      err := LoadEnableServices(env, q, diagnostics);
      q := ServicesStage(q, env);
      if err.Some? { return; }
      err := LoadEnablePolicies(env, q, diagnostics);
    }

    method LoadSizes(env: Environment, ghost p: Progress, diagnostics: seq<Diagnostic>) returns (err: Option<ConfigError>)
      requires Tracks(p, diagnostics) && p.error == None
      modifies this
      ensures Tracks(SizeStages(p, env), diagnostics) && err == SizeStages(p, env).error
    {
      err := LoadIpsecAddressCount(env, p, diagnostics);
      ghost var q := ExtraAddressesStage(p, env);
      if err.Some? { return; }
      err := LoadTapMtu(env, q, diagnostics);
      q := MtuStage(q, env);
      if err.Some? { return; }
      err := LoadTapQueueSize(env, q, diagnostics);
    }

    method LoadNetwork(env: Environment, parseCidr: CidrParser, ghost p: Progress, diagnostics: seq<Diagnostic>) returns (err: Option<ConfigError>)
      requires Tracks(p, diagnostics) && p.error == None
      modifies this
      ensures Tracks(NetworkStages(p, env, parseCidr), diagnostics) && err == NetworkStages(p, env, parseCidr).error
    {
      err := LoadIPSecIkev2Psk(env, p, diagnostics);
      ghost var q := PskStage(p, env);
      if err.Some? { return; }
      err := LoadServiceCIDRs(env, parseCidr, q, diagnostics);
      q := ServicePrefixStage(q, env, parseCidr);
      if err.Some? { return; }
      LoadTapRxMode(env, q, diagnostics);
    }

    method LoadBgpLogLevel(env: Environment, ghost p: Progress, diagnostics: seq<Diagnostic>) returns (logged: seq<Diagnostic>)
      requires Tracks(p, diagnostics) && p.error == None
      modifies this
      ensures Tracks(BgpLogLevelStage(p, env), logged)
    {
      logged := diagnostics;
      var conf := GetEnvValue(env, BgpLogLevelEnvVar);
      if conf != "" {
        var level := ParseLevel(conf);
        if level.None? {
          logged := logged + [BadLogLevel(BgpLogLevelEnvVar, conf)];
        } else {
          BgpLogLevel := level.value;
        }
      }
    }

    /** config.go:123-130: the agent's own log level, handled like the BGP one. */
    method LoadLogLevel(env: Environment, ghost p: Progress, diagnostics: seq<Diagnostic>) returns (logged: seq<Diagnostic>)
      requires Tracks(p, diagnostics) && p.error == None
      modifies this
      ensures Tracks(LogLevelStage(p, env), logged)
    {
      logged := diagnostics;
      var conf := GetEnvValue(env, LogLevelEnvVar);
      if conf != "" {
        var level := ParseLevel(conf);
        if level.None? {
          logged := logged + [BadLogLevel(LogLevelEnvVar, conf)];
        } else {
          LogLevel := level.value;
        }
      }
    }

    method LoadNodeName(env: Environment, ghost p: Progress, diagnostics: seq<Diagnostic>)
      requires Tracks(p, diagnostics) && p.error == None
      modifies this
      ensures Tracks(NodeNameStage(p, env), diagnostics)
    {
      NodeName := GetEnvValue(env, NodeNameEnvVar);
    }

    method LoadTapNumRxQueues(env: Environment, ghost p: Progress, diagnostics: seq<Diagnostic>) returns (err: Option<ConfigError>)
      requires Tracks(p, diagnostics) && p.error == None
      modifies this
      ensures Tracks(RxQueuesStage(p, env), diagnostics) && err == RxQueuesStage(p, env).error
    {
      err := None;
      var conf := GetEnvValue(env, TapNumRxQueuesEnvVar);
      if conf != "" {
        var queues := ParseInt(conf, 16);
        if queues.None? || queues.value <= 0 {
          err := Some(InvalidValue(TapNumRxQueuesEnvVar, conf));
          return;
        }
        TapNumRxQueues := queues.value;
      }
    }

    method LoadTapNumTxQueues(env: Environment, ghost p: Progress, diagnostics: seq<Diagnostic>) returns (err: Option<ConfigError>)
      requires Tracks(p, diagnostics) && p.error == None
      modifies this
      ensures Tracks(TxQueuesStage(p, env), diagnostics) && err == TxQueuesStage(p, env).error
    {
      err := None;
      var conf := GetEnvValue(env, TapNumTxQueuesEnvVar);
      if conf != "" {
        var queues := ParseInt(conf, 16);
        if queues.None? || queues.value <= 0 {
          err := Some(InvalidValue(TapNumTxQueuesEnvVar, conf));
          return;
        }
        TapNumTxQueues := queues.value;
      }
    }

    method LoadTapGSO(env: Environment, ghost p: Progress, diagnostics: seq<Diagnostic>) returns (err: Option<ConfigError>)
      requires Tracks(p, diagnostics) && p.error == None
      modifies this
      ensures Tracks(GsoStage(p, env), diagnostics) && err == GsoStage(p, env).error
    {
      err := None;
      var conf := GetEnvValue(env, TapGSOEnvVar);
      if conf != "" {
        var gso := ParseBool(conf);
        if gso.None? {
          err := Some(InvalidValue(TapGSOEnvVar, conf));
          return;
        }
        TapGSOEnabled := gso.value;
      }
    }

    method LoadEnableIPSec(env: Environment, ghost p: Progress, diagnostics: seq<Diagnostic>) returns (err: Option<ConfigError>)
      requires Tracks(p, diagnostics) && p.error == None
      modifies this
      ensures Tracks(IPSecStage(p, env), diagnostics) && err == IPSecStage(p, env).error
    {
      err := None;
      var conf := GetEnvValue(env, EnableIPSecEnvVar);
      if conf != "" {
        var enableIPSec := ParseBool(conf);
        if enableIPSec.None? {
          err := Some(InvalidValue(EnableIPSecEnvVar, conf));
          return;
        }
        EnableIPSec := enableIPSec.value;
      }
    }

    method LoadCrossIpsecTunnels(env: Environment, ghost p: Progress, diagnostics: seq<Diagnostic>) returns (err: Option<ConfigError>)
      requires Tracks(p, diagnostics) && p.error == None
      modifies this
      ensures Tracks(CrossTunnelsStage(p, env), diagnostics) && err == CrossTunnelsStage(p, env).error
    {
      err := None;
      var conf := GetEnvValue(env, CrossIpsecTunnelsEnvVar);
      if conf != "" {
        var crossIpsecTunnels := ParseBool(conf);
        if crossIpsecTunnels.None? {
          err := Some(InvalidValue(CrossIpsecTunnelsEnvVar, conf));
          return;
        }
        CrossIpsecTunnels := crossIpsecTunnels.value;
      }
    }

    method LoadEnableServices(env: Environment, ghost p: Progress, diagnostics: seq<Diagnostic>) returns (err: Option<ConfigError>)
      requires Tracks(p, diagnostics) && p.error == None
      modifies this
      ensures Tracks(ServicesStage(p, env), diagnostics) && err == ServicesStage(p, env).error
    {
      err := None;
      var conf := GetEnvValue(env, EnableServicesEnvVar);
      if conf != "" {
        var enableServices := ParseBool(conf);
        if enableServices.None? {
          err := Some(InvalidValue(EnableServicesEnvVar, conf));
          return;
        }
        EnableServices := enableServices.value;
      }
    }

    method LoadEnablePolicies(env: Environment, ghost p: Progress, diagnostics: seq<Diagnostic>) returns (err: Option<ConfigError>)
      requires Tracks(p, diagnostics) && p.error == None
      modifies this
      ensures Tracks(PoliciesStage(p, env), diagnostics) && err == PoliciesStage(p, env).error
    {
      err := None;
      var conf := GetEnvValue(env, EnablePoliciesEnvVar);
      if conf != "" {
        var enablePolicies := ParseBool(conf);
        if enablePolicies.None? {
          err := Some(InvalidValue(EnablePoliciesEnvVar, conf));
          return;
        }
        EnablePolicies := enablePolicies.value;
      }
    }

    method LoadIpsecAddressCount(env: Environment, ghost p: Progress, diagnostics: seq<Diagnostic>) returns (err: Option<ConfigError>)
      requires Tracks(p, diagnostics) && p.error == None
      modifies this
      ensures Tracks(ExtraAddressesStage(p, env), diagnostics) && err == ExtraAddressesStage(p, env).error
    {
      err := None;
      var conf := GetEnvValue(env, IPSecExtraAddressesEnvVar);
      if conf != "" {
        var extraAddressCount := ParseInt(conf, 8);
        if extraAddressCount.None? {
          err := Some(InvalidValue(IPSecExtraAddressesEnvVar, conf));
          return;
        }
        IpsecAddressCount := extraAddressCount.value + 1;
      }
    }

    method LoadTapMtu(env: Environment, ghost p: Progress, diagnostics: seq<Diagnostic>) returns (err: Option<ConfigError>)
      requires Tracks(p, diagnostics) && p.error == None
      modifies this
      ensures Tracks(MtuStage(p, env), diagnostics) && err == MtuStage(p, env).error
    {
      err := None;
      var conf := GetEnvValue(env, TapMtuEnvVar);
      if conf != "" {
        var tapMtu := ParseInt(conf, 32);
        if tapMtu.None? {
          err := Some(InvalidValue(TapMtuEnvVar, conf));
          return;
        }
        TapMtu := tapMtu.value;
      }
    }

    method LoadTapQueueSize(env: Environment, ghost p: Progress, diagnostics: seq<Diagnostic>) returns (err: Option<ConfigError>)
      requires Tracks(p, diagnostics) && p.error == None
      modifies this
      ensures Tracks(RingSizeStage(p, env), diagnostics) && err == RingSizeStage(p, env).error
    {
      err := None;
      var conf := GetEnvValue(env, TapQueueSizeEnvVar);
      if conf != "" {
        var sizes := Split(conf, ',');
        if |sizes| == 1 {
          var sz := ParseInt(sizes[0], 32);
          if sz.None? {
            err := Some(InvalidValue(TapQueueSizeEnvVar, conf));
            return;
          }
          TapRxQueueSize := sz.value;
          TapTxQueueSize := sz.value;
        } else if |sizes| == 2 {
          var sz := ParseInt(sizes[0], 32);
          if sz.None? {
            err := Some(InvalidValue(TapQueueSizeEnvVar, conf));
            return;
          }
          TapRxQueueSize := sz.value;
          sz := ParseInt(sizes[1], 32);
          if sz.None? {
            err := Some(InvalidValue(TapQueueSizeEnvVar, conf));
            return;
          }
          TapTxQueueSize := sz.value;
        } else {
          err := Some(InvalidValue(TapQueueSizeEnvVar, conf));
          return;
        }
      }
    }

    method LoadIPSecIkev2Psk(env: Environment, ghost p: Progress, diagnostics: seq<Diagnostic>) returns (err: Option<ConfigError>)
      requires Tracks(p, diagnostics) && p.error == None
      modifies this
      ensures Tracks(PskStage(p, env), diagnostics) && err == PskStage(p, env).error
    {
      err := None;
      var psk := GetEnvValue(env, IPSecIkev2PskEnvVar);
      if EnableIPSec && psk == "" {
        err := Some(PskNotConfigured);
        return;
      }
      IPSecIkev2Psk := psk;
    }

    /** config.go:237-244: appends each parsed prefix in turn; a bad entry stops the loop. */
    method LoadServiceCIDRs(env: Environment, parseCidr: CidrParser, ghost p: Progress, diagnostics: seq<Diagnostic>) returns (err: Option<ConfigError>)
      requires Tracks(p, diagnostics) && p.error == None
      modifies this
      ensures Tracks(ServicePrefixStage(p, env, parseCidr), diagnostics)
      ensures err == ServicePrefixStage(p, env, parseCidr).error
    {
      err := None;
      var servicePrefixStr := GetEnvValue(env, ServicePrefixEnvVar);
      var rejected := AppendServiceCIDRs(Split(servicePrefixStr, ','), parseCidr);
      if rejected.Some? {
        err := Some(InvalidServicePrefix(rejected.value));
      }
    }

    /**
      Appends the prefix of each entry in turn and stops at the first entry
      that does not parse, which it returns; what was appended before it stays.
    */
    method AppendServiceCIDRs(entries: seq<string>, parseCidr: CidrParser) returns (rejected: Option<string>)
      modifies this`ServiceCIDRs
      ensures ServiceCIDRs == old(ServiceCIDRs) + ParsePrefixes(entries, parseCidr).parsed
      ensures rejected == ParsePrefixes(entries, parseCidr).rejected
    {
      rejected := None;
      for i := 0 to |entries|
        invariant |ServiceCIDRs| == |old(ServiceCIDRs)| + i
        invariant ServiceCIDRs[..|old(ServiceCIDRs)|] == old(ServiceCIDRs)
        invariant forall k :: 0 <= k < i ==> parseCidr(entries[k]) == Some(ServiceCIDRs[|old(ServiceCIDRs)| + k])
      {
        var serviceCIDR := parseCidr(entries[i]);
        if serviceCIDR.None? {
          rejected := Some(entries[i]);
          PrefixScanStopsAt(entries, parseCidr, ServiceCIDRs[|old(ServiceCIDRs)|..]);
          assert ServiceCIDRs == old(ServiceCIDRs) + ServiceCIDRs[|old(ServiceCIDRs)|..];
          return;
        }
        ServiceCIDRs := ServiceCIDRs + [serviceCIDR.value];
      }
      PrefixScanStopsAt(entries, parseCidr, ServiceCIDRs[|old(ServiceCIDRs)|..]);
      assert ServiceCIDRs == old(ServiceCIDRs) + ServiceCIDRs[|old(ServiceCIDRs)|..];
    }

    method LoadTapRxMode(env: Environment, ghost p: Progress, diagnostics: seq<Diagnostic>)
      requires Tracks(p, diagnostics) && p.error == None
      modifies this
      ensures Tracks(RxModeStage(p, env), diagnostics)
    {
      var conf := GetEnvValue(env, TapRxModeEnvVar);
      match conf {
        case "interrupt" => TapRxMode := Interrupt;
        case "polling" => TapRxMode := Polling;
        case "adaptive" => TapRxMode := Adaptative;
        case _ => TapRxMode := DefaultRxMode;
      }
    }

    /** config.go:257-264: one warning per unread agent variable, in environment order. */
    method WarnUnsupported(env: Environment, diagnostics: seq<Diagnostic>) returns (logged: seq<Diagnostic>)
      ensures logged == diagnostics + Unsupported(env.names, supportedEnvVars)
    {
      logged := diagnostics;
      for i := 0 to |env.names|
        invariant logged == diagnostics + Unsupported(env.names[..i], supportedEnvVars)
      {
        var name := env.names[i];
        assert env.names[..i + 1][..i] == env.names[..i];
        if Contains(name, AgentVarMarker) && !IsEnvVarSupported(name) {
          logged := logged + [UnsupportedVariable(name)];
        }
      }
      assert env.names[..|env.names|] == env.names;
    }
  }

  /**
    The scan of `entries` is determined by its outcome: if `added` are
    what `parseCidr` gives for the first entries and the next entry, if
    any, is rejected, the scan parses exactly `added` and stops there.
  */
  lemma {:induction false} PrefixScanStopsAt(entries: seq<string>, parseCidr: CidrParser, added: seq<IPNet>)
    requires |added| <= |entries|
    requires forall k :: 0 <= k < |added| ==> parseCidr(entries[k]) == Some(added[k])
    requires |added| < |entries| ==> parseCidr(entries[|added|]).None?
    ensures ParsePrefixes(entries, parseCidr)
         == PrefixScan(added, if |added| < |entries| then Some(entries[|added|]) else None)
  {
    if entries != [] && added != [] {
      assert parseCidr(entries[0]) == Some(added[0]);
      forall k | 0 <= k < |added[1..]|
        ensures parseCidr(entries[1..][k]) == Some(added[1..][k])
      {
        assert parseCidr(entries[k + 1]) == Some(added[k + 1]);
      }
      PrefixScanStopsAt(entries[1..], parseCidr, added[1..]);
      assert [added[0]] + added[1..] == added;
    }
  }
}
