/**
  What `LoadConfig` promises, stated about `Config.Load` (which
  `AgentConfig.LoadConfig` is proved to compute).

  `Valid` says independently, variable by variable, when an environment is
  accepted, and `Loaded` gives the settings an accepted environment yields,
  each one a function of its own variable only. `LoadAccepts` ties the
  loader to both; the remaining lemmas cover the rejected paths, the
  settings kept by partial loads, the log and the warnings.
*/
module ConfigProperties {
  import opened Wrappers
  import opened GoStrings
  import opened GoStrconv
  import opened Logrus
  import opened Config

  /** A queue-count variable is accepted when it is unset or a positive 16-bit integer. */
  predicate QueueAccepted(conf: string)
  {
    conf == "" || QueueCount(conf).Some?
  }

  /** A guarded boolean variable is accepted when it is unset or parses. */
  predicate BoolAccepted(conf: string)
  {
    conf == "" || ParseBool(conf).Some?
  }

  /** A guarded integer variable of `bitSize` bits is accepted when it is unset or parses. */
  predicate IntAccepted(conf: string, bitSize: nat)
    requires IsBitSize(bitSize)
  {
    conf == "" || ParseInt(conf, bitSize).Some?
  }

  /** The ring-size variable: unset, one 32-bit size, or two separated by a comma. */
  predicate RingSizeAccepted(conf: string)
  {
    var sizes := Split(conf, ',');
    conf == ""
    || (|sizes| == 1 && ParseInt(sizes[0], 32).Some?)
    || (|sizes| == 2 && ParseInt(sizes[0], 32).Some? && ParseInt(sizes[1], 32).Some?)
  }

  /** Every comma-separated entry of the service-prefix variable is a prefix. */
  predicate PrefixesAccepted(conf: string, parseCidr: CidrParser)
  {
    forall e :: e in Split(conf, ',') ==> parseCidr(e).Some?
  }

  predicate QueuesValid(env: Environment)
  {
    && QueueAccepted(Getenv(env, TapNumRxQueuesEnvVar))
    && QueueAccepted(Getenv(env, TapNumTxQueuesEnvVar))
    && BoolAccepted(Getenv(env, TapGSOEnvVar))
  }

  predicate SwitchesValid(env: Environment)
  {
    && BoolAccepted(Getenv(env, EnableIPSecEnvVar))
    && BoolAccepted(Getenv(env, CrossIpsecTunnelsEnvVar))
    && BoolAccepted(Getenv(env, EnableServicesEnvVar))
    && BoolAccepted(Getenv(env, EnablePoliciesEnvVar))
  }

  predicate SizesValid(env: Environment)
  {
    && IntAccepted(Getenv(env, IPSecExtraAddressesEnvVar), 8)
    && IntAccepted(Getenv(env, TapMtuEnvVar), 32)
    && RingSizeAccepted(Getenv(env, TapQueueSizeEnvVar))
  }

  /** The key is set when IPsec is on (`ipsec`), and every service prefix parses. */
  predicate NetworkValid(ipsec: bool, env: Environment, parseCidr: CidrParser)
  {
    && !(ipsec && Getenv(env, IPSecIkev2PskEnvVar) == "")
    && PrefixesAccepted(Getenv(env, ServicePrefixEnvVar), parseCidr)
  }

  /** IPsec is on after loading when its variable says so, or when it was on and the variable is unset. */
  function IPSecAfter(s: Settings, env: Environment): bool
  {
    var conf := Getenv(env, EnableIPSecEnvVar);
    Guarded(conf, ParseBool(conf), s.EnableIPSec)
  }

  /**
    When the loader accepts `env`: each guarded variable is unset or well
    formed, the key is set if IPsec ends up on, and every entry of the
    service-prefix list is a prefix. The log levels, the node name and the
    receive mode never make it fail.
  */
  predicate Valid(s: Settings, env: Environment, parseCidr: CidrParser)
  {
    QueuesValid(env) && SwitchesValid(env) && SizesValid(env) && NetworkValid(IPSecAfter(s, env), env, parseCidr)
  }

  /** The prefixes of an accepted service-prefix list, entry by entry. */
  function Prefixes(entries: seq<string>, parseCidr: CidrParser): seq<IPNet>
    requires forall e :: e in entries ==> parseCidr(e).Some?
  {
    seq(|entries|, k requires 0 <= k < |entries| => parseCidr(entries[k]).value)
  }

  /**
    The settings an accepted environment yields: every setting depends on
    its own variable and the setting it had, except the receive mode, which
    is always reset, and the list of service prefixes, which is extended.
  */
  function Loaded(s: Settings, env: Environment, parseCidr: CidrParser): Settings
    requires Valid(s, env, parseCidr)
  {
    var rx, tx, gso := Getenv(env, TapNumRxQueuesEnvVar), Getenv(env, TapNumTxQueuesEnvVar), Getenv(env, TapGSOEnvVar);
    var cross := Getenv(env, CrossIpsecTunnelsEnvVar);
    var services, policies := Getenv(env, EnableServicesEnvVar), Getenv(env, EnablePoliciesEnvVar);
    var extra, mtu, ring := Getenv(env, IPSecExtraAddressesEnvVar), Getenv(env, TapMtuEnvVar), Getenv(env, TapQueueSizeEnvVar);
    Settings(
      TapNumRxQueues := Guarded(rx, QueueCount(rx), s.TapNumRxQueues),
      TapNumTxQueues := Guarded(tx, QueueCount(tx), s.TapNumTxQueues),
      TapGSOEnabled := Guarded(gso, ParseBool(gso), s.TapGSOEnabled),
      EnableServices := Guarded(services, ParseBool(services), s.EnableServices),
      EnablePolicies := Guarded(policies, ParseBool(policies), s.EnablePolicies),
      EnableIPSec := IPSecAfter(s, env),
      IpsecAddressCount := Guarded(extra, AddressCount(extra), s.IpsecAddressCount),
      CrossIpsecTunnels := Guarded(cross, ParseBool(cross), s.CrossIpsecTunnels),
      IPSecIkev2Psk := Getenv(env, IPSecIkev2PskEnvVar),
      TapRxMode := RxModeOf(Getenv(env, TapRxModeEnvVar)),
      BgpLogLevel := LevelSetting(Getenv(env, BgpLogLevelEnvVar), s.BgpLogLevel),
      LogLevel := LevelSetting(Getenv(env, LogLevelEnvVar), s.LogLevel),
      NodeName := Getenv(env, NodeNameEnvVar),
      ServiceCIDRs := s.ServiceCIDRs + Prefixes(Split(Getenv(env, ServicePrefixEnvVar), ','), parseCidr),
      TapRxQueueSize := Guarded(ring, RxRingSize(ring), s.TapRxQueueSize),
      TapTxQueueSize := Guarded(ring, TxRingSize(ring), s.TapTxQueueSize),
      TapMtu := Guarded(mtu, ParseInt(mtu, 32), s.TapMtu))
  }

  // The variables each group of steps reads.

  const LoggingVars: set<string> := {BgpLogLevelEnvVar, LogLevelEnvVar, NodeNameEnvVar}
  const QueueVars: set<string> := {TapNumRxQueuesEnvVar, TapNumTxQueuesEnvVar, TapGSOEnvVar}
  const SwitchVars: set<string> := {EnableIPSecEnvVar, CrossIpsecTunnelsEnvVar, EnableServicesEnvVar, EnablePoliciesEnvVar}
  const SizeVars: set<string> := {IPSecExtraAddressesEnvVar, TapMtuEnvVar, TapQueueSizeEnvVar}
  const NetworkVars: set<string> := {IPSecIkev2PskEnvVar, ServicePrefixEnvVar, TapRxModeEnvVar}

  /** The variables the loader reads, as a set. */
  const ReadSet: set<string> := LoggingVars + QueueVars + SwitchVars + SizeVars + NetworkVars

  /** The error names the variable `name` with its value, and `accepted` says that value is refused. */
  predicate RejectedBy(e: ConfigError, env: Environment, name: string, accepted: bool)
  {
    e == InvalidValue(name, Getenv(env, name)) && !accepted
  }

  predicate QueuesRejected(e: ConfigError, env: Environment)
  {
    || RejectedBy(e, env, TapNumRxQueuesEnvVar, QueueAccepted(Getenv(env, TapNumRxQueuesEnvVar)))
    || RejectedBy(e, env, TapNumTxQueuesEnvVar, QueueAccepted(Getenv(env, TapNumTxQueuesEnvVar)))
    || RejectedBy(e, env, TapGSOEnvVar, BoolAccepted(Getenv(env, TapGSOEnvVar)))
  }

  predicate SwitchesRejected(e: ConfigError, env: Environment)
  {
    || RejectedBy(e, env, EnableIPSecEnvVar, BoolAccepted(Getenv(env, EnableIPSecEnvVar)))
    || RejectedBy(e, env, CrossIpsecTunnelsEnvVar, BoolAccepted(Getenv(env, CrossIpsecTunnelsEnvVar)))
    || RejectedBy(e, env, EnableServicesEnvVar, BoolAccepted(Getenv(env, EnableServicesEnvVar)))
    || RejectedBy(e, env, EnablePoliciesEnvVar, BoolAccepted(Getenv(env, EnablePoliciesEnvVar)))
  }

  predicate SizesRejected(e: ConfigError, env: Environment)
  {
    || RejectedBy(e, env, IPSecExtraAddressesEnvVar, IntAccepted(Getenv(env, IPSecExtraAddressesEnvVar), 8))
    || RejectedBy(e, env, TapMtuEnvVar, IntAccepted(Getenv(env, TapMtuEnvVar), 32))
    || RejectedBy(e, env, TapQueueSizeEnvVar, RingSizeAccepted(Getenv(env, TapQueueSizeEnvVar)))
  }

  /** IPsec on (`ipsec`) with no key, or a service-prefix entry that is not a prefix. */
  predicate NetworkRejected(e: ConfigError, ipsec: bool, env: Environment, parseCidr: CidrParser)
  {
    || (e == PskNotConfigured && ipsec && Getenv(env, IPSecIkev2PskEnvVar) == "")
    || (e.InvalidServicePrefix? && e.prefix in Split(Getenv(env, ServicePrefixEnvVar), ',') && parseCidr(e.prefix).None?)
  }

  /**
    An error the loader returns is explained by the environment: a guarded
    variable holding a value it does not accept, IPsec on (`ipsec`) with no
    key, or a service-prefix entry that is not a prefix.
  */
  predicate Justified(e: ConfigError, ipsec: bool, env: Environment, parseCidr: CidrParser)
  {
    QueuesRejected(e, env) || SwitchesRejected(e, env) || SizesRejected(e, env) || NetworkRejected(e, ipsec, env, parseCidr)
  }

  // The loader as one run over `ReadOrder`: step `j` reads `ReadOrder[j]`,
  // and the run stops at the first step that fails.

  /** The step of the loader that reads `ReadOrder[j]`. */
  function Step(j: nat, p: Progress, env: Environment, parseCidr: CidrParser): Progress
    requires j < |ReadOrder|
  {
    match j
    case 0 => BgpLogLevelStage(p, env)
    case 1 => LogLevelStage(p, env)
    case 2 => NodeNameStage(p, env)
    case 3 => RxQueuesStage(p, env)
    case 4 => TxQueuesStage(p, env)
    case 5 => GsoStage(p, env)
    case 6 => IPSecStage(p, env)
    case 7 => CrossTunnelsStage(p, env)
    case 8 => ServicesStage(p, env)
    case 9 => PoliciesStage(p, env)
    case 10 => ExtraAddressesStage(p, env)
    case 11 => MtuStage(p, env)
    case 12 => RingSizeStage(p, env)
    case 13 => PskStage(p, env)
    case 14 => ServicePrefixStage(p, env, parseCidr)
    case _ => RxModeStage(p, env)
  }

  /** Whether a value of a variable other than the key is accepted by its step. */
  predicate ValueAccepted(j: nat, conf: string, parseCidr: CidrParser)
  {
    match j
    case 3 => QueueAccepted(conf)
    case 4 => QueueAccepted(conf)
    case 5 => BoolAccepted(conf)
    case 6 => BoolAccepted(conf)
    case 7 => BoolAccepted(conf)
    case 8 => BoolAccepted(conf)
    case 9 => BoolAccepted(conf)
    case 10 => IntAccepted(conf, 8)
    case 11 => IntAccepted(conf, 32)
    case 12 => RingSizeAccepted(conf)
    case 14 => PrefixesAccepted(conf, parseCidr)
    case _ => true
  }

  /**
    Whether the step reading `ReadOrder[j]` accepts the environment's value;
    the key's step also depends on whether IPsec is on (`ipsec`).
  */
  predicate Accepted(j: nat, ipsec: bool, env: Environment, parseCidr: CidrParser)
    requires j < |ReadOrder|
  {
    var conf := Getenv(env, ReadOrder[j]);
    if j == 13 then !(ipsec && conf == "") else ValueAccepted(j, conf, parseCidr)
  }

  /**
    The settings after the step reading `ReadOrder[j]` ran on settings `t`,
    whether or not it fails: only that variable's settings change. A set
    guarded variable that does not parse leaves its setting as it was; a
    ring size whose second field is bad still sets the receive size; the
    key is kept when it is missing with IPsec on; and the service prefixes
    are extended by the entries parsed before the first bad one.
  */
  function StepSettings(j: nat, t: Settings, env: Environment, parseCidr: CidrParser): Settings
  {
    var conf := if j < |ReadOrder| then Getenv(env, ReadOrder[j]) else "";
    match j
    case 0 => t.(BgpLogLevel := LevelSetting(conf, t.BgpLogLevel))
    case 1 => t.(LogLevel := LevelSetting(conf, t.LogLevel))
    case 2 => t.(NodeName := conf)
    case 3 => t.(TapNumRxQueues := Guarded(conf, QueueCount(conf), t.TapNumRxQueues))
    case 4 => t.(TapNumTxQueues := Guarded(conf, QueueCount(conf), t.TapNumTxQueues))
    case 5 => t.(TapGSOEnabled := Guarded(conf, ParseBool(conf), t.TapGSOEnabled))
    case 6 => t.(EnableIPSec := Guarded(conf, ParseBool(conf), t.EnableIPSec))
    case 7 => t.(CrossIpsecTunnels := Guarded(conf, ParseBool(conf), t.CrossIpsecTunnels))
    case 8 => t.(EnableServices := Guarded(conf, ParseBool(conf), t.EnableServices))
    case 9 => t.(EnablePolicies := Guarded(conf, ParseBool(conf), t.EnablePolicies))
    case 10 => t.(IpsecAddressCount := Guarded(conf, AddressCount(conf), t.IpsecAddressCount))
    case 11 => t.(TapMtu := Guarded(conf, ParseInt(conf, 32), t.TapMtu))
    case 12 => t.(TapRxQueueSize := Guarded(conf, RxRingSize(conf), t.TapRxQueueSize),
                  TapTxQueueSize := Guarded(conf, TxRingSize(conf), t.TapTxQueueSize))
    case 13 => t.(IPSecIkev2Psk := if t.EnableIPSec && conf == "" then t.IPSecIkev2Psk else conf)
    case 14 => t.(ServiceCIDRs := t.ServiceCIDRs + ParsePrefixes(Split(conf, ','), parseCidr).parsed)
    case _ => t.(TapRxMode := RxModeOf(conf))
  }

  /** The variable an error is about. */
  function ErrorVariable(e: ConfigError): string
  {
    match e
    case InvalidValue(variable, _) => variable
    case PskNotConfigured => IPSecIkev2PskEnvVar
    case InvalidServicePrefix(_) => ServicePrefixEnvVar
  }

  /**
    What a step does besides deciding whether it fails: it records its own
    variable as read, logs nothing but a bad log level, leaves the settings
    `StepSettings` gives, and an error it raises is about its own variable.
  */
  predicate StepEffect(j: nat, p: Progress, r: Progress, env: Environment, parseCidr: CidrParser)
    requires j < |ReadOrder|
  {
    && r.supported == p.supported + {ReadOrder[j]}
    && r.diagnostics == p.diagnostics + (if j < 2 then LevelReport(ReadOrder[j], Getenv(env, ReadOrder[j])) else [])
    && r.settings == StepSettings(j, p.settings, env, parseCidr)
    && (p.error.None? && r.error.Some? ==> ErrorVariable(r.error.value) == ReadOrder[j])
  }

  /** A scan of service-prefix entries stops early exactly when some entry is not a prefix. */
  lemma ScanAcceptsAll(entries: seq<string>, parseCidr: CidrParser)
    ensures ParsePrefixes(entries, parseCidr).rejected.None? <==> forall e :: e in entries ==> parseCidr(e).Some?
  {
    var scan := ParsePrefixes(entries, parseCidr);
    if scan.rejected.None? {
      forall e | e in entries ensures parseCidr(e).Some? {
        var k :| 0 <= k < |entries| && entries[k] == e;
        assert parseCidr(entries[k]) == Some(scan.parsed[k]);
      }
    } else {
      assert entries[|scan.parsed|] in entries;
    }
  }

  /**
    Every step of the loader reads exactly its variable, changes only its
    own settings, and, started without an error, fails exactly when it does
    not accept its variable's value, with an error about that variable.
  */
  lemma StepContract(j: nat, p: Progress, env: Environment, parseCidr: CidrParser)
    requires j < |ReadOrder|
    ensures StepEffect(j, p, Step(j, p, env, parseCidr), env, parseCidr)
    ensures p.error.None? ==>
      (Step(j, p, env, parseCidr).error.None? <==> Accepted(j, p.settings.EnableIPSec, env, parseCidr))
  {
    if j < 3 {
      LoggingStepContract(j, p, env, parseCidr);
    } else if j < 4 {
      RxQueuesStepContract(j, p, env, parseCidr);
    } else if j < 5 {
      TxQueuesStepContract(j, p, env, parseCidr);
    } else if j < 8 {
      SwitchesStepContract(j, p, env, parseCidr);
    } else if j < 10 {
      FeaturesStepContract(j, p, env, parseCidr);
    } else if j < 13 {
      SizesStepContract(j, p, env, parseCidr);
    } else {
      NetworkStepContract(j, p, env, parseCidr);
    }
  }

  lemma LoggingStepContract(j: nat, p: Progress, env: Environment, parseCidr: CidrParser)
    requires 0 <= j < 3
    ensures StepEffect(j, p, Step(j, p, env, parseCidr), env, parseCidr)
    ensures p.error.None? ==>
      (Step(j, p, env, parseCidr).error.None? <==> Accepted(j, p.settings.EnableIPSec, env, parseCidr))
  {
  }

  lemma RxQueuesStepContract(j: nat, p: Progress, env: Environment, parseCidr: CidrParser)
    requires j == 3
    ensures StepEffect(j, p, Step(j, p, env, parseCidr), env, parseCidr)
    ensures p.error.None? ==>
      (Step(j, p, env, parseCidr).error.None? <==> Accepted(j, p.settings.EnableIPSec, env, parseCidr))
  {
  }

  lemma TxQueuesStepContract(j: nat, p: Progress, env: Environment, parseCidr: CidrParser)
    requires j == 4
    ensures StepEffect(j, p, Step(j, p, env, parseCidr), env, parseCidr)
    ensures p.error.None? ==>
      (Step(j, p, env, parseCidr).error.None? <==> Accepted(j, p.settings.EnableIPSec, env, parseCidr))
  {
  }

  lemma SwitchesStepContract(j: nat, p: Progress, env: Environment, parseCidr: CidrParser)
    requires 5 <= j < 8
    ensures StepEffect(j, p, Step(j, p, env, parseCidr), env, parseCidr)
    ensures p.error.None? ==>
      (Step(j, p, env, parseCidr).error.None? <==> Accepted(j, p.settings.EnableIPSec, env, parseCidr))
  {
  }

  lemma FeaturesStepContract(j: nat, p: Progress, env: Environment, parseCidr: CidrParser)
    requires 8 <= j < 10
    ensures StepEffect(j, p, Step(j, p, env, parseCidr), env, parseCidr)
    ensures p.error.None? ==>
      (Step(j, p, env, parseCidr).error.None? <==> Accepted(j, p.settings.EnableIPSec, env, parseCidr))
  {
  }

  lemma SizesStepContract(j: nat, p: Progress, env: Environment, parseCidr: CidrParser)
    requires 10 <= j < 13
    ensures StepEffect(j, p, Step(j, p, env, parseCidr), env, parseCidr)
    ensures p.error.None? ==>
      (Step(j, p, env, parseCidr).error.None? <==> Accepted(j, p.settings.EnableIPSec, env, parseCidr))
  {
    if j == 12 {
      RingSizeAcceptedIff(Getenv(env, TapQueueSizeEnvVar));
    }
  }

  lemma NetworkStepContract(j: nat, p: Progress, env: Environment, parseCidr: CidrParser)
    requires 13 <= j < 16
    ensures StepEffect(j, p, Step(j, p, env, parseCidr), env, parseCidr)
    ensures p.error.None? ==>
      (Step(j, p, env, parseCidr).error.None? <==> Accepted(j, p.settings.EnableIPSec, env, parseCidr))
  {
    if j == 14 {
      ScanAcceptsAll(Split(Getenv(env, ServicePrefixEnvVar), ','), parseCidr);
    }
  }

  /** The steps reading `ReadOrder[lo..hi]` in order, stopping at the first that fails. */
  function Run(p: Progress, env: Environment, parseCidr: CidrParser, lo: nat, hi: nat): Progress
    requires lo <= hi <= |ReadOrder|
    decreases hi
  {
    if lo == hi then p
    else
      var q := Run(p, env, parseCidr, lo, hi - 1);
      if q.error.Some? then q else Step(hi - 1, q, env, parseCidr)
  }

  /** A run that starts with an error does nothing. */
  lemma {:induction false} RunFailed(p: Progress, env: Environment, parseCidr: CidrParser, lo: nat, hi: nat)
    requires lo <= hi <= |ReadOrder| && p.error.Some?
    ensures Run(p, env, parseCidr, lo, hi) == p
    decreases hi
  {
    if lo < hi {
      RunFailed(p, env, parseCidr, lo, hi - 1);
    }
  }

  /** A run splits into two runs at any point. */
  lemma {:induction false} RunSplit(p: Progress, env: Environment, parseCidr: CidrParser, lo: nat, mid: nat, hi: nat)
    requires lo <= mid <= hi <= |ReadOrder|
    ensures Run(p, env, parseCidr, lo, hi) == Run(Run(p, env, parseCidr, lo, mid), env, parseCidr, mid, hi)
    decreases hi
  {
    if mid < hi {
      RunSplit(p, env, parseCidr, lo, mid, hi - 1);
    }
  }

  lemma LoggingRun(p: Progress, env: Environment, parseCidr: CidrParser)
    requires p.error.None?
    ensures LoggingStages(p, env) == Run(p, env, parseCidr, 0, 3)
  {
    assert Run(p, env, parseCidr, 0, 1) == BgpLogLevelStage(p, env);
    assert Run(p, env, parseCidr, 0, 2) == LogLevelStage(BgpLogLevelStage(p, env), env);
  }

  lemma QueuesRun(p: Progress, env: Environment, parseCidr: CidrParser)
    requires p.error.None?
    ensures QueueStages(p, env) == Run(p, env, parseCidr, 3, 6)
  {
    assert Run(p, env, parseCidr, 3, 4) == RxQueuesStage(p, env);
    var q := RxQueuesStage(p, env);
    if q.error.None? {
      assert Run(p, env, parseCidr, 3, 5) == TxQueuesStage(q, env);
    }
  }

  lemma SwitchesRun(p: Progress, env: Environment, parseCidr: CidrParser)
    requires p.error.None?
    ensures SwitchStages(p, env) == Run(p, env, parseCidr, 6, 10)
  {
    assert Run(p, env, parseCidr, 6, 7) == IPSecStage(p, env);
    var q := IPSecStage(p, env);
    if q.error.None? {
      assert Run(p, env, parseCidr, 6, 8) == CrossTunnelsStage(q, env);
      var r := CrossTunnelsStage(q, env);
      if r.error.None? {
        assert Run(p, env, parseCidr, 6, 9) == ServicesStage(r, env);
      }
    }
  }

  lemma SizesRun(p: Progress, env: Environment, parseCidr: CidrParser)
    requires p.error.None?
    ensures SizeStages(p, env) == Run(p, env, parseCidr, 10, 13)
  {
    assert Run(p, env, parseCidr, 10, 11) == ExtraAddressesStage(p, env);
    var q := ExtraAddressesStage(p, env);
    if q.error.None? {
      assert Run(p, env, parseCidr, 10, 12) == MtuStage(q, env);
    }
  }

  lemma NetworkRun(p: Progress, env: Environment, parseCidr: CidrParser)
    requires p.error.None?
    ensures NetworkStages(p, env, parseCidr) == Run(p, env, parseCidr, 13, 16)
  {
    assert Run(p, env, parseCidr, 13, 14) == PskStage(p, env);
    var q := PskStage(p, env);
    if q.error.None? {
      assert Run(p, env, parseCidr, 13, 15) == ServicePrefixStage(q, env, parseCidr);
    }
  }

  /** The loader is the run of all its steps, then the warnings about unread variables. */
  lemma LoadRuns(s: Settings, env: Environment, parseCidr: CidrParser)
    ensures Load(s, env, parseCidr) == Finish(Run(Progress(s, {}, [], None), env, parseCidr, 0, 16), env)
  {
    var p0 := Progress(s, {}, [], None);
    LoggingRun(p0, env, parseCidr);
    var a := LoggingStages(p0, env);
    QueuesRun(a, env, parseCidr);
    var b := QueueStages(a, env);
    RunSplit(p0, env, parseCidr, 0, 3, 6);
    RunSplit(p0, env, parseCidr, 0, 6, 16);
    if b.error.Some? {
      RunFailed(b, env, parseCidr, 6, 16);
      return;
    }
    SwitchesRun(b, env, parseCidr);
    var c := SwitchStages(b, env);
    RunSplit(p0, env, parseCidr, 0, 6, 10);
    RunSplit(p0, env, parseCidr, 0, 10, 16);
    if c.error.Some? {
      RunFailed(c, env, parseCidr, 10, 16);
      return;
    }
    SizesRun(c, env, parseCidr);
    var d := SizeStages(c, env);
    RunSplit(p0, env, parseCidr, 0, 10, 13);
    RunSplit(p0, env, parseCidr, 0, 13, 16);
    if d.error.Some? {
      RunFailed(d, env, parseCidr, 13, 16);
      return;
    }
    NetworkRun(d, env, parseCidr);
  }

  /** The variables of `ReadOrder[..k]`. */
  function Names(k: nat): set<string>
    requires k <= |ReadOrder|
  {
    set n | n in ReadOrder[..k]
  }

  lemma NamesStep(k: nat)
    requires k < |ReadOrder|
    ensures Names(k + 1) == Names(k) + {ReadOrder[k]}
  {
    assert ReadOrder[..k + 1] == ReadOrder[..k] + [ReadOrder[k]];
  }

  /** The position of `x` in `xs`, or `|xs|` when it is absent. */
  function Position(xs: seq<string>, x: string): (i: nat)
    ensures i <= |xs|
    ensures i < |xs| ==> xs[i] == x
    ensures forall j :: 0 <= j < i ==> xs[j] != x
  {
    if xs == [] then 0
    else if xs[0] == x then 0
    else 1 + Position(xs[1..], x)
  }

  /** Every variable is read once. */
  lemma ReadOrderDistinct()
    ensures forall i, j :: 0 <= i < j < |ReadOrder| ==> ReadOrder[i] != ReadOrder[j]
  {
  }

  lemma PositionInReadOrder(k: nat)
    requires k < |ReadOrder|
    ensures Position(ReadOrder, ReadOrder[k]) == k
  {
    ReadOrderDistinct();
  }

  /** `a` and `b` agree on the settings of the variables `ReadOrder[k..]`. */
  predicate Frame(a: Settings, b: Settings, k: nat)
  {
    && (k <= 0 ==> a.BgpLogLevel == b.BgpLogLevel)
    && (k <= 1 ==> a.LogLevel == b.LogLevel)
    && (k <= 2 ==> a.NodeName == b.NodeName)
    && (k <= 3 ==> a.TapNumRxQueues == b.TapNumRxQueues)
    && (k <= 4 ==> a.TapNumTxQueues == b.TapNumTxQueues)
    && (k <= 5 ==> a.TapGSOEnabled == b.TapGSOEnabled)
    && (k <= 6 ==> a.EnableIPSec == b.EnableIPSec)
    && (k <= 7 ==> a.CrossIpsecTunnels == b.CrossIpsecTunnels)
    && (k <= 8 ==> a.EnableServices == b.EnableServices)
    && (k <= 9 ==> a.EnablePolicies == b.EnablePolicies)
    && (k <= 10 ==> a.IpsecAddressCount == b.IpsecAddressCount)
    && (k <= 11 ==> a.TapMtu == b.TapMtu)
    && (k <= 12 ==> a.TapRxQueueSize == b.TapRxQueueSize && a.TapTxQueueSize == b.TapTxQueueSize)
    && (k <= 13 ==> a.IPSecIkev2Psk == b.IPSecIkev2Psk)
    && (k <= 14 ==> a.ServiceCIDRs == b.ServiceCIDRs)
    && (k <= 15 ==> a.TapRxMode == b.TapRxMode)
  }

  /**
    The settings a load from `s` has after its first `k` steps, whether the
    last of them failed or not: each variable of `ReadOrder[..k]` has set
    its settings from the environment, and every later setting is still
    that of `s`. IPsec, once read, is `IPSecAfter(s, env)`.
  */
  function UpTo(s: Settings, env: Environment, parseCidr: CidrParser, k: nat): Settings
  {
    var rx, tx, gso := Getenv(env, TapNumRxQueuesEnvVar), Getenv(env, TapNumTxQueuesEnvVar), Getenv(env, TapGSOEnvVar);
    var cross := Getenv(env, CrossIpsecTunnelsEnvVar);
    var services, policies := Getenv(env, EnableServicesEnvVar), Getenv(env, EnablePoliciesEnvVar);
    var extra, mtu, ring := Getenv(env, IPSecExtraAddressesEnvVar), Getenv(env, TapMtuEnvVar), Getenv(env, TapQueueSizeEnvVar);
    var psk := Getenv(env, IPSecIkev2PskEnvVar);
    Settings(
      BgpLogLevel := if 0 < k then LevelSetting(Getenv(env, BgpLogLevelEnvVar), s.BgpLogLevel) else s.BgpLogLevel,
      LogLevel := if 1 < k then LevelSetting(Getenv(env, LogLevelEnvVar), s.LogLevel) else s.LogLevel,
      NodeName := if 2 < k then Getenv(env, NodeNameEnvVar) else s.NodeName,
      TapNumRxQueues := if 3 < k then Guarded(rx, QueueCount(rx), s.TapNumRxQueues) else s.TapNumRxQueues,
      TapNumTxQueues := if 4 < k then Guarded(tx, QueueCount(tx), s.TapNumTxQueues) else s.TapNumTxQueues,
      TapGSOEnabled := if 5 < k then Guarded(gso, ParseBool(gso), s.TapGSOEnabled) else s.TapGSOEnabled,
      EnableIPSec := if 6 < k then IPSecAfter(s, env) else s.EnableIPSec,
      CrossIpsecTunnels := if 7 < k then Guarded(cross, ParseBool(cross), s.CrossIpsecTunnels) else s.CrossIpsecTunnels,
      EnableServices := if 8 < k then Guarded(services, ParseBool(services), s.EnableServices) else s.EnableServices,
      EnablePolicies := if 9 < k then Guarded(policies, ParseBool(policies), s.EnablePolicies) else s.EnablePolicies,
      IpsecAddressCount := if 10 < k then Guarded(extra, AddressCount(extra), s.IpsecAddressCount) else s.IpsecAddressCount,
      TapMtu := if 11 < k then Guarded(mtu, ParseInt(mtu, 32), s.TapMtu) else s.TapMtu,
      TapRxQueueSize := if 12 < k then Guarded(ring, RxRingSize(ring), s.TapRxQueueSize) else s.TapRxQueueSize,
      TapTxQueueSize := if 12 < k then Guarded(ring, TxRingSize(ring), s.TapTxQueueSize) else s.TapTxQueueSize,
      IPSecIkev2Psk := if 13 < k then (if IPSecAfter(s, env) && psk == "" then s.IPSecIkev2Psk else psk) else s.IPSecIkev2Psk,
      ServiceCIDRs := if 14 < k then s.ServiceCIDRs + ParsePrefixes(Split(Getenv(env, ServicePrefixEnvVar), ','), parseCidr).parsed
                      else s.ServiceCIDRs,
      TapRxMode := if 15 < k then RxModeOf(Getenv(env, TapRxModeEnvVar)) else s.TapRxMode)
  }

  /** Before any step, nothing is set. */
  lemma UpToNone(s: Settings, env: Environment, parseCidr: CidrParser)
    ensures UpTo(s, env, parseCidr, 0) == s
  {
  }

  /** The settings of the variables after the first `k` are still those of `s`. */
  lemma UpToFrame(s: Settings, env: Environment, parseCidr: CidrParser, k: nat)
    ensures Frame(UpTo(s, env, parseCidr, k), s, k)
  {
  }

  /** Step `j` takes the settings after `j` steps to those after `j + 1`. */
  lemma UpToStep(s: Settings, env: Environment, parseCidr: CidrParser, j: nat)
    requires j < |ReadOrder|
    ensures StepSettings(j, UpTo(s, env, parseCidr, j), env, parseCidr) == UpTo(s, env, parseCidr, j + 1)
  {
    if j < 2 {
      UpToStepIn0(s, env, parseCidr, j);
    } else if j < 4 {
      UpToStepIn2(s, env, parseCidr, j);
    } else if j < 6 {
      UpToStepIn4(s, env, parseCidr, j);
    } else if j < 8 {
      UpToStepIn6(s, env, parseCidr, j);
    } else if j < 10 {
      UpToStepIn8(s, env, parseCidr, j);
    } else if j < 12 {
      UpToStepIn10(s, env, parseCidr, j);
    } else if j < 14 {
      UpToStepIn12(s, env, parseCidr, j);
    } else {
      UpToStepIn14(s, env, parseCidr, j);
    }
  }

  lemma UpToStepIn0(s: Settings, env: Environment, parseCidr: CidrParser, j: nat)
    requires 0 <= j < 2
    ensures StepSettings(j, UpTo(s, env, parseCidr, j), env, parseCidr) == UpTo(s, env, parseCidr, j + 1)
  {
    if j == 0 {
      assert StepSettings(0, UpTo(s, env, parseCidr, 0), env, parseCidr) == UpTo(s, env, parseCidr, 1);
    } else {
      assert StepSettings(1, UpTo(s, env, parseCidr, 1), env, parseCidr) == UpTo(s, env, parseCidr, 2);
    }
  }

  lemma UpToStepIn2(s: Settings, env: Environment, parseCidr: CidrParser, j: nat)
    requires 2 <= j < 4
    ensures StepSettings(j, UpTo(s, env, parseCidr, j), env, parseCidr) == UpTo(s, env, parseCidr, j + 1)
  {
    if j == 2 {
      assert StepSettings(2, UpTo(s, env, parseCidr, 2), env, parseCidr) == UpTo(s, env, parseCidr, 3);
    } else {
      assert StepSettings(3, UpTo(s, env, parseCidr, 3), env, parseCidr) == UpTo(s, env, parseCidr, 4);
    }
  }

  lemma UpToStepIn4(s: Settings, env: Environment, parseCidr: CidrParser, j: nat)
    requires 4 <= j < 6
    ensures StepSettings(j, UpTo(s, env, parseCidr, j), env, parseCidr) == UpTo(s, env, parseCidr, j + 1)
  {
    if j == 4 {
      assert StepSettings(4, UpTo(s, env, parseCidr, 4), env, parseCidr) == UpTo(s, env, parseCidr, 5);
    } else {
      assert StepSettings(5, UpTo(s, env, parseCidr, 5), env, parseCidr) == UpTo(s, env, parseCidr, 6);
    }
  }

  lemma UpToStepIn6(s: Settings, env: Environment, parseCidr: CidrParser, j: nat)
    requires 6 <= j < 8
    ensures StepSettings(j, UpTo(s, env, parseCidr, j), env, parseCidr) == UpTo(s, env, parseCidr, j + 1)
  {
    if j == 6 {
      assert StepSettings(6, UpTo(s, env, parseCidr, 6), env, parseCidr) == UpTo(s, env, parseCidr, 7);
    } else {
      assert StepSettings(7, UpTo(s, env, parseCidr, 7), env, parseCidr) == UpTo(s, env, parseCidr, 8);
    }
  }

  lemma UpToStepIn8(s: Settings, env: Environment, parseCidr: CidrParser, j: nat)
    requires 8 <= j < 10
    ensures StepSettings(j, UpTo(s, env, parseCidr, j), env, parseCidr) == UpTo(s, env, parseCidr, j + 1)
  {
    if j == 8 {
      assert StepSettings(8, UpTo(s, env, parseCidr, 8), env, parseCidr) == UpTo(s, env, parseCidr, 9);
    } else {
      assert StepSettings(9, UpTo(s, env, parseCidr, 9), env, parseCidr) == UpTo(s, env, parseCidr, 10);
    }
  }

  lemma UpToStepIn10(s: Settings, env: Environment, parseCidr: CidrParser, j: nat)
    requires 10 <= j < 12
    ensures StepSettings(j, UpTo(s, env, parseCidr, j), env, parseCidr) == UpTo(s, env, parseCidr, j + 1)
  {
    if j == 10 {
      assert StepSettings(10, UpTo(s, env, parseCidr, 10), env, parseCidr) == UpTo(s, env, parseCidr, 11);
    } else {
      assert StepSettings(11, UpTo(s, env, parseCidr, 11), env, parseCidr) == UpTo(s, env, parseCidr, 12);
    }
  }

  lemma UpToStepIn12(s: Settings, env: Environment, parseCidr: CidrParser, j: nat)
    requires 12 <= j < 14
    ensures StepSettings(j, UpTo(s, env, parseCidr, j), env, parseCidr) == UpTo(s, env, parseCidr, j + 1)
  {
    if j == 12 {
      assert StepSettings(12, UpTo(s, env, parseCidr, 12), env, parseCidr) == UpTo(s, env, parseCidr, 13);
    } else {
      assert StepSettings(13, UpTo(s, env, parseCidr, 13), env, parseCidr) == UpTo(s, env, parseCidr, 14);
    }
  }

  lemma UpToStepIn14(s: Settings, env: Environment, parseCidr: CidrParser, j: nat)
    requires 14 <= j < 16
    ensures StepSettings(j, UpTo(s, env, parseCidr, j), env, parseCidr) == UpTo(s, env, parseCidr, j + 1)
  {
  }

  /** After all sixteen steps on an accepted environment, the settings are those `Loaded` gives. */
  lemma UpToLoaded(s: Settings, env: Environment, parseCidr: CidrParser)
    requires Valid(s, env, parseCidr)
    ensures UpTo(s, env, parseCidr, |ReadOrder|) == Loaded(s, env, parseCidr)
  {
    var entries := Split(Getenv(env, ServicePrefixEnvVar), ',');
    ScanAcceptsAll(entries, parseCidr);
    assert ParsePrefixes(entries, parseCidr).parsed == Prefixes(entries, parseCidr);
  }

  /**
    A run of the first `k` steps from `s` that has not failed: every one of
    them accepted its value and read its variable, and the settings are
    `UpTo(s, env, parseCidr, k)`.
  */
  predicate Reached(s: Settings, env: Environment, parseCidr: CidrParser, k: nat, r: Progress)
    requires k <= |ReadOrder|
  {
    && (forall j :: 0 <= j < k ==> Accepted(j, IPSecAfter(s, env), env, parseCidr))
    && r.supported == Names(k)
    && r.settings == UpTo(s, env, parseCidr, k)
  }

  /**
    A run from `s` that failed at step `i`: the steps before it accepted
    their values, step `i` did not, and the run read the variables up to
    `ReadOrder[i]` and left the settings `UpTo(s, env, parseCidr, i + 1)`.
  */
  predicate StoppedAt(s: Settings, env: Environment, parseCidr: CidrParser, i: nat, r: Progress)
    requires i < |ReadOrder|
  {
    && (forall j :: 0 <= j < i ==> Accepted(j, IPSecAfter(s, env), env, parseCidr))
    && !Accepted(i, IPSecAfter(s, env), env, parseCidr)
    && r.supported == Names(i + 1)
    && r.settings == UpTo(s, env, parseCidr, i + 1)
  }

  /** One more step of a run that has not failed either reaches one variable further or stops there. */
  lemma ReachedStep(s: Settings, env: Environment, parseCidr: CidrParser, j: nat, q: Progress)
    requires j < |ReadOrder| && q.error.None? && Reached(s, env, parseCidr, j, q)
    ensures var r := Step(j, q, env, parseCidr);
      && (r.error.None? ==> Reached(s, env, parseCidr, j + 1, r))
      && (r.error.Some? ==> Position(ReadOrder, ErrorVariable(r.error.value)) == j && StoppedAt(s, env, parseCidr, j, r))
  {
    var r := Step(j, q, env, parseCidr);
    StepContract(j, q, env, parseCidr);
    NamesStep(j);
    UpToStep(s, env, parseCidr, j);
    assert Accepted(j, q.settings.EnableIPSec, env, parseCidr) == Accepted(j, IPSecAfter(s, env), env, parseCidr);
    if r.error.Some? {
      PositionInReadOrder(j);
    }
  }

  /**
    What the first `k` steps of a load from `s` leave: without an error,
    they reached `k`; with one, they stopped at the variable the error is
    about, which comes before `k`.
  */
  lemma {:induction false} RunFacts(s: Settings, env: Environment, parseCidr: CidrParser, k: nat)
    requires k <= |ReadOrder|
    ensures var r := Run(Progress(s, {}, [], None), env, parseCidr, 0, k);
      && (r.error.None? ==> Reached(s, env, parseCidr, k, r))
      && (r.error.Some? ==>
            var i := Position(ReadOrder, ErrorVariable(r.error.value));
            i < k && StoppedAt(s, env, parseCidr, i, r))
    decreases k
  {
    if k == 0 {
      assert ReadOrder[..0] == [];
      UpToNone(s, env, parseCidr);
    } else {
      RunFacts(s, env, parseCidr, k - 1);
      var q := Run(Progress(s, {}, [], None), env, parseCidr, 0, k - 1);
      if q.error.None? {
        ReachedStep(s, env, parseCidr, k - 1, q);
      }
    }
  }

  /**
    A load that fails stops at the first variable, in reading order, whose
    value is not accepted: every variable before it was accepted, the
    variables read are exactly those up to it, and the settings of every
    later variable are still those it started from. The settings of the
    variables before it, and its own, are those `UpTo` gives: every earlier
    assignment stays, and the failing variable's own setting is unchanged
    unless it is a ring size whose first field was already stored or a
    service-prefix list whose entries before the bad one were appended.
  */
  lemma LoadStopsAtFirstError(s: Settings, env: Environment, parseCidr: CidrParser)
    ensures var r := Load(s, env, parseCidr);
      r.error.Some? ==>
        var i := Position(ReadOrder, ErrorVariable(r.error.value));
        && i < |ReadOrder|
        && (forall j :: 0 <= j < i ==> Accepted(j, IPSecAfter(s, env), env, parseCidr))
        && !Accepted(i, IPSecAfter(s, env), env, parseCidr)
        && r.supported == Names(i + 1)
        && r.settings == UpTo(s, env, parseCidr, i + 1)
        && Frame(r.settings, s, i + 1)
  {
    var r := Run(Progress(s, {}, [], None), env, parseCidr, 0, |ReadOrder|);
    LoadRuns(s, env, parseCidr);
    RunFacts(s, env, parseCidr, |ReadOrder|);
    if r.error.Some? {
      UpToFrame(s, env, parseCidr, Position(ReadOrder, ErrorVariable(r.error.value)) + 1);
    }
  }

  // The settings each group of steps gives when it accepts its variables.

  function LoggingUpdate(t: Settings, env: Environment): Settings
  {
    t.(BgpLogLevel := LevelSetting(Getenv(env, BgpLogLevelEnvVar), t.BgpLogLevel),
       LogLevel := LevelSetting(Getenv(env, LogLevelEnvVar), t.LogLevel),
       NodeName := Getenv(env, NodeNameEnvVar))
  }

  function QueuesUpdate(t: Settings, env: Environment): Settings
  {
    var rx, tx, gso := Getenv(env, TapNumRxQueuesEnvVar), Getenv(env, TapNumTxQueuesEnvVar), Getenv(env, TapGSOEnvVar);
    t.(TapNumRxQueues := Guarded(rx, QueueCount(rx), t.TapNumRxQueues),
       TapNumTxQueues := Guarded(tx, QueueCount(tx), t.TapNumTxQueues),
       TapGSOEnabled := Guarded(gso, ParseBool(gso), t.TapGSOEnabled))
  }

  function SwitchesUpdate(t: Settings, env: Environment): Settings
  {
    var ipsec, cross := Getenv(env, EnableIPSecEnvVar), Getenv(env, CrossIpsecTunnelsEnvVar);
    var services, policies := Getenv(env, EnableServicesEnvVar), Getenv(env, EnablePoliciesEnvVar);
    t.(EnableIPSec := Guarded(ipsec, ParseBool(ipsec), t.EnableIPSec),
       CrossIpsecTunnels := Guarded(cross, ParseBool(cross), t.CrossIpsecTunnels),
       EnableServices := Guarded(services, ParseBool(services), t.EnableServices),
       EnablePolicies := Guarded(policies, ParseBool(policies), t.EnablePolicies))
  }

  function SizesUpdate(t: Settings, env: Environment): Settings
  {
    var extra, mtu, ring := Getenv(env, IPSecExtraAddressesEnvVar), Getenv(env, TapMtuEnvVar), Getenv(env, TapQueueSizeEnvVar);
    t.(IpsecAddressCount := Guarded(extra, AddressCount(extra), t.IpsecAddressCount),
       TapMtu := Guarded(mtu, ParseInt(mtu, 32), t.TapMtu),
       TapRxQueueSize := Guarded(ring, RxRingSize(ring), t.TapRxQueueSize),
       TapTxQueueSize := Guarded(ring, TxRingSize(ring), t.TapTxQueueSize))
  }

  function NetworkUpdate(t: Settings, env: Environment, parseCidr: CidrParser): Settings
    requires PrefixesAccepted(Getenv(env, ServicePrefixEnvVar), parseCidr)
  {
    t.(IPSecIkev2Psk := Getenv(env, IPSecIkev2PskEnvVar),
       ServiceCIDRs := t.ServiceCIDRs + Prefixes(Split(Getenv(env, ServicePrefixEnvVar), ','), parseCidr),
       TapRxMode := RxModeOf(Getenv(env, TapRxModeEnvVar)))
  }

  // What each group of steps does: which variables it reads, when it fails
  // and why, and which settings it may change.

  /** The log levels and the node name are read and a bad level is logged, never fatal. */
  lemma LoggingEffect(p: Progress, env: Environment)
    ensures var q := LoggingStages(p, env);
      && q.error == p.error
      && q.supported == p.supported + LoggingVars
      && q.diagnostics == p.diagnostics + LevelReport(BgpLogLevelEnvVar, Getenv(env, BgpLogLevelEnvVar))
                          + LevelReport(LogLevelEnvVar, Getenv(env, LogLevelEnvVar))
      && q.settings == LoggingUpdate(p.settings, env)
  {
  }

  lemma QueuesEffect(p: Progress, env: Environment)
    requires p.error == None
    ensures var q := QueueStages(p, env);
      && q.diagnostics == p.diagnostics
      && p.supported <= q.supported <= p.supported + QueueVars
      && q.settings.(TapNumRxQueues := p.settings.TapNumRxQueues, TapNumTxQueues := p.settings.TapNumTxQueues,
                     TapGSOEnabled := p.settings.TapGSOEnabled) == p.settings
      && (q.error.Some? ==> QueuesRejected(q.error.value, env))
  {
  }

  lemma QueuesAccepts(p: Progress, env: Environment)
    requires p.error == None
    ensures QueueStages(p, env).error.None? <==> QueuesValid(env)
    ensures QueuesValid(env) ==> QueueStages(p, env).settings == QueuesUpdate(p.settings, env)
    ensures QueuesValid(env) ==> QueueStages(p, env).supported == p.supported + QueueVars
  {
  }

  lemma SwitchesEffect(p: Progress, env: Environment)
    requires p.error == None
    ensures var q := SwitchStages(p, env);
      && q.diagnostics == p.diagnostics
      && p.supported <= q.supported
      && q.supported <= p.supported + SwitchVars
      && q.settings.(EnableIPSec := p.settings.EnableIPSec, CrossIpsecTunnels := p.settings.CrossIpsecTunnels,
                     EnableServices := p.settings.EnableServices, EnablePolicies := p.settings.EnablePolicies) == p.settings
      && (q.error.Some? ==> SwitchesRejected(q.error.value, env))
  {
    var q1 := IPSecStage(p, env);
    if q1.error.None? {
      var q2 := CrossTunnelsStage(q1, env);
      if q2.error.None? {
        var q3 := ServicesStage(q2, env);
        if q3.error.None? {
          assert SwitchStages(p, env) == PoliciesStage(q3, env);
        } else {
          assert SwitchStages(p, env) == q3;
        }
      } else {
        assert SwitchStages(p, env) == q2;
      }
    } else {
      assert SwitchStages(p, env) == q1;
    }
  }

  lemma SwitchesAccepts(p: Progress, env: Environment)
    requires p.error == None
    ensures SwitchStages(p, env).error.None? <==> SwitchesValid(env)
    ensures SwitchesValid(env) ==> SwitchStages(p, env).settings == SwitchesUpdate(p.settings, env)
    ensures SwitchesValid(env) ==> SwitchStages(p, env).supported == p.supported + SwitchVars
  {
    var q := ServicesStage(CrossTunnelsStage(IPSecStage(p, env), env), env);
    if q.error == None {
      assert SwitchStages(p, env) == PoliciesStage(q, env);
    }
  }

  lemma SizesEffect(p: Progress, env: Environment)
    requires p.error == None
    ensures var q := SizeStages(p, env);
      && q.diagnostics == p.diagnostics
      && p.supported <= q.supported <= p.supported + SizeVars
      && q.settings.(IpsecAddressCount := p.settings.IpsecAddressCount, TapMtu := p.settings.TapMtu,
                     TapRxQueueSize := p.settings.TapRxQueueSize, TapTxQueueSize := p.settings.TapTxQueueSize) == p.settings
      && (q.error.Some? ==> SizesRejected(q.error.value, env))
  {
  }

  lemma SizesAccepts(p: Progress, env: Environment)
    requires p.error == None
    ensures SizeStages(p, env).error.None? <==> SizesValid(env)
    ensures SizesValid(env) ==> SizeStages(p, env).settings == SizesUpdate(p.settings, env)
    ensures SizesValid(env) ==> SizeStages(p, env).supported == p.supported + SizeVars
  {
    RingSizeAcceptedIff(Getenv(env, TapQueueSizeEnvVar));
  }

  lemma NetworkEffect(p: Progress, env: Environment, parseCidr: CidrParser)
    requires p.error == None
    ensures var q := NetworkStages(p, env, parseCidr);
      && q.diagnostics == p.diagnostics
      && p.supported <= q.supported <= p.supported + NetworkVars
      && q.settings.(IPSecIkev2Psk := p.settings.IPSecIkev2Psk, ServiceCIDRs := p.settings.ServiceCIDRs,
                     TapRxMode := p.settings.TapRxMode) == p.settings
      && (q.error.Some? ==> NetworkRejected(q.error.value, p.settings.EnableIPSec, env, parseCidr))
  {
  }

  lemma NetworkAccepts(p: Progress, env: Environment, parseCidr: CidrParser)
    requires p.error == None
    ensures NetworkStages(p, env, parseCidr).error.None? <==> NetworkValid(p.settings.EnableIPSec, env, parseCidr)
    ensures NetworkValid(p.settings.EnableIPSec, env, parseCidr) ==> NetworkStages(p, env, parseCidr).settings == NetworkUpdate(p.settings, env, parseCidr)
    ensures NetworkValid(p.settings.EnableIPSec, env, parseCidr) ==> NetworkStages(p, env, parseCidr).supported == p.supported + NetworkVars
  {
    var entries := Split(Getenv(env, ServicePrefixEnvVar), ',');
    var scan := ParsePrefixes(entries, parseCidr);
    if scan.rejected.None? {
      assert forall e :: e in entries ==> parseCidr(e).Some? by {
        forall e | e in entries ensures parseCidr(e).Some? {
          var k :| 0 <= k < |entries| && entries[k] == e;
          assert parseCidr(entries[k]) == Some(scan.parsed[k]);
        }
      }
      PrefixScanStopsAt(entries, parseCidr, Prefixes(entries, parseCidr));
    }
  }

  /** The ring-size variable is accepted exactly when it gives a transmit size. */
  lemma RingSizeAcceptedIff(conf: string)
    ensures RingSizeAccepted(conf) <==> conf == "" || TxRingSize(conf).Some?
    ensures RingSizeAccepted(conf) && conf != "" ==> RxRingSize(conf).Some?
  {
  }

  /** The five updates in a row give the settings `Loaded` describes. */
  lemma UpdatesLoaded(s: Settings, env: Environment, parseCidr: CidrParser)
    requires Valid(s, env, parseCidr)
    ensures NetworkUpdate(SizesUpdate(SwitchesUpdate(QueuesUpdate(LoggingUpdate(s, env), env), env), env), env, parseCidr)
      == Loaded(s, env, parseCidr)
  {
  }

  /** The loader fails on every environment `Valid` refuses. */
  lemma LoadRejectsInvalid(s: Settings, env: Environment, parseCidr: CidrParser)
    ensures Load(s, env, parseCidr).error.None? ==> Valid(s, env, parseCidr)
  {
    var p1 := LoggingStages(Progress(s, {}, [], None), env);
    LoggingEffect(Progress(s, {}, [], None), env);
    var p2 := QueueStages(p1, env);
    QueuesAccepts(p1, env);
    if p2.error.None? {
      var p3 := SwitchStages(p2, env);
      SwitchesAccepts(p2, env);
      if p3.error.None? {
        var p4 := SizeStages(p3, env);
        SizesAccepts(p3, env);
        if p4.error.None? {
          NetworkAccepts(p4, env, parseCidr);
        }
      }
    }
  }

  /**
    On every environment `Valid` accepts, the loader succeeds, yields the
    settings `Loaded` describes, and has read every variable.
  */
  lemma ValidLoads(s: Settings, env: Environment, parseCidr: CidrParser)
    requires Valid(s, env, parseCidr)
    ensures Load(s, env, parseCidr).error.None?
    ensures Load(s, env, parseCidr).settings == Loaded(s, env, parseCidr)
    ensures Load(s, env, parseCidr).supported == ReadSet
  {
    var p1 := LoggingStages(Progress(s, {}, [], None), env);
    LoggingEffect(Progress(s, {}, [], None), env);
    var p2 := QueueStages(p1, env);
    QueuesAccepts(p1, env);
    var p3 := SwitchStages(p2, env);
    SwitchesAccepts(p2, env);
    var p4 := SizeStages(p3, env);
    SizesAccepts(p3, env);
    NetworkAccepts(p4, env, parseCidr);
    UpdatesLoaded(s, env, parseCidr);
    assert {} + LoggingVars == LoggingVars;
  }

  /** The loader succeeds exactly on the environments `Valid` accepts. */
  lemma LoadAccepts(s: Settings, env: Environment, parseCidr: CidrParser)
    ensures Load(s, env, parseCidr).error.None? <==> Valid(s, env, parseCidr)
  {
    LoadRejectsInvalid(s, env, parseCidr);
    if Valid(s, env, parseCidr) {
      ValidLoads(s, env, parseCidr);
    }
  }

  /**
    Every error the loader returns is explained by the environment, and an
    error about the key can only come when IPsec ends up on.
  */
  lemma LoadErrors(s: Settings, env: Environment, parseCidr: CidrParser)
    ensures Load(s, env, parseCidr).error.Some? ==>
      Justified(Load(s, env, parseCidr).error.value, IPSecAfter(s, env), env, parseCidr)
  {
    var p1 := LoggingStages(Progress(s, {}, [], None), env);
    LoggingEffect(Progress(s, {}, [], None), env);
    var p2 := QueueStages(p1, env);
    QueuesEffect(p1, env);
    if p2.error.None? {
      var p3 := SwitchStages(p2, env);
      SwitchesEffect(p2, env);
      if p3.error.None? {
        SwitchesAccepts(p2, env);
        var p4 := SizeStages(p3, env);
        SizesEffect(p3, env);
        if p4.error.None? {
          assert p4.settings.EnableIPSec == IPSecAfter(s, env);
          NetworkEffect(p4, env, parseCidr);
        }
      }
    }
  }

  /**
    Whatever else the environment holds, the log levels and the node name
    are set from their variables: a level that does not parse keeps the old
    one, and never makes the loader fail.
  */
  lemma LoadSetsLevels(s: Settings, env: Environment, parseCidr: CidrParser)
    ensures Load(s, env, parseCidr).settings.BgpLogLevel == LevelSetting(Getenv(env, BgpLogLevelEnvVar), s.BgpLogLevel)
    ensures Load(s, env, parseCidr).settings.LogLevel == LevelSetting(Getenv(env, LogLevelEnvVar), s.LogLevel)
    ensures Load(s, env, parseCidr).settings.NodeName == Getenv(env, NodeNameEnvVar)
  {
    var p1 := LoggingStages(Progress(s, {}, [], None), env);
    LoggingEffect(Progress(s, {}, [], None), env);
    var p2 := QueueStages(p1, env);
    QueuesEffect(p1, env);
    if p2.error.None? {
      var p3 := SwitchStages(p2, env);
      SwitchesEffect(p2, env);
      if p3.error.None? {
        var p4 := SizeStages(p3, env);
        SizesEffect(p3, env);
        if p4.error.None? {
          NetworkEffect(p4, env, parseCidr);
        }
      }
    }
  }

  /** Only the loader's own variables are recorded as read, and the first three always are. */
  lemma LoadReads(s: Settings, env: Environment, parseCidr: CidrParser)
    ensures LoggingVars <= Load(s, env, parseCidr).supported <= ReadSet
  {
    var p1 := LoggingStages(Progress(s, {}, [], None), env);
    LoggingEffect(Progress(s, {}, [], None), env);
    assert {} + LoggingVars == LoggingVars;
    var p2 := QueueStages(p1, env);
    QueuesEffect(p1, env);
    if p2.error.None? {
      var p3 := SwitchStages(p2, env);
      SwitchesEffect(p2, env);
      if p3.error.None? {
        var p4 := SizeStages(p3, env);
        SizesEffect(p3, env);
        if p4.error.None? {
          NetworkEffect(p4, env, parseCidr);
        }
      }
    }
  }

  /**
    The log holds the two level reports, then, after a successful load,
    one warning per unread agent variable.
  */
  lemma LoadDiagnostics(s: Settings, env: Environment, parseCidr: CidrParser)
    ensures var r := Load(s, env, parseCidr);
      r.diagnostics == LevelReport(BgpLogLevelEnvVar, Getenv(env, BgpLogLevelEnvVar))
                       + LevelReport(LogLevelEnvVar, Getenv(env, LogLevelEnvVar))
                       + (if r.error.None? then Unsupported(env.names, r.supported) else [])
  {
    var logs := LevelReport(BgpLogLevelEnvVar, Getenv(env, BgpLogLevelEnvVar))
                + LevelReport(LogLevelEnvVar, Getenv(env, LogLevelEnvVar));
    var p1 := LoggingStages(Progress(s, {}, [], None), env);
    LoggingEffect(Progress(s, {}, [], None), env);
    assert p1.diagnostics == logs;
    var p2 := QueueStages(p1, env);
    QueuesEffect(p1, env);
    if p2.error.None? {
      var p3 := SwitchStages(p2, env);
      SwitchesEffect(p2, env);
      if p3.error.None? {
        var p4 := SizeStages(p3, env);
        SizesEffect(p3, env);
        if p4.error.None? {
          var p5 := NetworkStages(p4, env, parseCidr);
          NetworkEffect(p4, env, parseCidr);
          assert p5.diagnostics == logs;
          if p5.error.None? {
            assert Load(s, env, parseCidr) == Finish(p5, env);
          } else {
            assert Load(s, env, parseCidr) == p5;
          }
        } else {
          assert Load(s, env, parseCidr) == p4;
        }
      } else {
        assert Load(s, env, parseCidr) == p3;
      }
    } else {
      assert Load(s, env, parseCidr) == p2;
    }
  }

  /**
    A bad receive-queue count stops the loader before any other guarded
    variable is read: only the log levels and the node name, set before it,
    have changed.
  */
  lemma BadRxQueuesStopsEarly(s: Settings, env: Environment, parseCidr: CidrParser)
    requires !QueueAccepted(Getenv(env, TapNumRxQueuesEnvVar))
    ensures Load(s, env, parseCidr).error == Some(InvalidValue(TapNumRxQueuesEnvVar, Getenv(env, TapNumRxQueuesEnvVar)))
    ensures Load(s, env, parseCidr).settings == LoggingUpdate(s, env)
    ensures Load(s, env, parseCidr).supported == LoggingVars + {TapNumRxQueuesEnvVar}
  {
    LoggingEffect(Progress(s, {}, [], None), env);
    assert {} + LoggingVars == LoggingVars;
  }

  /**
    Two ring sizes of which only the first parses: the receive size is
    already stored when the transmit size is rejected.
  */
  lemma RingSizeKeepsRx(p: Progress, env: Environment, rx: int)
    requires var sizes := Split(Getenv(env, TapQueueSizeEnvVar), ',');
      |sizes| == 2 && ParseInt(sizes[0], 32) == Some(rx) && ParseInt(sizes[1], 32).None?
    ensures RingSizeStage(p, env).error == Some(InvalidValue(TapQueueSizeEnvVar, Getenv(env, TapQueueSizeEnvVar)))
    ensures RingSizeStage(p, env).settings == p.settings.(TapRxQueueSize := rx)
  {
  }

  /** A positive 16-bit count is read back as itself; any other integer is refused. */
  lemma QueueCountFormat(n: int)
    ensures QueueCount(FormatInt(n)) == if 0 < n < 0x8000 then Some(n) else None
  {
    ParseFormatInt(n, 16);
  }

  /** The setting counts the node's own address on top of the 8-bit extra count. */
  lemma AddressCountFormat(n: int)
    ensures AddressCount(FormatInt(n)) == if -0x80 <= n < 0x80 then Some(n + 1) else None
  {
    ParseFormatInt(n, 8);
  }

  /** A single ring size sets both directions. */
  lemma RingSizeOne(n: int)
    requires -0x8000_0000 <= n < 0x8000_0000
    ensures RingSizeAccepted(FormatInt(n))
    ensures RxRingSize(FormatInt(n)) == Some(n) && TxRingSize(FormatInt(n)) == Some(n)
  {
    FormatIntChars(n);
    SplitNoSeparator(FormatInt(n), ',');
    ParseFormatInt(n, 32);
  }

  /** "rx,tx" sets the receive size from the first field and the transmit size from the second. */
  lemma RingSizeTwo(rx: int, tx: int)
    requires -0x8000_0000 <= rx < 0x8000_0000 && -0x8000_0000 <= tx < 0x8000_0000
    ensures var conf := FormatInt(rx) + "," + FormatInt(tx);
      RingSizeAccepted(conf) && RxRingSize(conf) == Some(rx) && TxRingSize(conf) == Some(tx)
  {
    FormatIntChars(rx);
    FormatIntChars(tx);
    SplitAfterPiece(FormatInt(rx), FormatInt(tx), ',');
    SplitNoSeparator(FormatInt(tx), ',');
    assert FormatInt(rx) + "," + FormatInt(tx) == FormatInt(rx) + [','] + FormatInt(tx);
    ParseFormatInt(rx, 32);
    ParseFormatInt(tx, 32);
  }

  /** Three or more ring sizes are refused. */
  lemma RingSizeTooMany(conf: string)
    requires |Split(conf, ',')| > 2
    ensures !RingSizeAccepted(conf)
    ensures RxRingSize(conf).None? && TxRingSize(conf).None?
  {
  }

  /**
    Loading the same environment twice changes nothing more, except that
    the service prefixes are appended a second time.
  */
  lemma ReloadAppendsPrefixes(s: Settings, env: Environment, parseCidr: CidrParser)
    requires Valid(s, env, parseCidr)
    ensures Valid(Loaded(s, env, parseCidr), env, parseCidr)
    ensures var once := Loaded(s, env, parseCidr);
      Loaded(once, env, parseCidr)
      == once.(ServiceCIDRs := once.ServiceCIDRs + Prefixes(Split(Getenv(env, ServicePrefixEnvVar), ','), parseCidr))
  {
    var once := Loaded(s, env, parseCidr);
    assert IPSecAfter(once, env) == IPSecAfter(s, env);
    var ring := Getenv(env, TapQueueSizeEnvVar);
    GuardedTwice(ring, RxRingSize(ring), s.TapRxQueueSize);
    GuardedTwice(ring, TxRingSize(ring), s.TapTxQueueSize);
    var extra := Getenv(env, IPSecExtraAddressesEnvVar);
    GuardedTwice(extra, AddressCount(extra), s.IpsecAddressCount);
  }

  /** A guarded assignment repeated with the same value changes nothing more. */
  lemma GuardedTwice<T>(conf: string, parsed: Option<T>, current: T)
    ensures Guarded(conf, parsed, Guarded(conf, parsed, current)) == Guarded(conf, parsed, current)
  {
  }

  /** With no service prefix set, the loader fails unless the empty string parses as a prefix. */
  lemma UnsetServicePrefixFails(s: Settings, env: Environment, parseCidr: CidrParser)
    requires Getenv(env, ServicePrefixEnvVar) == ""
    ensures Load(s, env, parseCidr).error.None? ==> parseCidr("").Some?
  {
    SplitNoSeparator("", ',');
    LoadAccepts(s, env, parseCidr);
  }

  /** IPsec left on with no key makes the loader fail. */
  lemma PskRequired(s: Settings, env: Environment, parseCidr: CidrParser)
    requires IPSecAfter(s, env) && Getenv(env, IPSecIkev2PskEnvVar) == ""
    ensures Load(s, env, parseCidr).error.Some?
  {
    LoadAccepts(s, env, parseCidr);
  }

  /** A missing-PSK error arises only with IPsec on and no PSK. */
  lemma PskErrorMeansMissing(s: Settings, env: Environment, parseCidr: CidrParser)
    ensures Load(s, env, parseCidr).error == Some(PskNotConfigured) ==>
      IPSecAfter(s, env) && Getenv(env, IPSecIkev2PskEnvVar) == ""
  {
    LoadStopsAtFirstError(s, env, parseCidr);
    PositionInReadOrder(13);
  }

  /**
    After a successful load, which is a load of an accepted environment
    (`LoadAccepts`), a warning is logged for exactly the names of the
    environment that hold the agent marker and that the loader does not read.
  */
  lemma WarnsExactlyUnread(s: Settings, env: Environment, parseCidr: CidrParser, name: string)
    requires Valid(s, env, parseCidr)
    ensures UnsupportedVariable(name) in Load(s, env, parseCidr).diagnostics
      <==> name in env.names && Contains(name, AgentVarMarker) && name !in ReadSet
  {
    var r := Load(s, env, parseCidr);
    ValidLoads(s, env, parseCidr);
    assert r.error.None? && r.supported == ReadSet;
    LoadDiagnostics(s, env, parseCidr);
    var logs := LevelReport(BgpLogLevelEnvVar, Getenv(env, BgpLogLevelEnvVar))
                + LevelReport(LogLevelEnvVar, Getenv(env, LogLevelEnvVar));
    assert r.diagnostics == logs + Unsupported(env.names, ReadSet);
    assert UnsupportedVariable(name) !in logs;
    UnsupportedExactly(env.names, ReadSet);
  }

  /**
    On an accepted environment, every guarded setting whose variable is unset
    keeps its previous value. The node name and the key are assigned
    whatever their variables hold, and the receive mode falls to its default.
  */
  lemma UnsetKeeps(s: Settings, env: Environment, parseCidr: CidrParser)
    requires Valid(s, env, parseCidr)
    ensures var l := Loaded(s, env, parseCidr);
      && (Getenv(env, TapNumRxQueuesEnvVar) == "" ==> l.TapNumRxQueues == s.TapNumRxQueues)
      && (Getenv(env, TapNumTxQueuesEnvVar) == "" ==> l.TapNumTxQueues == s.TapNumTxQueues)
      && (Getenv(env, TapGSOEnvVar) == "" ==> l.TapGSOEnabled == s.TapGSOEnabled)
      && (Getenv(env, EnableIPSecEnvVar) == "" ==> l.EnableIPSec == s.EnableIPSec)
      && (Getenv(env, CrossIpsecTunnelsEnvVar) == "" ==> l.CrossIpsecTunnels == s.CrossIpsecTunnels)
      && (Getenv(env, EnableServicesEnvVar) == "" ==> l.EnableServices == s.EnableServices)
      && (Getenv(env, EnablePoliciesEnvVar) == "" ==> l.EnablePolicies == s.EnablePolicies)
      && (Getenv(env, IPSecExtraAddressesEnvVar) == "" ==> l.IpsecAddressCount == s.IpsecAddressCount)
      && (Getenv(env, TapMtuEnvVar) == "" ==> l.TapMtu == s.TapMtu)
      && (Getenv(env, TapQueueSizeEnvVar) == "" ==> l.TapRxQueueSize == s.TapRxQueueSize && l.TapTxQueueSize == s.TapTxQueueSize)
      && (Getenv(env, BgpLogLevelEnvVar) == "" ==> l.BgpLogLevel == s.BgpLogLevel)
      && (Getenv(env, LogLevelEnvVar) == "" ==> l.LogLevel == s.LogLevel)
  {
  }

  /** The value each receive mode is selected by. */
  function RxModeName(m: RxMode): string
  {
    match m
    case Interrupt => "interrupt"
    case Polling => "polling"
    case Adaptative => "adaptive"
  }

  /**
    Each mode is selected by its name, and a value other than the names of
    the interrupt and polling modes selects the default mode.
  */
  lemma RxModeNames(m: RxMode, conf: string)
    ensures RxModeOf(RxModeName(m)) == m
    ensures RxModeOf(conf) != DefaultRxMode ==> conf == RxModeName(RxModeOf(conf))
  {
  }

  /** A level's own name, in any case, sets it without a report; an unreadable level keeps the old one. */
  lemma LevelNames(name: string, l: Level, conf: string, current: Level)
    ensures LevelSetting(LevelText(l), current) == l && LevelReport(name, LevelText(l)) == []
    ensures LevelSetting(ToUpperAscii(LevelText(l)), current) == l
    ensures ParseLevel(conf).None? ==> LevelSetting(conf, current) == current
    ensures ParseLevel(conf).None? && conf != "" ==> LevelReport(name, conf) == [BadLogLevel(name, conf)]
  {
    ParseLevelText(l);
    ParseLevelIgnoresCase("");
  }
}
