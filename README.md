# calico-vpp agent configuration and AF_PACKET uplink, in Dafny

This project models two sequential pieces of the calico-vpp dataplane and
proves what they do.

**The agent configuration loader** (`calico-vpp-agent/config/config.go`).
The package-level settings and their defaults are the fields of the class
`Config.AgentConfig`. Its method `LoadConfig` reads the environment one
variable after another, the way the Go function does. It records every
name it reads (`supportedEnvVars`), parses each value as a 16-, 8- or
32-bit integer, a boolean, a comma-separated ring-size pair, a CIDR list,
a log level or a receive mode, and stops at the first invalid value. When
it stops, whatever it assigned before stays assigned, and the failing
variable's own setting is as it was, except that a ring-size pair whose
second field is bad has already stored the receive size, and the service
prefixes parsed before a bad entry have already been appended. At the end it warns
about every `CALICOVPP_` variable it never read. The function `Config.Load`
states the whole loader as a value: the settings, the set of names read,
the log and the error. `LoadConfig` is proved to compute exactly `Load`.
The lemmas of `ConfigProperties` then say what `Load` means:
- which environments it accepts (`Valid`);
- which settings it produces (`Loaded`);
- which error it stops with: the first variable, in reading order, whose
  value is not accepted (`LoadStopsAtFirstError`);
- what it leaves behind when it fails: the variables read up to that one,
  every earlier setting as its own step set it, the failing variable's
  setting as its step left it, and every later setting as it started
  (`UpTo`);
- what it logs.

The Go library calls the loader relies on are written out as functions:
- `strconv.ParseInt` in base 10, and `strconv.ParseBool`, in `go_strconv.dfy`;
- `strings.Split` and `strings.Contains`, in `go_strings.dfy`;
- `logrus.ParseLevel`, in `logrus.dfy`.

`net.ParseCIDR` is a parameter of the loader (`CidrParser`). `os.Getenv`
and `os.Environ` become an `Environment`: a map from names to values, plus
the names in `os.Environ` order.

**The AF_PACKET uplink driver** (`vpp-manager/uplink/af_packet.go`).
The kernel and the VPP instance together are one abstract `Uplink.Host`:
- links, each with its up and promisc flags, namespace, addresses and routes;
- VPP's interface table, and the index VPP hands out next;
- the interface tags;
- the driver's log.

Every netlink, namespace-move and VPP call is a `Host` method. Whether it
succeeds is set by the host's failure plan (`Faults`), an input of the
model. `AFPacketDriver`'s methods make the calls in the source's order,
with its guards and early returns. They are proved to compute the
functions `Preconfigure`, `Restore` and `CreateMain`. The lemmas of
`UplinkProperties` state, path by path:
- which steps run;
- which failures abort and which are only logged;
- what reaches the kernel and VPP;
- what a takeover followed by a restore gives back.

## Behaviour worth knowing

- **Restore stops when set-up fails.** `RestoreLinux` returns as soon as `SafeSetInterfaceUpByName` fails (af_packet.go:61-66). The promisc flag, the addresses and the routes are then not restored (`RestoreSetUpFails`). In a restore where every call fails, the promisc failure therefore never shows (`RestoreEveryStepFails`).
- **A link captured down comes back promiscuous.** `PreconfigureLinux` turns promisc on (af_packet.go:43). For an interface captured down, `RestoreLinux` returns at af_packet.go:58-60, before its promisc step (af_packet.go:68-77). That interface comes back promiscuous (`CycleLeavesDownLinkPromiscuous`, `EthZeroCycle`). For an interface captured up, with no failures and a fresh VPP, takeover and restore give the link back as it was (`CycleRestoresUpLink`).
- **A wrong index leaves the VPP interface behind.** On that error the VPP interface has already been created and is not removed (af_packet.go:89-97, `CreateIndexCheck`). Rolling it back is left to the caller.
- **An unset `SERVICE_PREFIX` is a parse of the empty string.** `strings.Split` of the empty string gives one empty entry, and `net.ParseCIDR` is applied to it (config.go:237-239). The loader fails on an unset variable unless the parser accepts `""` (`UnsetServicePrefixFails`).
- **`CALICOVPP_IPSEC_ASSUME_EXTRA_ADDRESSES` accepts negative counts.** It is parsed as a signed 8-bit integer, so `IpsecAddressCount` ranges from -127 to 128 (`AddressCountFormat`).

## Model

| member | source | states |
|---|---|---|
| GoStrconv.ParseInt | calico-vpp-agent/config/config.go:135 | a value `strconv.ParseInt(s, 10, bitSize)` accepts lies in the signed range of the bit size, and the empty string is rejected |
| GoStrconv.ParseFormatInt | calico-vpp-agent/config/config.go:135 | parsing the decimal spelling of `n` gives `n` back exactly when `n` fits the bit size, and an error otherwise |
| GoStrconv.ParseFormatBool | calico-vpp-agent/config/config.go:151 | `ParseBool` inverts `FormatBool` and rejects the empty string |
| GoStrings.Split | calico-vpp-agent/config/config.go:207 | splitting gives one more field than there are separators, and no field holds the separator |
| GoStrings.JoinSplit | calico-vpp-agent/config/config.go:207 | joining the fields of a split with the separator gives the original string back |
| GoStrings.SplitJoin | calico-vpp-agent/config/config.go:238 | splitting the join of separator-free fields gives those fields back |
| GoStrings.ContainsAt | calico-vpp-agent/config/config.go:259 | `strings.Contains` holds exactly when the substring occurs at some position |
| Logrus.ParseLevelText | calico-vpp-agent/config/config.go:115 | every level's name, in lower or upper case, parses to that level |
| Logrus.ParseLevelIgnoresCase | calico-vpp-agent/config/config.go:115 | `ParseLevel` does not depend on letter case, and the empty string is not a level |
| Config.QueueCount | calico-vpp-agent/config/config.go:134-148 | a queue count is accepted only if it parses as a base-10 16-bit integer, and then lies in 1..32767 |
| Config.AddressCount | calico-vpp-agent/config/config.go:190-196 | the stored address count lies in -127..128 |
| Config.ParsePrefixes | calico-vpp-agent/config/config.go:237-244 | each entry before the first bad one parses to the prefix kept for it, in order; the first rejected entry is the one reported; with no bad entry, every entry is parsed |
| Config.PrefixScanStopsAt | calico-vpp-agent/config/config.go:238-244 | if the first entries parse to a given list and the next entry, if any, is rejected, the scan returns exactly that list and that entry |
| Config.UnsupportedExactly | calico-vpp-agent/config/config.go:257-264 | a warning is logged for a name exactly when the environment holds it, it contains `CALICOVPP_`, and it was never read |
| Config.BgpLogLevelStage | calico-vpp-agent/config/config.go:114-121 | step 0 of `Step`: reads the BGP log level, never fails, and sets only the BGP level, logging a value that does not parse (`StepContract`, `LevelNames`) |
| Config.LogLevelStage | calico-vpp-agent/config/config.go:123-130 | step 1 of `Step`: the same for the agent log level |
| Config.NodeNameStage | calico-vpp-agent/config/config.go:132 | step 2 of `Step`: reads the node name, never fails, and sets only the node name (`StepContract`) |
| Config.RxQueuesStage | calico-vpp-agent/config/config.go:134-140 | step 3 of `Step`: sets only the receive queue count, and fails exactly when a set value is not a positive 16-bit integer, with an error naming the variable (`StepContract`, `QueueCountFormat`) |
| Config.TxQueuesStage | calico-vpp-agent/config/config.go:142-148 | step 4 of `Step`: the same for the transmit queue count |
| Config.GsoStage | calico-vpp-agent/config/config.go:150-156 | step 5 of `Step`: sets only the GSO flag, and fails exactly when a set value does not parse as a boolean (`StepContract`) |
| Config.IPSecStage | calico-vpp-agent/config/config.go:158-164 | step 6 of `Step`: the same for the IPsec switch |
| Config.CrossTunnelsStage | calico-vpp-agent/config/config.go:166-172 | step 7 of `Step`: the same for cross IPsec tunnels |
| Config.ServicesStage | calico-vpp-agent/config/config.go:174-180 | step 8 of `Step`: the same for services |
| Config.PoliciesStage | calico-vpp-agent/config/config.go:182-188 | step 9 of `Step`: the same for policies |
| Config.ExtraAddressesStage | calico-vpp-agent/config/config.go:190-196 | step 10 of `Step`: sets only the IPsec address count, and fails exactly when a set value is not an 8-bit integer (`StepContract`, `AddressCountFormat`) |
| Config.MtuStage | calico-vpp-agent/config/config.go:198-204 | step 11 of `Step`: sets only the tap MTU, and fails exactly when a set value is not a 32-bit integer (`StepContract`) |
| Config.RingSizeStage | calico-vpp-agent/config/config.go:206-229 | step 12 of `Step`: sets only the two ring sizes, and fails exactly when a set value is not one or two 32-bit fields (`StepContract`, `RingSizeOne`, `RingSizeTwo`, `RingSizeTooMany`) |
| Config.PskStage | calico-vpp-agent/config/config.go:231-235 | step 13 of `Step`: sets only the PSK, and fails exactly when IPsec is on and the PSK is empty (`StepContract`, `PskErrorMeansMissing`) |
| Config.ServicePrefixStage | calico-vpp-agent/config/config.go:237-244 | step 14 of `Step`: changes only the service prefixes, and fails exactly when some entry does not parse (`StepContract`, `ScanAcceptsAll`) |
| Config.RxModeStage | calico-vpp-agent/config/config.go:246-255 | step 15 of `Step`: never fails and sets only the receive mode (`StepContract`, `RxModeNames`) |
| Config.LoggingStages | calico-vpp-agent/config/config.go:114-132 | steps 0 to 2 run in order (`LoggingRun`); what they do is stated by `LoggingEffect` |
| Config.QueueStages | calico-vpp-agent/config/config.go:134-156 | steps 3 to 5, stopping at the first failure (`QueuesRun`); stated by `QueuesEffect` and `QueuesAccepts` |
| Config.SwitchStages | calico-vpp-agent/config/config.go:158-188 | steps 6 to 9, stopping at the first failure (`SwitchesRun`); stated by `SwitchesEffect` and `SwitchesAccepts` |
| Config.SizeStages | calico-vpp-agent/config/config.go:190-229 | steps 10 to 12, stopping at the first failure (`SizesRun`); stated by `SizesEffect` and `SizesAccepts` |
| Config.NetworkStages | calico-vpp-agent/config/config.go:231-255 | steps 13 to 15, stopping at the first failure (`NetworkRun`); stated by `NetworkEffect` and `NetworkAccepts` |
| Config.Load | calico-vpp-agent/config/config.go:111-266 | `LoadConfig` as a value; its meaning is stated by `LoadAccepts`, `ValidLoads`, `LoadErrors`, `LoadStopsAtFirstError` (including every setting a failed load leaves, through `UpTo`) and `LoadDiagnostics` |
| Config.Unsupported | calico-vpp-agent/config/config.go:257-264 | at most one warning per environment name (its exact set is `UnsupportedExactly`) |
| Config.Finish | calico-vpp-agent/config/config.go:257-264 | only appends to the log, at most one warning per environment name, and leaves a failed run untouched |
| Config.AgentConfig.IsEnvVarSupported | calico-vpp-agent/config/config.go:100-103 | holds for the names recorded as read; `GetEnvValue` ensures it for the name it reads |
| ConfigProperties.ScanAcceptsAll | calico-vpp-agent/config/config.go:238-244 | the prefix scan stops early exactly when some entry is not a prefix |
| ConfigProperties.StepContract | calico-vpp-agent/config/config.go:114-255 | every step reads exactly its own variable, logs only a bad log level, leaves the settings `StepSettings` gives (its own settings updated from the environment, the rest unchanged, whether or not it fails), and, started without an error, fails exactly when it does not accept its variable's value, with an error about that variable |
| ConfigProperties.LoadRuns | calico-vpp-agent/config/config.go:111-266 | the loader is all sixteen steps in reading order, stopping at the first failure, then the warnings about unread variables |
| ConfigProperties.RunFacts | calico-vpp-agent/config/config.go:111-255 | after the first k steps, either every one accepted its value, read its variable and left the settings `UpTo(s, env, parseCidr, k)`, or the run stopped at the first step i that did not accept, with the settings `UpTo(s, env, parseCidr, i + 1)` |
| ConfigProperties.LoadStopsAtFirstError | calico-vpp-agent/config/config.go:111-255 | a failed load stops at the first variable i in reading order whose value is not accepted; every earlier one was accepted, exactly the variables up to it were read, the settings are `UpTo(s, env, parseCidr, i + 1)` (every earlier assignment made, the failing variable's own setting unchanged except for the receive ring size of a bad pair and the service prefixes parsed before a bad entry), and every later setting is as it started |
| ConfigProperties.UpToStep | calico-vpp-agent/config/config.go:114-255 | the settings after j steps, updated by step j, are the settings after j + 1 steps: `UpTo` is the closed form of running the steps one after another |
| ConfigProperties.UpToLoaded | calico-vpp-agent/config/config.go:111-266 | on an accepted environment, the settings after all sixteen steps are those `Loaded` gives |
| Config.AgentConfig.constructor | calico-vpp-agent/config/config.go:64-82 | the settings start at the package defaults: 1 queue each way, GSO on, services and policies on, IPsec off, 1 IPsec address, Info log levels, adaptive receive mode, ring sizes and MTU 0, no service prefixes |
| Config.AgentConfig.GetEnvValue | calico-vpp-agent/config/config.go:105-108 | reading a variable records its name as supported and returns its value, or `""` when unset |
| Config.AgentConfig.LoadConfig | calico-vpp-agent/config/config.go:110-266 | the settings, read-name set, log and error after the call are exactly those of `Load` from the settings before it, stopping at the first invalid value |
| Config.AgentConfig.LoadLogging | calico-vpp-agent/config/config.go:114-132 | the two log levels and the node name are set as the logging stages say, and they never fail |
| Config.AgentConfig.LoadQueues | calico-vpp-agent/config/config.go:134-156 | the queue counts and GSO flag are loaded as the queue stages say, and the error returned is theirs |
| Config.AgentConfig.LoadSwitches | calico-vpp-agent/config/config.go:158-188 | the four boolean switches are loaded in source order as their stages say, and the error returned is theirs |
| Config.AgentConfig.LoadSizes | calico-vpp-agent/config/config.go:190-229 | the IPsec address count, MTU and ring sizes are loaded as their stages say, and the error returned is theirs |
| Config.AgentConfig.LoadNetwork | calico-vpp-agent/config/config.go:231-255 | the PSK, the service prefixes and the receive mode are loaded as their stages say, and the error returned is theirs |
| Config.AgentConfig.LoadBgpLogLevel | calico-vpp-agent/config/config.go:114-121 | a set BGP log level that parses is stored; one that does not is logged and the old level kept |
| Config.AgentConfig.LoadLogLevel | calico-vpp-agent/config/config.go:123-130 | a set log level that parses is stored; one that does not is logged and the old level kept |
| Config.AgentConfig.LoadNodeName | calico-vpp-agent/config/config.go:132 | the node name becomes the variable's value, even an empty one |
| Config.AgentConfig.LoadTapNumRxQueues | calico-vpp-agent/config/config.go:134-140 | a set value must be a positive 16-bit integer and is then stored; anything else is an error naming the variable and its value |
| Config.AgentConfig.LoadTapNumTxQueues | calico-vpp-agent/config/config.go:142-148 | the same for the transmit queue count |
| Config.AgentConfig.LoadTapGSO | calico-vpp-agent/config/config.go:150-156 | a set value must parse as a boolean and is then stored; otherwise it is an error |
| Config.AgentConfig.LoadEnableIPSec | calico-vpp-agent/config/config.go:158-164 | the same for the IPsec switch |
| Config.AgentConfig.LoadCrossIpsecTunnels | calico-vpp-agent/config/config.go:166-172 | the same for cross IPsec tunnels |
| Config.AgentConfig.LoadEnableServices | calico-vpp-agent/config/config.go:174-180 | the same for services |
| Config.AgentConfig.LoadEnablePolicies | calico-vpp-agent/config/config.go:182-188 | the same for policies |
| Config.AgentConfig.LoadIpsecAddressCount | calico-vpp-agent/config/config.go:190-196 | a set value must parse as an 8-bit integer, and the count becomes that value plus one |
| Config.AgentConfig.LoadTapMtu | calico-vpp-agent/config/config.go:198-204 | a set value must parse as a 32-bit integer and is then stored |
| Config.AgentConfig.LoadTapQueueSize | calico-vpp-agent/config/config.go:206-229 | one field sets both ring sizes; two fields set receive then transmit, and the receive size stays set when the second field is bad; any other count, or a bad field, is an error |
| Config.AgentConfig.LoadIPSecIkev2Psk | calico-vpp-agent/config/config.go:231-235 | with IPsec on and no PSK the load fails; otherwise the PSK read is stored |
| Config.AgentConfig.LoadServiceCIDRs | calico-vpp-agent/config/config.go:237-244 | the prefixes parsed before the first bad entry are appended, and a bad entry is an error naming it |
| Config.AgentConfig.AppendServiceCIDRs | calico-vpp-agent/config/config.go:238-244 | the loop appends the parsed prefixes in order onto the existing list and returns the first entry that does not parse |
| Config.AgentConfig.LoadTapRxMode | calico-vpp-agent/config/config.go:246-255 | the receive mode is the one named, or adaptive for any other value |
| Config.AgentConfig.WarnUnsupported | calico-vpp-agent/config/config.go:257-264 | the log gains one warning per unread `CALICOVPP_` variable, in environment order |
| ConfigProperties.LoggingEffect | calico-vpp-agent/config/config.go:114-132 | the logging stages never fail; they read exactly their three names, log exactly the two level reports, and set only the levels and the node name |
| ConfigProperties.QueuesEffect | calico-vpp-agent/config/config.go:134-156 | the queue stages change no other setting, read only their names, and fail only with an invalid value of one of their variables |
| ConfigProperties.QueuesAccepts | calico-vpp-agent/config/config.go:134-156 | the queue stages succeed exactly when every set queue or GSO value is acceptable, and then they store the parsed values |
| ConfigProperties.SwitchesEffect | calico-vpp-agent/config/config.go:158-188 | the switch stages change no other setting, read only their names, and fail only with a value `ParseBool` rejects |
| ConfigProperties.SwitchesAccepts | calico-vpp-agent/config/config.go:158-188 | the switch stages succeed exactly when every set switch parses as a boolean, and then they store the parsed values |
| ConfigProperties.SizesEffect | calico-vpp-agent/config/config.go:190-229 | the size stages change no other setting, read only their names, and fail only with a rejected count, MTU or ring size |
| ConfigProperties.SizesAccepts | calico-vpp-agent/config/config.go:190-229 | the size stages succeed exactly when the count, MTU and ring size are acceptable, and then they store the parsed values |
| ConfigProperties.NetworkEffect | calico-vpp-agent/config/config.go:231-255 | the network stages change only the PSK, the prefixes and the receive mode; they fail only for a missing PSK with IPsec on, or a prefix the parser rejects |
| ConfigProperties.NetworkAccepts | calico-vpp-agent/config/config.go:231-255 | the network stages succeed exactly when the PSK is present, or IPsec is off, and every prefix parses; then the PSK is stored, the prefixes are appended and the mode is set |
| ConfigProperties.RingSizeAcceptedIff | calico-vpp-agent/config/config.go:206-229 | a ring size is accepted, judged by field count and field parses, exactly when the transmit size can be read |
| ConfigProperties.UpdatesLoaded | calico-vpp-agent/config/config.go:110-266 | the five group updates applied in source order give the settings of a complete load |
| ConfigProperties.LoadRejectsInvalid | calico-vpp-agent/config/config.go:110-266 | a load that succeeds had a valid environment |
| ConfigProperties.ValidLoads | calico-vpp-agent/config/config.go:110-266 | a valid environment loads without error, gives exactly the `Loaded` settings, and reads every variable of the loader |
| ConfigProperties.LoadAccepts | calico-vpp-agent/config/config.go:110-266 | a load succeeds exactly when the environment is valid |
| ConfigProperties.LoadErrors | calico-vpp-agent/config/config.go:110-266 | every error names a variable whose set value was rejected, or is a missing PSK with IPsec on, or names a service prefix the parser rejects |
| ConfigProperties.LoadSetsLevels | calico-vpp-agent/config/config.go:114-132 | whether the load succeeds or fails, the log levels and the node name are set from the environment |
| ConfigProperties.LoadReads | calico-vpp-agent/config/config.go:110-266 | every load reads the three logging variables and only variables of the loader |
| ConfigProperties.LoadDiagnostics | calico-vpp-agent/config/config.go:114-264 | the log holds the bad-level reports, then the unread-variable warnings, and those warnings only when the load succeeds |
| ConfigProperties.BadRxQueuesStopsEarly | calico-vpp-agent/config/config.go:134-140 | a bad receive queue count stops the load after the logging settings: nothing later is assigned or read |
| ConfigProperties.RingSizeKeepsRx | calico-vpp-agent/config/config.go:215-224 | with a good first field and a bad second one, the receive ring size is stored before the error |
| ConfigProperties.QueueCountFormat | calico-vpp-agent/config/config.go:134-140 | the decimal spelling of `n` is accepted as a queue count exactly when 0 < n < 32768 |
| ConfigProperties.AddressCountFormat | calico-vpp-agent/config/config.go:190-196 | the decimal spelling of `n` is accepted exactly when it fits 8 bits, and gives n + 1 addresses |
| ConfigProperties.RingSizeOne | calico-vpp-agent/config/config.go:208-214 | one 32-bit field sets both ring sizes to it |
| ConfigProperties.RingSizeTwo | calico-vpp-agent/config/config.go:215-225 | two 32-bit fields set the receive size to the first and the transmit size to the second |
| ConfigProperties.RingSizeTooMany | calico-vpp-agent/config/config.go:226-228 | three or more fields are rejected |
| ConfigProperties.ReloadAppendsPrefixes | calico-vpp-agent/config/config.go:237-244 | loading twice from the same environment gives the same settings, except that the service prefixes are appended a second time |
| ConfigProperties.UnsetServicePrefixFails | calico-vpp-agent/config/config.go:237-241 | with `SERVICE_PREFIX` unset, a load can only succeed if the parser accepts the empty string |
| ConfigProperties.PskRequired | calico-vpp-agent/config/config.go:231-235 | with IPsec on after its variable is read and no PSK, the load fails |
| ConfigProperties.PskErrorMeansMissing | calico-vpp-agent/config/config.go:231-235 | a missing-PSK error arises only when IPsec is on after its variable is read and the PSK is empty |
| ConfigProperties.WarnsExactlyUnread | calico-vpp-agent/config/config.go:257-264 | after a successful load, a variable is warned about exactly when it is set, contains `CALICOVPP_`, and is not one the loader reads |
| ConfigProperties.UnsetKeeps | calico-vpp-agent/config/config.go:64-82 | on an accepted environment, every guarded setting whose variable is unset keeps its previous value (the node name and the PSK are assigned unconditionally, the receive mode falls to its default, and an unset service-prefix list fails the load) |
| ConfigProperties.RxModeNames | calico-vpp-agent/config/config.go:246-255 | each mode's name selects that mode, and only those names select a mode other than the default |
| ConfigProperties.LevelNames | calico-vpp-agent/config/config.go:114-130 | a level's name, in any case, sets that level with nothing logged; an unparsable set value keeps the old level and is logged |
| Uplink.Host.LinkByName | vpp-manager/uplink/af_packet.go:39 | the lookup finds the link exactly when it exists |
| Uplink.Host.SetPromiscOn | vpp-manager/uplink/af_packet.go:43 | on success only the link's promisc flag changes, to on; on failure nothing changes |
| Uplink.Host.SetPromiscOff | vpp-manager/uplink/af_packet.go:70 | on success only the link's promisc flag changes, to off; on failure nothing changes |
| Uplink.Host.SafeSetInterfaceUpByName | vpp-manager/uplink/af_packet.go:62 | a missing link or a failure changes nothing; otherwise the link is up |
| Uplink.Host.MoveInterfaceToNS | vpp-manager/uplink/af_packet.go:81 | a missing link or a failure changes nothing; otherwise the link is in VPP's namespace |
| Uplink.Host.MoveInterfaceFromNS | vpp-manager/uplink/af_packet.go:52 | a missing link or a failure changes nothing; otherwise the link is in the root namespace |
| Uplink.Host.RestoreLinuxIfConf | vpp-manager/uplink/af_packet.go:77 | the captured addresses and routes are added to the link's |
| Uplink.Host.CreateAfPacket | vpp-manager/uplink/af_packet.go:89 | on success VPP's next index now names this uplink and is returned; on failure nothing changes |
| Uplink.Host.TagMainInterface | vpp-manager/uplink/af_packet.go:99 | on success the index is tagged with the name; on failure nothing changes |
| Uplink.Host.Log | vpp-manager/uplink/af_packet.go:54 | the entry is appended to the log |
| Uplink.AFPacketDriver.constructor | vpp-manager/uplink/af_packet.go:106-113 | the driver is named `af_packet` and keeps the parameters, captured state and interface spec it is given |
| Uplink.AFPacketDriver.IsSupported | vpp-manager/uplink/af_packet.go:34-36 | the driver is supported whatever `warn` is, and nothing changes |
| Uplink.Preconfigure | vpp-manager/uplink/af_packet.go:38-48 | success exactly when the link exists and promisc can be set; a failure leaves the host unchanged; on success the link is promiscuous |
| Uplink.Restore | vpp-manager/uplink/af_packet.go:50-78 | only the links and the log change, and the log only grows |
| Uplink.CreateMain | vpp-manager/uplink/af_packet.go:80-104 | the spec's index stays or becomes the index VPP hands out; a tag is set only on success, at that index, to the uplink's name; the failure plan is unchanged |
| Uplink.Host.constructor | vpp-manager/uplink/af_packet.go:38-104 | a host with the given links, no VPP interfaces or tags, an empty log and the given failure plan |
| Uplink.InterfaceSpec.constructor | vpp-manager/uplink/af_packet.go:80-104 | an interface spec with the given name and role and no index yet |
| Uplink.AFPacketDriver.PreconfigureLinux | vpp-manager/uplink/af_packet.go:38-48 | the host and the error after the call are exactly those of `Preconfigure` on the spec's interface |
| Uplink.AFPacketDriver.RestoreLinux | vpp-manager/uplink/af_packet.go:50-78 | the host after the call is exactly `Restore` of the host before it, and no error is returned |
| Uplink.AFPacketDriver.CreateMainVppInterface | vpp-manager/uplink/af_packet.go:80-104 | the host, the error and the spec's index after the call are exactly those of `CreateMain`; the spec's name and role are unchanged |
| UplinkProperties.PreconfigureOutcome | vpp-manager/uplink/af_packet.go:38-48 | success exactly when the link exists and promisc can be set; a missing link gives an error naming it and leaves the host unchanged; on success only the promisc flag changed, to on |
| UplinkProperties.RestoreNamespaceStep | vpp-manager/uplink/af_packet.go:51-56 | the move back happens only when not every interface is physical; a failed move is logged and the restore still sets the link up |
| UplinkProperties.RestoreDownStops | vpp-manager/uplink/af_packet.go:58-60 | for a link captured down, nothing after the namespace step happens: it is not set up, and promisc, addresses and routes are untouched |
| UplinkProperties.RestoreSetUpFails | vpp-manager/uplink/af_packet.go:62-66 | a failed set-up is logged and ends the restore, with promisc, addresses and routes untouched |
| UplinkProperties.RestorePromisc | vpp-manager/uplink/af_packet.go:68-74 | promisc is never turned on; it is turned off exactly when the link was captured up and not promiscuous, set-up succeeded, the link was promiscuous, and the call succeeded |
| UplinkProperties.RestoreReaddsLast | vpp-manager/uplink/af_packet.go:76-77 | addresses and routes are re-added, never removed, and only when the link was captured up and set up again |
| UplinkProperties.RestoreLink | vpp-manager/uplink/af_packet.go:50-78 | the restored link is the captured link moved back to the root namespace unless every uplink is physical, then, when captured up and set up again, up, promisc off if it was captured off and the call succeeds, with the captured addresses and routes added |
| UplinkProperties.RestoreKeepsOtherLink | vpp-manager/uplink/af_packet.go:50-78 | no other link is added, removed or changed |
| UplinkProperties.RestoreLog | vpp-manager/uplink/af_packet.go:50-78 | the log only grows, by exactly the failed move back, then the failed set-up or the promisc-off notice and its failure, in that order, each only when it happens |
| UplinkProperties.RestoreEveryStepFails | vpp-manager/uplink/af_packet.go:50-78 | with the move and the set-up failing, the restore returns normally, logging exactly those two failures |
| UplinkProperties.CreateMoveFails | vpp-manager/uplink/af_packet.go:81-84 | a failed move into VPP's namespace is an error that leaves the host and the spec's index unchanged, so no VPP interface is created |
| UplinkProperties.CreateVppFails | vpp-manager/uplink/af_packet.go:89-92 | a failed create is an error after the move, with VPP's table, the tags and the spec's index unchanged |
| UplinkProperties.CreateIndexCheck | vpp-manager/uplink/af_packet.go:95-98 | a main interface given any index other than 1 is an error, with the spec's index not assigned and no tag set; a non-main interface takes any index |
| UplinkProperties.CreateSuccess | vpp-manager/uplink/af_packet.go:80-104 | success exactly when every call succeeds and a main interface gets index 1; then the spec's index is the created one, tagged with the interface name; the index changes only once the check has passed |
| UplinkProperties.CreateTagFails | vpp-manager/uplink/af_packet.go:98-102 | a failed tag is an error after the spec's index has been assigned |
| UplinkProperties.CycleRestoresUpLink | vpp-manager/uplink/af_packet.go:38-104 | with no failures and a fresh VPP, a main uplink captured up is given back exactly as it was after takeover and restore |
| UplinkProperties.CycleLeavesDownLinkPromiscuous | vpp-manager/uplink/af_packet.go:58-60 | a link captured down and not promiscuous comes back down and in the root namespace, but promiscuous |
| UplinkProperties.EthZeroCycle | vpp-manager/uplink/af_packet.go:38-104 | `eth0`, down and without addresses, gets index 1 and the tag `eth0`, and comes back down and without addresses in the root namespace |

## Left out

- `PrintAgentConfig`, the socket and file path constants, `DefaultVXLANVni` and `DefaultWireguardPort` (config.go:32-39, 58-59, 84-96): fixed strings and log output only.
- The driver name's value, `NATIVE_DRIVER_AF_PACKET` (af_packet.go:108), comes from a constant defined elsewhere in the repository, which is not part of this model; `Uplink.NativeDriverAfPacket` takes it to be `"af_packet"`.
- Log messages are reduced to what they report, such as a bad log level or an unread variable. Their wording, format verbs and log levels are not modelled.
- The text of returned errors is not modelled. An error is its kind, the variable and the value, or the prefix.
- `os.Environ` gives `NAME=value` strings that the source splits with `strings.SplitN`. The model takes the names directly.
- `strconv.ParseInt` is modelled in base 10 only, and for the bit sizes 8, 16, 32 or 64 only (the loader uses 8, 16 and 32); Go's bit size 0, meaning `int`, is not modelled. Its error kinds (syntax or range) are not distinguished.
- `net.ParseCIDR` is a parameter. The model does not fix which strings are CIDRs, and `IPNet` is kept opaque.
- `Logrus.ParseLevel` lowers ASCII letters only. Go's `strings.ToLower` also lowers U+0130 (dotted capital I) to `i`, so Go accepts spellings such as `\u0130NFO` or `WARN\u0130NG`, which the model rejects. Go lowers U+212A (Kelvin sign) to `k` too, but no level name contains `k`. Other Unicode case mapping is not modelled.
- Kernel namespace semantics are not modelled. A move only changes the link's namespace, and every lookup sees every link. Whatever the kernel does to addresses on a move is not modelled either.
- `moveInterfaceToNS`, `moveInterfaceFromNS`, `restoreLinuxIfConf`, `TagMainInterface` and `getGenericVppInterface` are defined elsewhere in the repository and are not part of this model. Each is modelled only by its effect at the call site, and each fails only when the failure plan says so. `restoreLinuxIfConf` is modelled as adding the captured addresses and routes, with its own failures left out.
- The VPP interface parameters built by `getGenericVppInterface` are not modelled. VPP is assumed to hand out indices in order from `nextSwIfIndex`.
- The error each driver method returns is its kind and, where the source names it, the interface. The wrapped netlink or VPP error is not modelled.
- `vpp-manager/config` holds `DataInterfaceSwIfIndex` for the driver. It is not part of this model, which uses the agent's constant of the same name and value (config.go:31).
- Concurrency with external reconfiguration of the kernel, and the driver-selection and lifecycle logic around the driver, are not modelled.
- `calico-vpp-agent/cmd/debug-state/debug-state.go` is not modelled: it only reads and prints stored state.
