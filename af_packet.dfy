/**
  The AF_PACKET uplink driver of the VPP manager: it hands a Linux
  interface to VPP through an AF_PACKET socket. Before VPP starts it turns
  promiscuous mode on; it then moves the interface into VPP's network
  namespace, creates the VPP interface, checks its index and tags it; when
  VPP is gone it restores what it can of the interface's Linux state.

  The kernel and the VPP instance are one abstract `Host`. Every netlink,
  namespace and VPP call is a `Host` method whose success is decided by the
  host's `faults`. The `Preconfigure`, `Restore` and `CreateMain` functions
  state what each driver operation does to the host; the driver's methods
  are written call by call as the source writes them and are proved to
  compute exactly those functions.
*/
module Uplink {
  import opened Wrappers
  import Config

  /** The driver name the AF_PACKET driver registers under; its value is defined outside this model. */
  const NativeDriverAfPacket: string := "af_packet"

  /** The namespace a link lives in: the host's own, or the one of the VPP process. */
  datatype Namespace = RootNamespace | DataplaneNamespace(pid: int)

  /** A kernel network link, reduced to what the driver touches. */
  datatype Link = Link(up: bool, promisc: bool, ns: Namespace, addresses: set<string>, routes: set<string>)

  /**
    Which external calls fail. The host decides this, not the driver, so
    each flag stands for every call of its kind.
  */
  datatype Faults = Faults(
    promiscOn: bool, promiscOff: bool, setUp: bool,
    moveToNs: bool, moveFromNs: bool, create: bool, tag: bool)

  const NoFaults: Faults := Faults(false, false, false, false, false, false, false)

  /** The log lines the driver writes (warnings, errors and information). */
  datatype Event =
    | MoveFromNsFailed(name: string)
    | SetUpFailed(name: string)
    | SettingPromiscOff
    | PromiscOffFailed(name: string)
    | CreatedAfPacket(swIfIndex: nat)

  /**
    The kernel links by name, VPP's interface table (index to the host
    interface it captures), the index VPP hands out next, the interface
    tags, the failure plan and the log.
  */
  datatype HostState = HostState(
    links: map<string, Link>,
    vppInterfaces: map<nat, string>,
    nextSwIfIndex: nat,
    tags: map<nat, string>,
    faults: Faults,
    log: seq<Event>)

  /** The errors the driver returns; each one wraps the failing call's error. */
  datatype UplinkError =
    | LinkNotFound(name: string)
    | PromiscOnFailed(name: string)
    | MoveToNsFailed
    | CreateFailed
    | WrongSwIfIndex(swIfIndex: nat)
    | TagFailed

  /** The state of the interface captured before the driver took it over. */
  datatype LinuxInterfaceState = LinuxInterfaceState(
    IsUp: bool, PromiscOn: bool, Addresses: set<string>, Routes: set<string>)

  /** What a capture of `l` records. */
  function Captured(l: Link): LinuxInterfaceState
  {
    LinuxInterfaceState(l.up, l.promisc, l.addresses, l.routes)
  }

  // The effects of the individual external calls.

  function Logged(h: HostState, e: Event): HostState
  {
    h.(log := h.log + [e])
  }

  function WithLink(h: HostState, name: string, l: Link): HostState
  {
    h.(links := h.links[name := l])
  }

  function PromiscSet(h: HostState, name: string, on: bool): HostState
    requires name in h.links
  {
    WithLink(h, name, h.links[name].(promisc := on))
  }

  function BroughtUp(h: HostState, name: string): HostState
    requires name in h.links
  {
    WithLink(h, name, h.links[name].(up := true))
  }

  function MovedTo(h: HostState, name: string, ns: Namespace): HostState
    requires name in h.links
  {
    WithLink(h, name, h.links[name].(ns := ns))
  }

  function IfConfRestored(h: HostState, name: string, conf: LinuxInterfaceState): HostState
    requires name in h.links
  {
    var l := h.links[name];
    WithLink(h, name, l.(addresses := l.addresses + conf.Addresses, routes := l.routes + conf.Routes))
  }

  function AfPacketAdded(h: HostState, name: string): HostState
  {
    h.(vppInterfaces := h.vppInterfaces[h.nextSwIfIndex := name], nextSwIfIndex := h.nextSwIfIndex + 1)
  }

  function Tagged(h: HostState, swIfIndex: nat, name: string): HostState
  {
    h.(tags := h.tags[swIfIndex := name])
  }

  // The driver operations as functions of the host.

  datatype Outcome = Outcome(host: HostState, error: Option<UplinkError>)

  /**
    `PreconfigureLinux` on the interface `name`: it succeeds exactly when
    the link exists and promisc can be set, leaves the host alone when it
    fails, and leaves the link promiscuous when it succeeds.
  */
  function Preconfigure(h: HostState, name: string): (o: Outcome)
    ensures o.error.None? <==> name in h.links && !h.faults.promiscOn
    ensures o.error.Some? ==> o.host == h
    ensures o.error.None? ==> name in o.host.links && o.host.links[name].promisc
  {
    if name !in h.links then Outcome(h, Some(LinkNotFound(name)))
    else if h.faults.promiscOn then Outcome(h, Some(PromiscOnFailed(name)))
    else Outcome(PromiscSet(h, name, true), None)
  }

  /** The first step of `RestoreLinux`: bring the interface back to the root namespace. */
  function NamespaceStep(h: HostState, name: string, allInterfacesPhysical: bool): HostState
  {
    if allInterfacesPhysical then h
    else if name in h.links && !h.faults.moveFromNs then MovedTo(h, name, RootNamespace)
    else Logged(h, MoveFromNsFailed(name))
  }

  function PromiscOffStep(h: HostState, name: string): HostState
    requires name in h.links
  {
    if h.faults.promiscOff then Logged(h, PromiscOffFailed(name)) else PromiscSet(h, name, false)
  }

  /**
    `RestoreLinux` on the interface `name` whose state before takeover was
    `conf`. It changes nothing but the links and the log (not VPP's table,
    the tags or the failure plan), and the log only grows.
  */
  function Restore(h: HostState, name: string, conf: LinuxInterfaceState, allInterfacesPhysical: bool): (r: HostState)
    ensures r.(links := h.links, log := h.log) == h
    ensures |h.log| <= |r.log| && r.log[..|h.log|] == h.log
  {
    var h1 := NamespaceStep(h, name, allInterfacesPhysical);
    if !conf.IsUp then h1
    else if name !in h1.links || h1.faults.setUp then Logged(h1, SetUpFailed(name))
    else
      var h2 := BroughtUp(h1, name);
      var h3 := if conf.PromiscOn then h2 else PromiscOffStep(Logged(h2, SettingPromiscOff), name);
      IfConfRestored(h3, name, conf)
  }

  datatype CreateOutcome = CreateOutcome(host: HostState, error: Option<UplinkError>, swIfIndex: nat)

  /**
    `CreateMainVppInterface` for the interface `name`, with `swIfIndex` the
    index the interface spec held before and `vppPid` VPP's process id. The
    spec's index stays or becomes the one VPP hands out; a tag is set only
    when the whole create succeeds, on that index, to the uplink's name.
  */
  function CreateMain(h: HostState, name: string, isMain: bool, swIfIndex: nat, vppPid: int): (r: CreateOutcome)
    ensures r.swIfIndex == swIfIndex || r.swIfIndex == h.nextSwIfIndex
    ensures r.host.tags == h.tags || (r.error.None? && r.host.tags == h.tags[h.nextSwIfIndex := name])
    ensures r.host.faults == h.faults
  {
    if name !in h.links || h.faults.moveToNs then CreateOutcome(h, Some(MoveToNsFailed), swIfIndex)
    else
      var h1 := MovedTo(h, name, DataplaneNamespace(vppPid));
      if h1.faults.create then CreateOutcome(h1, Some(CreateFailed), swIfIndex)
      else
        var created := h1.nextSwIfIndex;
        var h2 := Logged(AfPacketAdded(h1, name), CreatedAfPacket(created));
        if isMain && created != Config.DataInterfaceSwIfIndex then
          CreateOutcome(h2, Some(WrongSwIfIndex(created)), swIfIndex)
        else if h2.faults.tag then CreateOutcome(h2, Some(TagFailed), created)
        else CreateOutcome(Tagged(h2, created, name), None, created)
  }

  /** The kernel and the VPP instance, as the driver's calls see them. */
  class Host {
    var links: map<string, Link>
    var vppInterfaces: map<nat, string>
    var nextSwIfIndex: nat
    var tags: map<nat, string>
    var faults: Faults
    var log: seq<Event>

    function State(): HostState
      reads this
    {
      HostState(links, vppInterfaces, nextSwIfIndex, tags, faults, log)
    }

    /** A host with the given links, a VPP without interfaces, and a failure plan. */
    constructor (links: map<string, Link>, nextSwIfIndex: nat, faults: Faults)
      ensures State() == HostState(links, map[], nextSwIfIndex, map[], faults, [])
    {
      this.links := links;
      this.vppInterfaces := map[];
      this.nextSwIfIndex := nextSwIfIndex;
      this.tags := map[];
      this.faults := faults;
      this.log := [];
    }

    /** `netlink.LinkByName`. */
    method LinkByName(name: string) returns (found: bool)
      ensures found <==> name in links
    {
      found := name in links;
    }

    /** `netlink.SetPromiscOn` on a link that was found. */
    method SetPromiscOn(name: string) returns (ok: bool)
      requires name in links
      modifies this
      ensures ok == !old(faults.promiscOn)
      ensures State() == if ok then PromiscSet(old(State()), name, true) else old(State())
    {
      ok := !faults.promiscOn;
      if ok {
        links := links[name := links[name].(promisc := true)];
      }
    }

    /** `netlink.SetPromiscOff` on a link that was found. */
    method SetPromiscOff(name: string) returns (ok: bool)
      requires name in links
      modifies this
      ensures ok == !old(faults.promiscOff)
      ensures State() == if ok then PromiscSet(old(State()), name, false) else old(State())
    {
      ok := !faults.promiscOff;
      if ok {
        links := links[name := links[name].(promisc := false)];
      }
    }

    /** Looks the link up by name and sets it up. */
    method SafeSetInterfaceUpByName(name: string) returns (ok: bool)
      modifies this
      ensures ok == (name in old(links) && !old(faults.setUp))
      ensures State() == if ok then BroughtUp(old(State()), name) else old(State())
    {
      ok := name in links && !faults.setUp;
      if ok {
        links := links[name := links[name].(up := true)];
      }
    }

    /** Moves the link into the namespace of the VPP process `vppPid`. */
    method MoveInterfaceToNS(name: string, vppPid: int) returns (ok: bool)
      modifies this
      ensures ok == (name in old(links) && !old(faults.moveToNs))
      ensures State() == if ok then MovedTo(old(State()), name, DataplaneNamespace(vppPid)) else old(State())
    {
      ok := name in links && !faults.moveToNs;
      if ok {
        links := links[name := links[name].(ns := DataplaneNamespace(vppPid))];
      }
    }

    /** Moves the link back into the root namespace. */
    method MoveInterfaceFromNS(name: string) returns (ok: bool)
      modifies this
      ensures ok == (name in old(links) && !old(faults.moveFromNs))
      ensures State() == if ok then MovedTo(old(State()), name, RootNamespace) else old(State())
    {
      ok := name in links && !faults.moveFromNs;
      if ok {
        links := links[name := links[name].(ns := RootNamespace)];
      }
    }

    /** Re-adds the captured addresses and routes to the link. */
    method RestoreLinuxIfConf(name: string, conf: LinuxInterfaceState)
      requires name in links
      modifies this
      ensures State() == IfConfRestored(old(State()), name, conf)
    {
      var l := links[name];
      links := links[name := l.(addresses := l.addresses + conf.Addresses, routes := l.routes + conf.Routes)];
    }

    /** VPP's `CreateAfPacket` for the host interface `name`: VPP hands out the next index. */
    method CreateAfPacket(name: string) returns (ok: bool, swIfIndex: nat)
      modifies this
      ensures ok == !old(faults.create)
      ensures ok ==> swIfIndex == old(nextSwIfIndex)
      ensures State() == if ok then AfPacketAdded(old(State()), name) else old(State())
    {
      ok := !faults.create;
      swIfIndex := nextSwIfIndex;
      if ok {
        vppInterfaces := vppInterfaces[swIfIndex := name];
        nextSwIfIndex := nextSwIfIndex + 1;
      }
    }

    /** Tags the VPP interface `swIfIndex` with the name of its uplink. */
    method TagMainInterface(swIfIndex: nat, name: string) returns (ok: bool)
      modifies this
      ensures ok == !old(faults.tag)
      ensures State() == if ok then Tagged(old(State()), swIfIndex, name) else old(State())
    {
      ok := !faults.tag;
      if ok {
        tags := tags[swIfIndex := name];
      }
    }

    method Log(e: Event)
      modifies this
      ensures State() == Logged(old(State()), e)
    {
      log := log + [e];
    }
  }

  /** The parts of the interface spec the driver reads and writes. */
  class InterfaceSpec {
    var InterfaceName: string
    var IsMain: bool
    var SwIfIndex: nat

    constructor (interfaceName: string, isMain: bool)
      ensures InterfaceName == interfaceName && IsMain == isMain && SwIfIndex == 0
    {
      InterfaceName := interfaceName;
      IsMain := isMain;
      SwIfIndex := 0;
    }
  }

  /** The VPP manager's parameters; the driver only keeps a reference to them. */
  class VppManagerParams {
    constructor ()
    {
    }
  }

  class AFPacketDriver {
    var name: string
    var conf: LinuxInterfaceState
    var params: VppManagerParams
    var spec: InterfaceSpec

    /** `NewAFPacketDriver`. */
    constructor (params: VppManagerParams, conf: LinuxInterfaceState, spec: InterfaceSpec)
      ensures name == NativeDriverAfPacket
      ensures this.conf == conf && this.params == params && this.spec == spec
    {
      name := NativeDriverAfPacket;
      this.conf := conf;
      this.params := params;
      this.spec := spec;
    }

    /** AF_PACKET works on any interface, whether or not `warn` is asked for. */
    method IsSupported(warn: bool) returns (supported: bool)
      ensures supported
    {
      supported := true;
    }

    method PreconfigureLinux(host: Host) returns (err: Option<UplinkError>)
      modifies host
      ensures Outcome(host.State(), err) == Preconfigure(old(host.State()), spec.InterfaceName)
    {
      var found := host.LinkByName(spec.InterfaceName);
      if !found {
        return Some(LinkNotFound(spec.InterfaceName));
      }
      var ok := host.SetPromiscOn(spec.InterfaceName);
      if !ok {
        return Some(PromiscOnFailed(spec.InterfaceName));
      }
      return None;
    }

    method RestoreLinux(host: Host, allInterfacesPhysical: bool)
      modifies host
      ensures host.State() == Restore(old(host.State()), spec.InterfaceName, conf, allInterfacesPhysical)
    {
      var name := spec.InterfaceName;
      if !allInterfacesPhysical {
        var moved := host.MoveInterfaceFromNS(name);
        if !moved {
          host.Log(MoveFromNsFailed(name));
        }
      }
      if !conf.IsUp {
        return;
      }
      var up := host.SafeSetInterfaceUpByName(name);
      if !up {
        host.Log(SetUpFailed(name));
        return;
      }
      if !conf.PromiscOn {
        host.Log(SettingPromiscOff);
        var off := host.SetPromiscOff(name);
        if !off {
          host.Log(PromiscOffFailed(name));
        }
      }
      host.RestoreLinuxIfConf(name, conf);
    }

    method CreateMainVppInterface(host: Host, vppPid: int) returns (err: Option<UplinkError>)
      modifies host, spec
      ensures spec.InterfaceName == old(spec.InterfaceName) && spec.IsMain == old(spec.IsMain)
      ensures CreateOutcome(host.State(), err, spec.SwIfIndex)
           == CreateMain(old(host.State()), spec.InterfaceName, spec.IsMain, old(spec.SwIfIndex), vppPid)
    {
      var name := spec.InterfaceName;
      var moved := host.MoveInterfaceToNS(name, vppPid);
      if !moved {
        return Some(MoveToNsFailed);
      }
      var created, swIfIndex := host.CreateAfPacket(name);
      if !created {
        return Some(CreateFailed);
      }
      host.Log(CreatedAfPacket(swIfIndex));
      if spec.IsMain && swIfIndex != Config.DataInterfaceSwIfIndex {
        return Some(WrongSwIfIndex(swIfIndex));
      }
      spec.SwIfIndex := swIfIndex;
      var tagged := host.TagMainInterface(swIfIndex, name);
      if !tagged {
        return Some(TagFailed);
      }
      return None;
    }
  }
}
