/**
  What the AF_PACKET driver's operations do to the host, path by path:
  which steps run, in what order, which failures abort and which are only
  logged, and what a full takeover followed by a restore gives back.
*/
module UplinkProperties {
  import opened Wrappers
  import Config
  import opened Uplink

  /**
    Preconfiguration succeeds exactly when the link exists and promisc can be
    turned on. A missing link is an error naming the interface and leaves the
    host as it was; on success the link is promiscuous and nothing else about
    the host has changed.
  */
  lemma PreconfigureOutcome(h: HostState, name: string)
    ensures Preconfigure(h, name).error.None? <==> name in h.links && !h.faults.promiscOn
    ensures name !in h.links ==> Preconfigure(h, name) == Outcome(h, Some(LinkNotFound(name)))
    ensures name in h.links && h.faults.promiscOn ==> Preconfigure(h, name) == Outcome(h, Some(PromiscOnFailed(name)))
    ensures Preconfigure(h, name).error.None? ==>
      (var l := Preconfigure(h, name).host.links[name];
       l.promisc && l == h.links[name].(promisc := true)
       && Preconfigure(h, name).host.(links := h.links) == h)
  {
  }

  /**
    What the restore does to the interface's own link, step by step: back to
    the root namespace unless every uplink is physical; then, for a link
    captured up and set up again, promisc off if it was off, and the
    captured addresses and routes added.
  */
  function RestoredLink(l: Link, conf: LinuxInterfaceState, allInterfacesPhysical: bool, f: Faults): Link
  {
    var moved := if allInterfacesPhysical || f.moveFromNs then l else l.(ns := RootNamespace);
    if !conf.IsUp || f.setUp then moved
    else
      var up := moved.(up := true);
      var promisc := if conf.PromiscOn || f.promiscOff then up else up.(promisc := false);
      promisc.(addresses := promisc.addresses + conf.Addresses, routes := promisc.routes + conf.Routes)
  }

  /** The restore leaves the interface's link as `RestoredLink` says. */
  lemma RestoreLink(h: HostState, name: string, conf: LinuxInterfaceState, allInterfacesPhysical: bool)
    requires name in h.links
    ensures name in Restore(h, name, conf, allInterfacesPhysical).links
    ensures Restore(h, name, conf, allInterfacesPhysical).links[name]
         == RestoredLink(h.links[name], conf, allInterfacesPhysical, h.faults)
  {
    var h1 := NamespaceStep(h, name, allInterfacesPhysical);
    assert h1.faults == h.faults && name in h1.links;
    assert h1.links[name] == if allInterfacesPhysical || h.faults.moveFromNs then h.links[name]
                             else h.links[name].(ns := RootNamespace);
  }

  /**
    The interface is moved out of VPP's namespace only when not every uplink
    is physical; a failed move is logged and the restore goes on regardless.
  */
  lemma RestoreNamespaceStep(h: HostState, name: string, conf: LinuxInterfaceState, allInterfacesPhysical: bool)
    ensures allInterfacesPhysical ==> NamespaceStep(h, name, allInterfacesPhysical) == h
    ensures !allInterfacesPhysical && name in h.links && !h.faults.moveFromNs ==>
      NamespaceStep(h, name, allInterfacesPhysical).links[name] == h.links[name].(ns := RootNamespace)
    ensures !allInterfacesPhysical && (name !in h.links || h.faults.moveFromNs) ==>
      NamespaceStep(h, name, allInterfacesPhysical) == Logged(h, MoveFromNsFailed(name))
    ensures !allInterfacesPhysical && name in h.links && h.faults.moveFromNs && conf.IsUp && !h.faults.setUp ==>
      (var r := Restore(h, name, conf, allInterfacesPhysical);
       r.links[name].up && MoveFromNsFailed(name) in r.log)
  {
  }

  /**
    An interface captured down gets nothing after the namespace step: it is
    not set up, its promisc flag, addresses and routes stay as they are.
  */
  lemma RestoreDownStops(h: HostState, name: string, conf: LinuxInterfaceState, allInterfacesPhysical: bool)
    requires !conf.IsUp
    ensures Restore(h, name, conf, allInterfacesPhysical) == NamespaceStep(h, name, allInterfacesPhysical)
    ensures name in h.links ==>
      (var l := Restore(h, name, conf, allInterfacesPhysical).links[name];
       l == h.links[name].(ns := l.ns))
  {
  }

  /**
    When the interface cannot be set up, the restore logs it and returns:
    promisc, addresses and routes are left as they were.
  */
  lemma RestoreSetUpFails(h: HostState, name: string, conf: LinuxInterfaceState, allInterfacesPhysical: bool)
    requires conf.IsUp && (name !in h.links || h.faults.setUp)
    ensures Restore(h, name, conf, allInterfacesPhysical)
         == Logged(NamespaceStep(h, name, allInterfacesPhysical), SetUpFailed(name))
    ensures name in h.links ==>
      (var l := Restore(h, name, conf, allInterfacesPhysical).links[name];
       l == h.links[name].(ns := l.ns))
  {
  }

  /**
    The restore never turns promisc on, and it turns it off exactly when the
    interface was captured up and not promiscuous, could be set up, and the
    call succeeds.
  */
  lemma RestorePromisc(h: HostState, name: string, conf: LinuxInterfaceState, allInterfacesPhysical: bool)
    requires name in h.links
    ensures name in Restore(h, name, conf, allInterfacesPhysical).links
    ensures Restore(h, name, conf, allInterfacesPhysical).links[name].promisc ==> h.links[name].promisc
    ensures Restore(h, name, conf, allInterfacesPhysical).links[name].promisc != h.links[name].promisc
        <==> h.links[name].promisc && conf.IsUp && !conf.PromiscOn && !h.faults.setUp && !h.faults.promiscOff
  {
    RestoreLink(h, name, conf, allInterfacesPhysical);
  }

  /**
    Addresses and routes are re-added only on the path where the interface
    was captured up and set up again, after the promisc step; they are added,
    never removed.
  */
  lemma RestoreReaddsLast(h: HostState, name: string, conf: LinuxInterfaceState, allInterfacesPhysical: bool)
    requires name in h.links
    ensures var l := Restore(h, name, conf, allInterfacesPhysical).links[name];
      if conf.IsUp && !h.faults.setUp then
        l.up && l.addresses == h.links[name].addresses + conf.Addresses
        && l.routes == h.links[name].routes + conf.Routes
      else
        l.addresses == h.links[name].addresses && l.routes == h.links[name].routes
  {
    RestoreLink(h, name, conf, allInterfacesPhysical);
  }

  /** The restore neither adds, removes nor changes any link but its own. */
  lemma RestoreKeepsOtherLink(h: HostState, name: string, conf: LinuxInterfaceState, allInterfacesPhysical: bool, other: string)
    requires other != name
    ensures other in Restore(h, name, conf, allInterfacesPhysical).links <==> other in h.links
    ensures other in h.links ==> Restore(h, name, conf, allInterfacesPhysical).links[other] == h.links[other]
  {
    var h1 := NamespaceStep(h, name, allInterfacesPhysical);
    assert (other in h1.links <==> other in h.links) && (other in h.links ==> h1.links[other] == h.links[other]);
    if conf.IsUp && name in h1.links && !h1.faults.setUp {
      var h2 := BroughtUp(h1, name);
      var h3 := if conf.PromiscOn then h2 else PromiscOffStep(Logged(h2, SettingPromiscOff), name);
      assert (other in h3.links <==> other in h.links) && (other in h.links ==> h3.links[other] == h.links[other]);
      assert Restore(h, name, conf, allInterfacesPhysical) == IfConfRestored(h3, name, conf);
    }
  }

  /** What the namespace step of the restore logs: a failed move back, if it fails. */
  function NamespaceEvents(name: string, present: bool, allInterfacesPhysical: bool, f: Faults): seq<Event>
  {
    if !allInterfacesPhysical && (!present || f.moveFromNs) then [MoveFromNsFailed(name)] else []
  }

  /**
    What the rest of the restore logs: a failed set-up, or, for a link
    captured not promiscuous, the promisc-off notice followed by its failure
    if it fails.
  */
  function ReviveEvents(name: string, present: bool, conf: LinuxInterfaceState, f: Faults): seq<Event>
  {
    if !conf.IsUp then []
    else if !present || f.setUp then [SetUpFailed(name)]
    else if conf.PromiscOn then []
    else [SettingPromiscOff] + (if f.promiscOff then [PromiscOffFailed(name)] else [])
  }

  /** The restore only appends to the log, and appends exactly these events in this order. */
  lemma RestoreLog(h: HostState, name: string, conf: LinuxInterfaceState, allInterfacesPhysical: bool)
    ensures Restore(h, name, conf, allInterfacesPhysical).log
         == h.log + NamespaceEvents(name, name in h.links, allInterfacesPhysical, h.faults)
            + ReviveEvents(name, name in h.links, conf, h.faults)
  {
    var h1 := NamespaceStep(h, name, allInterfacesPhysical);
    assert h1.log == h.log + NamespaceEvents(name, name in h.links, allInterfacesPhysical, h.faults);
    assert (name in h1.links <==> name in h.links) && h1.faults == h.faults;
    var r := Restore(h, name, conf, allInterfacesPhysical);
    var revive := ReviveEvents(name, name in h.links, conf, h.faults);
    if !conf.IsUp {
      assert r == h1;
      assert h1.log + revive == h1.log;
    } else if name !in h1.links || h1.faults.setUp {
      assert r == Logged(h1, SetUpFailed(name));
    } else {
      var h2 := BroughtUp(h1, name);
      var h3 := if conf.PromiscOn then h2 else PromiscOffStep(Logged(h2, SettingPromiscOff), name);
      assert r == IfConfRestored(h3, name, conf);
      if conf.PromiscOn {
        assert h1.log + revive == h1.log;
      } else {
        assert h3.log == h1.log + revive;
      }
    }
  }

  /** A failed move into VPP's namespace aborts before any VPP interface is created. */
  lemma CreateMoveFails(h: HostState, name: string, isMain: bool, swIfIndex: nat, vppPid: int)
    requires name !in h.links || h.faults.moveToNs
    ensures CreateMain(h, name, isMain, swIfIndex, vppPid) == CreateOutcome(h, Some(MoveToNsFailed), swIfIndex)
  {
  }

  /**
    A failed VPP create aborts after the move and before any index is
    recorded: VPP's table, the tags and the spec's index are unchanged.
  */
  lemma CreateVppFails(h: HostState, name: string, isMain: bool, swIfIndex: nat, vppPid: int)
    requires name in h.links && !h.faults.moveToNs && h.faults.create
    ensures var r := CreateMain(h, name, isMain, swIfIndex, vppPid);
      r.error == Some(CreateFailed) && r.swIfIndex == swIfIndex
      && r.host.vppInterfaces == h.vppInterfaces && r.host.tags == h.tags
      && r.host.links[name] == h.links[name].(ns := DataplaneNamespace(vppPid))
  {
  }

  /**
    A main interface that VPP gives any index other than the data
    interface's is an error: the spec's index is not assigned and no tag is
    set, though the VPP interface now exists. A non-main interface takes
    whatever index VPP gives.
  */
  lemma CreateIndexCheck(h: HostState, name: string, isMain: bool, swIfIndex: nat, vppPid: int)
    requires name in h.links && !h.faults.moveToNs && !h.faults.create
    ensures var r := CreateMain(h, name, isMain, swIfIndex, vppPid);
      r.host.vppInterfaces == h.vppInterfaces[h.nextSwIfIndex := name]
      && (isMain && h.nextSwIfIndex != Config.DataInterfaceSwIfIndex ==>
            r.error == Some(WrongSwIfIndex(h.nextSwIfIndex)) && r.swIfIndex == swIfIndex && r.host.tags == h.tags)
      && (!isMain ==> r.swIfIndex == h.nextSwIfIndex)
  {
  }

  /**
    The create succeeds exactly when every call does and a main interface
    gets the data interface's index; then the spec holds the created index,
    VPP's interface at that index is this uplink and it carries its name as
    tag. Whatever the path, the spec's index only ever changes to the
    created one, and only once the index check has passed.
  */
  lemma CreateSuccess(h: HostState, name: string, isMain: bool, swIfIndex: nat, vppPid: int)
    ensures var r := CreateMain(h, name, isMain, swIfIndex, vppPid);
      r.error.None? <==>
        (name in h.links && !h.faults.moveToNs && !h.faults.create && !h.faults.tag
         && (isMain ==> h.nextSwIfIndex == Config.DataInterfaceSwIfIndex))
    ensures var r := CreateMain(h, name, isMain, swIfIndex, vppPid);
      r.error.None? ==>
        (r.swIfIndex == h.nextSwIfIndex && r.host.vppInterfaces[r.swIfIndex] == name
         && r.host.tags == h.tags[r.swIfIndex := name]
         && r.host.links[name] == h.links[name].(ns := DataplaneNamespace(vppPid)))
    ensures var r := CreateMain(h, name, isMain, swIfIndex, vppPid);
      r.swIfIndex != swIfIndex ==>
        (r.swIfIndex == h.nextSwIfIndex && name in h.links && !h.faults.moveToNs && !h.faults.create
         && (isMain ==> h.nextSwIfIndex == Config.DataInterfaceSwIfIndex))
  {
  }

  /** A tag failure is reported after the index has been recorded. */
  lemma CreateTagFails(h: HostState, name: string, isMain: bool, swIfIndex: nat, vppPid: int)
    requires name in h.links && !h.faults.moveToNs && !h.faults.create && h.faults.tag
    requires isMain ==> h.nextSwIfIndex == Config.DataInterfaceSwIfIndex
    ensures var r := CreateMain(h, name, isMain, swIfIndex, vppPid);
      r.error == Some(TagFailed) && r.swIfIndex == h.nextSwIfIndex && r.host.tags == h.tags
  {
  }

  /** The host after a takeover of the main uplink `name` and its restore. */
  function Cycle(h: HostState, name: string, conf: LinuxInterfaceState, vppPid: int): HostState
  {
    var h1 := Preconfigure(h, name).host;
    var h2 := CreateMain(h1, name, true, 0, vppPid).host;
    Restore(h2, name, conf, false)
  }

  /**
    Without failures, on a fresh VPP, a main uplink captured up comes back
    exactly as it was: same flags, namespace, addresses and routes.
  */
  lemma CycleRestoresUpLink(h: HostState, name: string, vppPid: int)
    requires name in h.links && h.links[name].ns == RootNamespace && h.links[name].up
    requires h.faults == NoFaults && h.nextSwIfIndex == Config.DataInterfaceSwIfIndex
    ensures Preconfigure(h, name).error.None?
    ensures CreateMain(Preconfigure(h, name).host, name, true, 0, vppPid).error.None?
    ensures name in Cycle(h, name, Captured(h.links[name]), vppPid).links
    ensures Cycle(h, name, Captured(h.links[name]), vppPid).links[name] == h.links[name]
  {
  }

  /**
    An uplink captured down and not promiscuous comes back still
    promiscuous: the restore returns before its promisc step.
  */
  lemma CycleLeavesDownLinkPromiscuous(h: HostState, name: string, vppPid: int)
    requires name in h.links && h.links[name].ns == RootNamespace
    requires !h.links[name].up && !h.links[name].promisc
    requires h.faults == NoFaults && h.nextSwIfIndex == Config.DataInterfaceSwIfIndex
    ensures name in Cycle(h, name, Captured(h.links[name]), vppPid).links
    ensures Cycle(h, name, Captured(h.links[name]), vppPid).links[name] == h.links[name].(promisc := true)
  {
  }

  /**
    `eth0`, down and without addresses, taken over as the main uplink by a
    fresh VPP: it gets index 1 and the tag `eth0`; after the restore it is
    back in the root namespace, still down, without addresses, and promiscuous.
  */
  lemma EthZeroCycle(vppPid: int)
    ensures var h := HostState(map["eth0" := Link(false, false, RootNamespace, {}, {})], map[], 1, map[], NoFaults, []);
      var h1 := Preconfigure(h, "eth0");
      var created := CreateMain(h1.host, "eth0", true, 0, vppPid);
      && h1.error.None? && created.error.None?
      && created.swIfIndex == 1 && created.host.tags == map[1 := "eth0"]
      && Restore(created.host, "eth0", Captured(h.links["eth0"]), false).links["eth0"]
         == Link(false, true, RootNamespace, {}, {})
  {
  }

  /**
    A restore whose namespace move and set-up both fail returns normally and
    logs both failures; the promisc step is never reached, so its failure
    cannot show.
  */
  lemma RestoreEveryStepFails(h: HostState, name: string, conf: LinuxInterfaceState)
    requires name in h.links && conf.IsUp && !conf.PromiscOn
    requires h.faults.moveFromNs && h.faults.setUp && h.faults.promiscOff
    ensures Restore(h, name, conf, false) == h.(log := h.log + [MoveFromNsFailed(name), SetUpFailed(name)])
  {
  }
}
