/**
 * pkg/core/router.go: one Router finds the Wi-Fi and phone interfaces,
 * resolves the tethering domains, installs routes via the phone, and
 * removes them again.
 */
module Core {
  import opened Wrappers
  import opened Strings
  import opened Network
  import opened CoreConfig
  import opened Platform
  import opened RouterSpec

  datatype RouterError =
    | ListFailed
    | WifiNotFound(keyword: string)
    | PhoneNotFound(keyword: string)
    | ResolutionFailed(total: nat)
    | NoRoutesToApply
    | AddFailed(target: string)
    | SaveFailed

  /** The retry loop of ResolveDomains: up to `tries` lookups, a pause between two of them. */
  method ResolveWithRetry(host: Host, name: string, tries: nat) returns (ips: Option<seq<string>>)
    requires tries >= 1
    modifies host`lookups, host`log
    ensures var a := Retry(host, name, old(host.lookups), tries);
      && ips == a.answer
      && host.log == old(host.log) + a.commands
      && host.lookups == old(host.lookups) + a.used
  {
    ghost var n0 := host.lookups;
    RetryShape(host, name, n0, tries);
    RetryOutcome(host, name, n0, tries);
    ips := None;
    var attempt := 1;
    while attempt <= tries
      invariant 1 <= attempt <= tries + 1
      invariant host.lookups == n0 + attempt - 1
      invariant forall m :: n0 <= m < n0 + attempt - 1 ==> host.Answer(name, m).None?
      invariant attempt <= tries ==> host.log == old(host.log) + Interleaved(name, 2 * attempt - 2)
      invariant attempt > tries ==> ips.None? && host.log == old(host.log) + Interleaved(name, 2 * tries - 1)
    {
      ips := host.Resolve(name);
      InterleavedSnoc(name, 2 * attempt - 2);
      if ips.Some? {
        assert Retry(host, name, n0, tries).used == attempt;
        break;
      }
      if attempt < tries {
        InterleavedSnoc(name, 2 * attempt - 1);
        host.Sleep();
      }
      attempt := attempt + 1;
    }
  }

  /** One domain of ResolveDomains: the wildcard is dropped, then one lookup or the retry loop. */
  method ResolveOne(host: Host, domain: string, bothActive: bool) returns (ips: Option<seq<string>>, ghost a: Attempts)
    modifies host`lookups, host`log
    ensures a == Retry(host, LookupName(domain), old(host.lookups), MaxTries(bothActive))
    ensures ips == a.answer
    ensures host.log == old(host.log) + a.commands
    ensures host.lookups == old(host.lookups) + a.used
  {
    var targetDomain := domain;
    if HasPrefix(domain, "*.") {
      targetDomain := TrimPrefix(domain, "*.");
    }
    a := Retry(host, LookupName(domain), host.lookups, MaxTries(bothActive));
    if bothActive {
      ips := ResolveWithRetry(host, targetDomain, 3);
    } else {
      ips := host.Resolve(targetDomain);
    }
  }

  /** The delete loops of ClearRoutes; failures are ignored. */
  method DeleteRoutes(host: Host, targets: seq<string>)
    modifies host`routes, host`log
    ensures host.routes == Uninstall(old(host.routes), targets, host.deleteFails)
    ensures host.log == old(host.log) + DeleteCommands(targets)
  {
    for i := 0 to |targets|
      invariant host.routes == Uninstall(old(host.routes), targets[..i], host.deleteFails)
      invariant host.log == old(host.log) + DeleteCommands(targets[..i])
    {
      var _ := host.DeleteRoute(targets[i]);
      assert targets[..i + 1][..i] == targets[..i];
      assert DeleteCommands(targets[..i + 1]) == DeleteCommands(targets[..i]) + [Delete(targets[i])];
    }
    assert targets[..|targets|] == targets;
  }

  class Router {
    const config: Config
    var wifiIface: Option<InterfaceInfo>
    var phoneIface: Option<InterfaceInfo>
    var resolvedIPs: seq<string>
    var wifiGateway: string
    var phoneGateway: string

    /** NewRouter: nothing detected, nothing resolved. */
    constructor (config: Config)
      ensures this.config == config
      ensures wifiIface == None && phoneIface == None && resolvedIPs == []
      ensures wifiGateway == "" && phoneGateway == ""
    {
      this.config := config;
      wifiIface := None;
      phoneIface := None;
      resolvedIPs := [];
      wifiGateway := "";
      phoneGateway := "";
    }

    /**
     * Lists the hardware ports and picks one for each role. A failed listing
     * leaves both roles as they were; otherwise a missing Wi-Fi interface is
     * reported before a missing phone interface.
     */
    method DetectInterfaces(host: Host) returns (err: Option<RouterError>)
      modifies this`wifiIface, this`phoneIface
      ensures host.portListing.None? ==>
        err == Some(ListFailed) && wifiIface == old(wifiIface) && phoneIface == old(phoneIface)
      ensures host.portListing.Some? ==>
        var ports := HardwarePorts(host.portListing.value);
        && wifiIface == FindInterfaceByName(ports, WifiKeywords(config))
        && phoneIface == FindInterfaceByName(ports, PhoneKeywords(config))
      ensures host.portListing.Some? ==>
        && (wifiIface.None? ==> err == Some(WifiNotFound(WifiKeyword(config))))
        && (wifiIface.Some? && phoneIface.None? ==> err == Some(PhoneNotFound(PhoneKeyword(config))))
        && (wifiIface.Some? && phoneIface.Some? ==> err == None)
    {
      if host.portListing.None? {
        return Some(ListFailed);
      }
      var interfaces := ParseHardwarePorts(host.portListing.value);
      var wifiKw := config.wifiKeyword;
      if wifiKw == "" {
        wifiKw := "Wi-Fi";
      }
      var phoneKw := config.phoneKeyword;
      if phoneKw == "" {
        phoneKw := "iPhone USB";
      }
      wifiIface := FindInterfaceByName(interfaces, [wifiKw, "Wi-Fi"]);
      phoneIface := FindInterfaceByName(interfaces, [phoneKw, "iPhone USB", "iPad USB", "RNDIS"]);
      if wifiIface.None? {
        return Some(WifiNotFound(wifiKw));
      }
      if phoneIface.None? {
        return Some(PhoneNotFound(phoneKw));
      }
      return None;
    }

    /** Both roles are matched and both devices are up. */
    predicate HasBothInterfaces(host: Host)
      reads this
      ensures HasBothInterfaces(host) ==> wifiIface.Some? && phoneIface.Some?
    {
      && wifiIface.Some? && phoneIface.Some?
      && host.IsActive(wifiIface.value.deviceName)
      && host.IsActive(phoneIface.value.deviceName)
    }

    /** Both interfaces count as up exactly when the ifconfig output of each matched device has an "inet " line. */
    lemma BothInterfacesMeansInet(host: Host)
      ensures HasBothInterfaces(host) <==>
        && wifiIface.Some? && phoneIface.Some?
        && wifiIface.value.deviceName in host.ifconfig
        && (exists i :: OccursAt(host.ifconfig[wifiIface.value.deviceName], "inet ", i))
        && phoneIface.value.deviceName in host.ifconfig
        && (exists i :: OccursAt(host.ifconfig[phoneIface.value.deviceName], "inet ", i))
    {
      if wifiIface.Some? && phoneIface.Some? {
        host.ActiveMeansInet(wifiIface.value.deviceName);
        host.ActiveMeansInet(phoneIface.value.deviceName);
      }
    }

    /** Whether each role is up; an unmatched role counts as down. */
    function GetInterfaceStatus(host: Host): (status: (bool, bool))
      reads this
      ensures wifiIface.None? ==> !status.0
      ensures phoneIface.None? ==> !status.1
      ensures status.0 && status.1 <==> HasBothInterfaces(host)
    {
      var wifiActive := wifiIface.Some? && host.IsActive(wifiIface.value.deviceName);
      var phoneActive := phoneIface.Some? && host.IsActive(phoneIface.value.deviceName);
      (wifiActive, phoneActive)
    }

    /** What resolving the domains in `order` from lookup number `n` yields for this router. */
    ghost function Resolved(host: Host, order: seq<string>, n: nat): Resolution
      reads this
    {
      ResolveAll(host, order, n, MaxTries(HasBothInterfaces(host)))
    }

    /**
     * Resolves every configured domain once, in an order the model does not
     * fix, and keeps the addresses of those that answered. Fails only when
     * some domain is configured and none answered.
     */
    method ResolveDomains(host: Host) returns (err: Option<RouterError>, ghost order: seq<string>)
      modifies this`resolvedIPs, host`lookups, host`log
      ensures Enumerates(order, DomainSet(config))
      ensures var r := Resolved(host, order, old(host.lookups));
        && resolvedIPs == r.ips
        && host.log == old(host.log) + r.commands
        && host.lookups == r.lookups
        && err == if r.succeeded == 0 && DomainSet(config) != {}
                  then Some(ResolutionFailed(|DomainSet(config)|)) else None
    {
      resolvedIPs := [];
      var wifiActive := wifiIface.Some? && host.IsActive(wifiIface.value.deviceName);
      var phoneActive := phoneIface.Some? && host.IsActive(phoneIface.value.deviceName);
      var uniqueDomains := DomainSet(config);
      var totalDomains := |uniqueDomains|;
      var successCount := 0;
      var remaining := uniqueDomains;
      order := [];
      ghost var n0 := host.lookups;
      ghost var tries := MaxTries(wifiActive && phoneActive);
      ghost var r := Resolution([], 0, [], n0);
      while remaining != {}
        invariant Partition(order, remaining, uniqueDomains)
        invariant r == ResolveAll(host, order, n0, tries)
        invariant resolvedIPs == r.ips && successCount == r.succeeded
        invariant host.log == old(host.log) + r.commands && host.lookups == r.lookups
        decreases |remaining|
      {
        var domain :| domain in remaining;
        ResolveAllSnoc(host, order, domain, n0, tries);
        PartitionStep(order, remaining, uniqueDomains, domain);
        successCount, r := ResolveDomain(host, domain, wifiActive && phoneActive, successCount, r, old(host.log));
        remaining := remaining - {domain};
        order := order + [domain];
      }
      PartitionDone(order, uniqueDomains);
      assert tries == MaxTries(HasBothInterfaces(host));
      if successCount == 0 && totalDomains > 0 {
        return Some(ResolutionFailed(totalDomains)), order;
      }
      return None, order;
    }

    /**
     * The body of the domain loop of ResolveDomains: looks one domain up and,
     * when it answers, counts it and keeps its addresses.
     */
    method ResolveDomain(host: Host, domain: string, bothActive: bool, successCount: nat,
                         ghost r: Resolution, ghost log0: seq<Command>)
      returns (newCount: nat, ghost next: Resolution)
      requires resolvedIPs == r.ips && successCount == r.succeeded
      requires host.log == log0 + r.commands && host.lookups == r.lookups
      modifies this`resolvedIPs, host`lookups, host`log
      ensures next == Then(r, Retry(host, LookupName(domain), r.lookups, MaxTries(bothActive)))
      ensures resolvedIPs == next.ips && newCount == next.succeeded
      ensures host.log == log0 + next.commands && host.lookups == next.lookups
    {
      var ips;
      ghost var a;
      ips, a := ResolveOne(host, domain, bothActive);
      ConcatAssoc(log0, r.commands, a.commands);
      next := Then(r, a);
      newCount := successCount;
      if ips.None? {
        return;
      }
      newCount := successCount + 1;
      resolvedIPs := resolvedIPs + ips.value;
    }

    /** Where phone routes go: the phone gateway when one is known, else the phone device. */
    function PhoneVia(): Via
      reads this
      requires phoneGateway != "" || phoneIface.Some?
    {
      if phoneGateway != "" then ViaGateway(phoneGateway) else ViaDevice(phoneIface.value.deviceName)
    }

    method AddPhoneRoute(host: Host, target: string) returns (err: Option<RouterError>)
      requires phoneGateway != "" || phoneIface.Some?
      modifies host`routes, host`log
      ensures err.None? <==> target !in old(host.routes) && target !in host.addFails
      ensures err.Some? ==> err.value == AddFailed(target)
      ensures host.routes == if err.None? then old(host.routes)[target := PhoneVia()] else old(host.routes)
      ensures host.log == old(host.log) + [Add(target, PhoneVia())]
    {
      var ok: bool;
      if phoneGateway != "" {
        ok := host.AddRoute(target, ViaGateway(phoneGateway));
      } else {
        ok := host.AddRoute(target, ViaDevice(phoneIface.value.deviceName));
      }
      err := if ok then None else Some(AddFailed(target));
    }

    /** The add loops of ApplyRoutes: one add per target, failures do not stop the loop. */
    method AddPhoneRoutes(host: Host, targets: seq<string>)
      requires phoneGateway != "" || phoneIface.Some?
      modifies host`routes, host`log
      ensures host.routes == Install(old(host.routes), targets, PhoneVia(), host.addFails)
      ensures host.log == old(host.log) + AddCommands(targets, PhoneVia())
    {
      for i := 0 to |targets|
        invariant host.routes == Install(old(host.routes), targets[..i], PhoneVia(), host.addFails)
        invariant host.log == old(host.log) + AddCommands(targets[..i], PhoneVia())
      {
        var _ := AddPhoneRoute(host, targets[i]);
        assert targets[..i + 1][..i] == targets[..i];
        assert AddCommands(targets[..i + 1], PhoneVia()) == AddCommands(targets[..i], PhoneVia()) + [Add(targets[i], PhoneVia())];
      }
      assert targets[..|targets|] == targets;
    }

    /** saveResolvedIPs: the file then holds the resolved addresses and the configured CIDRs. */
    method SaveResolvedIPs(host: Host) returns (err: Option<RouterError>)
      modifies host`store
      ensures err.None? <==> !host.writeFails
      ensures err.Some? ==> err.value == SaveFailed
      ensures host.store == if err.None? then Some(ResolvedIPs(resolvedIPs, config.tetherCIDRs)) else old(host.store)
    {
      var ok := host.Save(ResolvedIPs(resolvedIPs, config.tetherCIDRs));
      err := if ok then None else Some(SaveFailed);
    }

    /**
     * Reads both gateways, resolves the domains, and, unless that fails or
     * leaves nothing to route, adds a route via the phone for every CIDR and
     * then every resolved address, and saves what it routed.
     */
    method ApplyRoutes(host: Host) returns (err: Option<RouterError>, ghost order: seq<string>)
      requires wifiIface.Some? && phoneIface.Some?
      modifies this`wifiGateway, this`phoneGateway, this`resolvedIPs
      modifies host`routes, host`log, host`lookups, host`store
      ensures wifiGateway == host.Gateway(wifiIface.value.deviceName)
      ensures phoneGateway == host.Gateway(phoneIface.value.deviceName)
      ensures Enumerates(order, DomainSet(config))
      ensures var r := Resolved(host, order, old(host.lookups));
        && resolvedIPs == r.ips && host.lookups == r.lookups
        && err == (if r.succeeded == 0 && DomainSet(config) != {} then Some(ResolutionFailed(|DomainSet(config)|))
                   else if config.tetherCIDRs == [] && r.ips == [] then Some(NoRoutesToApply)
                   else None)
        && (err.Some? ==> host.routes == old(host.routes) && host.store == old(host.store)
                          && host.log == old(host.log) + r.commands)
      ensures err.None? ==>
        var via, hosts := PhoneVia(), HostTargets(resolvedIPs);
        && host.routes == Install(Install(old(host.routes), config.tetherCIDRs, via, host.addFails), hosts, via, host.addFails)
        && host.log == old(host.log) + Resolved(host, order, old(host.lookups)).commands
                       + AddCommands(config.tetherCIDRs, via) + AddCommands(hosts, via)
        && host.store == if host.writeFails then old(host.store) else Some(ResolvedIPs(resolvedIPs, config.tetherCIDRs))
    {
      wifiGateway := host.Gateway(wifiIface.value.deviceName);
      phoneGateway := host.Gateway(phoneIface.value.deviceName);
      var resolveErr;
      resolveErr, order := ResolveDomains(host);
      if resolveErr.Some? {
        return resolveErr, order;
      }
      ResolveAllEmpty(host, order, old(host.lookups), MaxTries(HasBothInterfaces(host)));
      var totalRoutes := |config.tetherCIDRs| + |resolvedIPs|;
      if totalRoutes == 0 {
        return Some(NoRoutesToApply), order;
      }
      ghost var log1 := host.log;
      RouteAndSave(host);
      ConcatAssoc(log1, AddCommands(config.tetherCIDRs, PhoneVia()), AddCommands(HostTargets(resolvedIPs), PhoneVia()));
      return None, order;
    }

    /** The tail of ApplyRoutes: the CIDRs, then the addresses as host routes, then the save. */
    method RouteAndSave(host: Host)
      requires phoneGateway != "" || phoneIface.Some?
      modifies host`routes, host`log, host`store
      ensures var via, hosts := PhoneVia(), HostTargets(resolvedIPs);
        && host.routes == Install(Install(old(host.routes), config.tetherCIDRs, via, host.addFails), hosts, via, host.addFails)
        && host.log == old(host.log) + (AddCommands(config.tetherCIDRs, via) + AddCommands(hosts, via))
        && host.store == if host.writeFails then old(host.store) else Some(ResolvedIPs(resolvedIPs, config.tetherCIDRs))
    {
      AddPhoneRoutes(host, config.tetherCIDRs);
      AddPhoneRoutes(host, HostTargets(resolvedIPs));
      var _ := SaveResolvedIPs(host);
    }

    /** The gateway the default route is reset to, when the Wi-Fi interface has one. */
    function ResetGateway(host: Host): Option<string>
      reads this
    {
      if wifiIface.Some? && host.Gateway(wifiIface.value.deviceName) != ""
      then Some(host.Gateway(wifiIface.value.deviceName)) else None
    }

    /** The command ResetDefaultRoute issues, if any. */
    function ResetCommands(host: Host): seq<Command>
      reads this
    {
      if ResetGateway(host).Some? then [SetDefault(ResetGateway(host).value)] else []
    }

    /** The first step of ClearRoutes: the default route goes back to the Wi-Fi gateway. */
    method ResetDefaultRoute(host: Host)
      modifies host`defaultGateway, host`log
      ensures host.defaultGateway == if ResetGateway(host).Some? && !host.defaultFails
                                     then ResetGateway(host) else old(host.defaultGateway)
      ensures host.log == old(host.log) + ResetCommands(host)
    {
      if wifiIface.Some? {
        var wifiGw := host.Gateway(wifiIface.value.deviceName);
        if wifiGw != "" {
          var _ := host.ChangeDefaultGateway(wifiGw);
        }
      }
    }

    /**
     * Resets the default route to the Wi-Fi gateway, then deletes the saved
     * routes and removes the saved list when there is one, and otherwise the
     * configured CIDRs and the resolved addresses, resolving them first only
     * when none are known. Never fails.
     */
    method ClearRoutes(host: Host) returns (err: Option<RouterError>, ghost order: seq<string>)
      modifies this`resolvedIPs, host`routes, host`log, host`lookups, host`store, host`defaultGateway
      ensures err == None
      ensures host.defaultGateway == if ResetGateway(host).Some? && !host.defaultFails
                                     then ResetGateway(host) else old(host.defaultGateway)
      ensures old(host.store).Some? ==>
        var saved := old(host.store).value;
        var reset := ResetCommands(host);
        && host.routes == Uninstall(Uninstall(old(host.routes), saved.cidrs, host.deleteFails),
                                    HostTargets(saved.ips), host.deleteFails)
        && host.log == old(host.log) + reset + DeleteCommands(saved.cidrs) + DeleteCommands(HostTargets(saved.ips))
        && host.store == (if host.removeFails then old(host.store) else None)
        && resolvedIPs == old(resolvedIPs) && host.lookups == old(host.lookups)
      ensures old(host.store).None? ==>
        var reset := ResetCommands(host);
        var lookedUp := if old(resolvedIPs) == [] then Resolved(host, order, old(host.lookups)).commands else [];
        && host.routes == Uninstall(Uninstall(old(host.routes), config.tetherCIDRs, host.deleteFails),
                                    HostTargets(resolvedIPs), host.deleteFails)
        && host.log == old(host.log) + reset + DeleteCommands(config.tetherCIDRs) + lookedUp
                       + DeleteCommands(HostTargets(resolvedIPs))
        && host.store == None
      ensures old(host.store).None? && old(resolvedIPs) != [] ==>
        resolvedIPs == old(resolvedIPs) && host.lookups == old(host.lookups)
      ensures old(host.store).None? && old(resolvedIPs) == [] ==>
        && Enumerates(order, DomainSet(config))
        && resolvedIPs == Resolved(host, order, old(host.lookups)).ips
        && host.lookups == Resolved(host, order, old(host.lookups)).lookups
    {
      order := [];
      ResetDefaultRoute(host);
      ghost var log1 := host.log;
      var saved := host.store;
      if saved.Some? {
        ClearSaved(host, saved.value);
        ConcatAssoc(log1, DeleteCommands(saved.value.cidrs), DeleteCommands(HostTargets(saved.value.ips)));
        return None, order;
      }
      order := ClearFromConfig(host);
      return None, order;
    }

    /** The saved branch of ClearRoutes: the saved CIDRs and addresses are deleted, then the file. */
    method ClearSaved(host: Host, saved: ResolvedIPs)
      modifies host`routes, host`log, host`store
      ensures host.routes == Uninstall(Uninstall(old(host.routes), saved.cidrs, host.deleteFails),
                                       HostTargets(saved.ips), host.deleteFails)
      ensures host.log == old(host.log) + (DeleteCommands(saved.cidrs) + DeleteCommands(HostTargets(saved.ips)))
      ensures host.store == if host.removeFails then old(host.store) else None
    {
      DeleteRoutes(host, saved.cidrs);
      DeleteRoutes(host, HostTargets(saved.ips));
      host.Remove();
    }

    /**
     * The fallback of ClearRoutes when nothing was saved: the configured
     * CIDRs, then the known addresses, resolved first when there are none.
     */
    method ClearFromConfig(host: Host) returns (ghost order: seq<string>)
      modifies this`resolvedIPs, host`routes, host`log, host`lookups
      ensures host.routes == Uninstall(Uninstall(old(host.routes), config.tetherCIDRs, host.deleteFails),
                                       HostTargets(resolvedIPs), host.deleteFails)
      ensures var lookedUp := if old(resolvedIPs) == [] then Resolved(host, order, old(host.lookups)).commands else [];
        host.log == old(host.log) + DeleteCommands(config.tetherCIDRs) + lookedUp + DeleteCommands(HostTargets(resolvedIPs))
      ensures old(resolvedIPs) != [] ==> resolvedIPs == old(resolvedIPs) && host.lookups == old(host.lookups)
      ensures old(resolvedIPs) == [] ==>
        && Enumerates(order, DomainSet(config))
        && resolvedIPs == Resolved(host, order, old(host.lookups)).ips
        && host.lookups == Resolved(host, order, old(host.lookups)).lookups
    {
      DeleteRoutes(host, config.tetherCIDRs);
      ghost var log1 := host.log;
      order := ResolveIfNone(host);
      ghost var lookedUp := if old(resolvedIPs) == [] then Resolved(host, order, old(host.lookups)).commands else [];
      assert host.log == log1 + lookedUp;
      ghost var log2 := host.log;
      DeleteRoutes(host, HostTargets(resolvedIPs));
      assert host.log == log2 + DeleteCommands(HostTargets(resolvedIPs));
    }

    /** ClearRoutes re-resolves the domains only when no address is known. */
    method ResolveIfNone(host: Host) returns (ghost order: seq<string>)
      modifies this`resolvedIPs, host`lookups, host`log
      ensures old(resolvedIPs) != [] ==>
        resolvedIPs == old(resolvedIPs) && host.lookups == old(host.lookups) && host.log == old(host.log)
      ensures old(resolvedIPs) == [] ==>
        var r := Resolved(host, order, old(host.lookups));
        && Enumerates(order, DomainSet(config))
        && resolvedIPs == r.ips && host.lookups == r.lookups && host.log == old(host.log) + r.commands
    {
      order := [];
      if |resolvedIPs| == 0 {
        var ignored;
        ignored, order := ResolveDomains(host);
      }
    }

    /**
     * Routes one more address via the phone, unless it is already routed.
     * The address joins the list only when its route was added, and the list
     * is then saved again.
     */
    method AddDynamicRoute(host: Host, ip: string) returns (err: Option<RouterError>)
      requires ip !in resolvedIPs && phoneGateway == "" ==> phoneIface.Some?
      modifies this`resolvedIPs, host`routes, host`log, host`store
      ensures ip in old(resolvedIPs) ==>
        && err == None && resolvedIPs == old(resolvedIPs)
        && host.routes == old(host.routes) && host.log == old(host.log) && host.store == old(host.store)
      ensures ip !in old(resolvedIPs) ==> host.log == old(host.log) + [Add(HostTarget(ip), PhoneVia())]
      ensures ip !in old(resolvedIPs) && (HostTarget(ip) in host.addFails || HostTarget(ip) in old(host.routes)) ==>
        && err == Some(AddFailed(HostTarget(ip))) && resolvedIPs == old(resolvedIPs)
        && host.routes == old(host.routes) && host.store == old(host.store)
      ensures ip !in old(resolvedIPs) && HostTarget(ip) !in host.addFails && HostTarget(ip) !in old(host.routes) ==>
        && resolvedIPs == old(resolvedIPs) + [ip]
        && host.routes == old(host.routes)[HostTarget(ip) := PhoneVia()]
        && err == (if host.writeFails then Some(SaveFailed) else None)
        && host.store == if host.writeFails then old(host.store) else Some(ResolvedIPs(resolvedIPs, config.tetherCIDRs))
    {
      var target := ip;
      if !IsCIDR(target) {
        target := ip + "/32";
      }
      for i := 0 to |resolvedIPs|
        invariant forall j :: 0 <= j < i ==> resolvedIPs[j] != ip
      {
        if resolvedIPs[i] == ip {
          return None;
        }
      }
      err := AddPhoneRoute(host, target);
      if err.Some? {
        return err;
      }
      resolvedIPs := resolvedIPs + [ip];
      err := SaveResolvedIPs(host);
    }
  }
}
