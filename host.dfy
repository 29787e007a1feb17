/**
 * The machine the routing core drives: the wrappers of pkg/utils/route.go and
 * pkg/utils/network_extra.go around `route`, `ifconfig` and `ipconfig`, the
 * DNS resolver, and the file that keeps the last applied list.
 *
 * What the machine answers is fixed in advance (`const` fields); what the core
 * changes is the routing table, the default gateway, the saved list, and the
 * log of commands in the order they were given.
 */
module Platform {
  import opened Wrappers
  import opened Strings
  import opened CoreConfig

  /** Where a route sends traffic: a gateway address, or straight out of a device. */
  datatype Via = ViaGateway(gateway: string) | ViaDevice(device: string)

  /** One command given to the machine. */
  datatype Command =
    | Add(target: string, via: Via)
    | Delete(target: string)
    | SetDefault(gateway: string)
    | Lookup(name: string)
    | Pause

  class Host {
    /** Lines printed by `networksetup -listallhardwareports`; None when it fails. */
    const portListing: Option<seq<string>>
    /** What `ifconfig <device>` prints, per device; absent when the command fails. */
    const ifconfig: map<string, string>
    /** What `ipconfig getoption <device> router` prints, per device; absent when the command fails. */
    const routers: map<string, string>
    /** The resolver's answer to the n-th lookup of a name; None is an error. */
    const answers: (nat, string) -> Option<seq<string>>
    /** Targets whose `route add` fails. */
    const addFails: set<string>
    /** Targets whose `route delete` fails even when the route exists. */
    const deleteFails: set<string>
    /** Whether both `route change default` and `route add default` fail. */
    const defaultFails: bool
    /** Whether writing the saved list fails. */
    const writeFails: bool
    /** Whether removing the saved list fails; the failure is not reported. */
    const removeFails: bool

    var routes: map<string, Via>
    var defaultGateway: Option<string>
    var store: Option<ResolvedIPs>
    var lookups: nat
    var log: seq<Command>

    constructor (portListing: Option<seq<string>>, ifconfig: map<string, string>, routers: map<string, string>,
                 answers: (nat, string) -> Option<seq<string>>, addFails: set<string>,
                 deleteFails: set<string>, defaultFails: bool, writeFails: bool,
                 removeFails: bool, routes: map<string, Via>, store: Option<ResolvedIPs>)
      ensures this.portListing == portListing && this.ifconfig == ifconfig && this.routers == routers
      ensures this.answers == answers && this.addFails == addFails && this.deleteFails == deleteFails
      ensures this.defaultFails == defaultFails && this.writeFails == writeFails
      ensures this.removeFails == removeFails
      ensures this.routes == routes && this.store == store
      ensures defaultGateway == None && lookups == 0 && log == []
    {
      this.portListing := portListing;
      this.ifconfig := ifconfig;
      this.routers := routers;
      this.answers := answers;
      this.addFails := addFails;
      this.deleteFails := deleteFails;
      this.defaultFails := defaultFails;
      this.writeFails := writeFails;
      this.removeFails := removeFails;
      this.routes := routes;
      this.store := store;
      defaultGateway := None;
      lookups := 0;
      log := [];
    }

    /** IsInterfaceActive: `ifconfig` succeeds and its output contains "inet ". */
    predicate IsActive(device: string) {
      device in ifconfig && Contains(ifconfig[device], "inet ")
    }

    /** A device is active exactly when "inet " occurs at some position of its `ifconfig` output. */
    lemma ActiveMeansInet(device: string)
      ensures IsActive(device) <==>
        device in ifconfig && exists i :: OccursAt(ifconfig[device], "inet ", i)
    {
      if device in ifconfig {
        ContainsAt(ifconfig[device], "inet ");
      }
    }

    /**
     * GetInterfaceGateway: the output with its surrounding white space cut,
     * or "" when the command fails (an all-blank output is an error whose
     * gateway is "" as well).
     */
    function Gateway(device: string): (gw: string)
      ensures device !in routers ==> gw == ""
      ensures device in routers ==> gw == TrimSpace(routers[device])
      ensures gw == [] || (!IsSpace(gw[0]) && !IsSpace(gw[|gw| - 1]))
    {
      if device in routers then TrimSpace(routers[device]) else ""
    }

    /** ResolveDomainToIPs at lookup number `n`: an empty answer counts as an error. */
    function Answer(name: string, n: nat): (r: Option<seq<string>>)
      ensures r.Some? ==> r.value != [] && answers(n, name) == r
      ensures r.None? ==> answers(n, name).None? || answers(n, name) == Some([])
    {
      match answers(n, name)
      case Some(ips) => if ips == [] then None else Some(ips)
      case None => None
    }

    /** AddRoute / AddRouteViaGateway: `route add` also fails when the destination is already routed. */
    method AddRoute(target: string, via: Via) returns (ok: bool)
      modifies this`routes, this`log
      ensures ok <==> target !in old(routes) && target !in addFails
      ensures routes == if ok then old(routes)[target := via] else old(routes)
      ensures log == old(log) + [Add(target, via)]
    {
      ok := target !in routes && target !in addFails;
      if ok {
        routes := routes[target := via];
      }
      log := log + [Add(target, via)];
    }

    /** DeleteRoute: fails when there is no such route. */
    method DeleteRoute(target: string) returns (ok: bool)
      modifies this`routes, this`log
      ensures ok <==> target in old(routes) && target !in deleteFails
      ensures routes == if ok then old(routes) - {target} else old(routes)
      ensures log == old(log) + [Delete(target)]
    {
      ok := target in routes && target !in deleteFails;
      if ok {
        routes := routes - {target};
      }
      log := log + [Delete(target)];
    }

    /** ChangeDefaultGateway, with its fallback from `change` to `add`. */
    method ChangeDefaultGateway(gateway: string) returns (ok: bool)
      modifies this`defaultGateway, this`log
      ensures ok <==> !defaultFails
      ensures defaultGateway == if ok then Some(gateway) else old(defaultGateway)
      ensures log == old(log) + [SetDefault(gateway)]
    {
      ok := !defaultFails;
      if ok {
        defaultGateway := Some(gateway);
      }
      log := log + [SetDefault(gateway)];
    }

    /** ResolveDomainToIPs: one lookup, answered by the resolver. */
    method Resolve(name: string) returns (ips: Option<seq<string>>)
      modifies this`lookups, this`log
      ensures ips == Answer(name, old(lookups))
      ensures lookups == old(lookups) + 1
      ensures log == old(log) + [Lookup(name)]
    {
      ips := Answer(name, lookups);
      lookups := lookups + 1;
      log := log + [Lookup(name)];
    }

    /** The two-second wait between lookup attempts. */
    method Sleep()
      modifies this`log
      ensures log == old(log) + [Pause]
    {
      log := log + [Pause];
    }

    /** Writing the saved list; on failure the model keeps the old list. */
    method Save(data: ResolvedIPs) returns (ok: bool)
      modifies this`store
      ensures ok <==> !writeFails
      ensures store == if ok then Some(data) else old(store)
    {
      ok := !writeFails;
      if ok {
        store := Some(data);
      }
    }

    /** Removing the saved list; nothing tells the caller whether it went. */
    method Remove()
      modifies this`store
      ensures store == if removeFails then old(store) else None
    {
      if !removeFails {
        store := None;
      }
    }
  }

  // ---------------------------------------------------------------------
  // What a sequence of adds or deletes does to the routing table
  // ---------------------------------------------------------------------

  /** The table after adding each target in turn; the failing adds, and those of routed targets, are skipped. */
  function Install(routes: map<string, Via>, targets: seq<string>, via: Via, fails: set<string>): map<string, Via>
    decreases |targets|
  {
    if targets == [] then routes
    else
      var before := Install(routes, targets[..|targets| - 1], via, fails);
      var t := targets[|targets| - 1];
      if t in fails || t in before then before else before[t := via]
  }

  /** The table after deleting each target in turn; absent targets and failing deletes are skipped. */
  function Uninstall(routes: map<string, Via>, targets: seq<string>, fails: set<string>): map<string, Via>
    decreases |targets|
  {
    if targets == [] then routes
    else
      var before := Uninstall(routes, targets[..|targets| - 1], fails);
      var t := targets[|targets| - 1];
      if t in before && t !in fails then before - {t} else before
  }

  function AddCommands(targets: seq<string>, via: Via): (cs: seq<Command>)
    ensures |cs| == |targets|
  {
    seq(|targets|, i requires 0 <= i < |targets| => Add(targets[i], via))
  }

  function DeleteCommands(targets: seq<string>): (cs: seq<Command>)
    ensures |cs| == |targets|
  {
    seq(|targets|, i requires 0 <= i < |targets| => Delete(targets[i]))
  }

  /**
   * After the adds, a target that was not routed and did not fail routes via
   * `via`; every entry that was there before keeps its value.
   */
  lemma {:induction false} InstallEffect(routes: map<string, Via>, targets: seq<string>, via: Via, fails: set<string>)
    ensures forall k :: k in Install(routes, targets, via, fails) <==> k in routes || (k in targets && k !in fails)
    ensures forall k :: k in targets && k !in fails && k !in routes ==> Install(routes, targets, via, fails)[k] == via
    ensures forall k :: k in routes ==> Install(routes, targets, via, fails)[k] == routes[k]
    decreases |targets|
  {
    if targets != [] {
      var init := targets[..|targets| - 1];
      assert targets == init + [targets[|targets| - 1]];
      InstallEffect(routes, init, via, fails);
    }
  }

  /** After the deletes, an entry remains iff it was not a target or its delete fails, and it keeps its value. */
  lemma {:induction false} UninstallEffect(routes: map<string, Via>, targets: seq<string>, fails: set<string>)
    ensures forall k :: k in Uninstall(routes, targets, fails) <==> k in routes && (k !in targets || k in fails)
    ensures forall k :: k in Uninstall(routes, targets, fails) ==> Uninstall(routes, targets, fails)[k] == routes[k]
    decreases |targets|
  {
    if targets != [] {
      var init := targets[..|targets| - 1];
      assert targets == init + [targets[|targets| - 1]];
      UninstallEffect(routes, init, fails);
    }
  }

  /**
   * Deleting the targets that were just added restores the table, when none
   * of them was routed before and no delete fails.
   */
  lemma UninstallUndoesInstall(routes: map<string, Via>, targets: seq<string>, via: Via, addFails: set<string>)
    requires forall t :: t in targets ==> t !in routes
    ensures Uninstall(Install(routes, targets, via, addFails), targets, {}) == routes
  {
    var installed := Install(routes, targets, via, addFails);
    InstallEffect(routes, targets, via, addFails);
    UninstallEffect(installed, targets, {});
    var result := Uninstall(installed, targets, {});
    assert result.Keys == routes.Keys;
    forall k | k in result ensures result[k] == routes[k] {
      assert k !in targets;
    }
  }
}
