# network-router, modelled in Dafny

network-router is a macOS daemon that splits traffic between two uplinks. The
Wi-Fi interface keeps the default route. The domains and CIDR blocks in the
configuration are routed through a tethered phone (iPhone USB, iPad USB or
RNDIS). This project models the part of the daemon that makes the routing
decisions and proves properties of that model:

- **Interface discovery** (module `Network`, `network.dfy`). It reads the
  `networksetup -listallhardwareports` listing into records: a loop method
  proved equal to a left fold over the lines. It also models the keyword
  matcher `FindInterfaceByName`.
- **The router** (modules `Platform`, `RouterSpec`, `Core`; files `host.dfy`,
  `router_spec.dfy`, `router.dfy`). One `Router` object does a whole cycle:
  - it picks the two interfaces;
  - it resolves the tethering domains, with three attempts per domain when
    both interfaces are up;
  - it installs one route per CIDR and per resolved address through the phone;
  - it saves what it installed;
  - it removes those routes again later, preferring the saved list.

  The machine it drives is a `Host` object, covering `route`, `ifconfig`,
  `ipconfig`, the resolver and the saved file. What the machine answers is
  fixed in advance by constant fields. What the router changes is the routing
  table, the default gateway, the saved list and a log of the commands in
  order. `RouterSpec` states the rules as functions and proves properties of
  them: keyword defaults, `/32` host targets, the retry schedule, and the
  resolution of a whole domain set.
- **The state record** (module `State`, `state.dfy`). This is the daemon's
  flags and timestamps, as a `RouterState` class whose setters are proved
  against pure setters on a `StateValue` datatype. `time.Now()` is a counter
  that every stamp advances by one.
- **The monitor** (module `Daemon`, `monitor.dfy`). It covers:
  - one tick of `checkAndApplyRouting`;
  - `ForceApply` and `ForceClear`;
  - the two refresh variants `performRefresh` and `RefreshRoutes`;
  - the refresh-cron slot;
  - the one-slot refresh channel.

  The routers the monitor creates are numbered in creation order. What a
  router's detection, apply and clear yield is given by a `World` value.
  Every method of the `Monitor` class other than the two helpers `NewRouter`
  and `ApplyRoutes` is proved equal to a function of the monitor's
  `MonitorView`; those two are stated on the fields they change. The lemmas are stated about those functions.
- **The IPC dispatch** (module `Ipc`, `ipc.dfy`). `processRequest` becomes
  the function `Dispatch` from an action to a reply and a new view, and
  `handleConnection`'s answer to a request that fails to decode becomes
  `Handle`. `IpcServer.ProcessRequest` is proved to do exactly what
  `Dispatch` says.

`wrappers.dfy` holds `Option` (Go's nil). `strings.dfy` holds the functions of
Go's `strings` package that the core uses, on ASCII. `config.dfy` holds the
`Config` and `ResolvedIPs` records of pkg/core/config.go.

Where a plain reading of the program's behaviour and its code differ, the model
follows the code:

- `FindInterfaceByName` returns the first *interface* whose name matches any
  keyword. The order of the keywords never matters; see
  `Network.KeywordOrderIrrelevant`.
- The `refresh` request runs `RefreshRoutes` synchronously and does not go
  through the refresh channel.
- `SetRoutesApplied` stamps its timestamp on every call, including when the
  flag does not change; see `State.RepeatedApplyRestamps`.

A behaviour of `RefreshRoutes` follows from the code and is proved as
`Daemon.RoutesRefreshedKeepsCron`. `RefreshRoutes` makes its own clear
(daemon/monitor.go:273-277) and marks routes unapplied (line 280) before its
re-check (line 284). In the re-check, routes therefore read as unapplied and
the clear branch at line 158 cannot fire, so `RefreshRoutes` never stops the
refresh cron. When the re-check finds an interface down, nothing is
re-applied, the re-check returns no error, and the cron keeps running (or is
started at line 288) with no routes applied. A later refresh of that cron
finds nothing applied and does nothing.

## Model

| member | source | states |
|---|---|---|
| Network.NamesAt | pkg/utils/network.go:38-51 | The name list used to state `RecordsFollowPortLines` holds, at each position, the name of the record there. |
| Network.ParseHardwarePorts | pkg/utils/network.go:28-53 | The line loop returns exactly the records of the reference fold `HardwarePorts` over the same lines. |
| Network.PortsAreNamed | pkg/utils/network.go:35-51 | Every returned record has a non-empty name, because a record is flushed only when its name is not empty. |
| Network.RecordsFollowPortLines | pkg/utils/network.go:33-51 | The names of the returned records are exactly the non-empty trimmed names of the "Hardware Port:" lines, in input order. |
| Network.ScanBody | pkg/utils/network.go:42-46 | Inside a block without port lines, the record being filled takes the value of the last "Device:" line and of the last "Ethernet Address:" line, and keeps its old values when there is none. Every other line is ignored. |
| Network.BlockScan | pkg/utils/network.go:35-46 | A port line followed by a block without port lines leaves one record being filled: named by the port line, holding the block's last device and address ("" when absent). |
| Network.PortBlock | pkg/utils/network.go:33-51 | A port line, its block and the rest of the listing give that block's record (when its name is not empty) followed by the records of the rest. |
| Network.LinesBeforeFirstPortIgnored | pkg/utils/network.go:31-51 | Device and address lines that come before the first "Hardware Port:" line never appear in the result. |
| Network.FindInterfaceByName | pkg/utils/network.go:57-66 | The result is None exactly when no lower-cased name contains any lower-cased keyword. Otherwise it is the first element of the list, in list order, whose name matches some keyword. |
| Network.SameKeywordsSameMatch | pkg/utils/network.go:59-60 | Whether a name matches depends only on the set of keywords. |
| Network.KeywordOrderIrrelevant | pkg/utils/network.go:58-63 | Two keyword lists with the same elements find the same interface: interface order decides, not keyword order. |
| Platform.Host.IsActive | pkg/utils/route.go:64-73 | A device is active when `ifconfig` succeeds for it and its output contains "inet "; the statement is `ActiveMeansInet`. |
| Platform.Host.ActiveMeansInet | pkg/utils/route.go:64-73 | A device is active exactly when its `ifconfig` output exists and "inet " occurs at some position of it. |
| Platform.Host.Gateway | pkg/utils/network_extra.go:10-22 | The gateway is "" when `ipconfig` fails; otherwise it is exactly `TrimSpace` of the output, so it neither starts nor ends with white space. |
| Strings.TrimLeftCutsSpace | pkg/utils/network_extra.go:17 | Trimming the front of a string cuts off only white space. |
| Strings.TrimRightCutsSpace | pkg/utils/network_extra.go:17 | Trimming the back of a string cuts off only white space. |
| Strings.TrimSpaceCuts | pkg/utils/network_extra.go:17 | `TrimSpace` of a string is one slice of it, with only white space cut off before and after. |
| Platform.Host.AddRoute | pkg/utils/route.go:11-33 | An add succeeds exactly when the destination is not routed yet and is not one whose add fails; on success the target routes via the given gateway or device. The command is logged either way. |
| Platform.Host.DeleteRoute | pkg/utils/route.go:53-62 | A delete succeeds exactly when the route exists and its delete does not fail, and then removes just that entry. |
| Platform.Host.ChangeDefaultGateway | pkg/utils/route.go:35-50 | The default route moves to the gateway unless both the change and the add fail. |
| Platform.Host.Answer | pkg/utils/network.go:69-94 | A successful lookup answers a non-empty list; an empty answer counts as an error. |
| Platform.Host.Resolve | pkg/utils/network.go:69-94 | One lookup returns the resolver's answer to the next lookup number, and is logged. |
| Platform.Host.Sleep | pkg/core/router.go:131 | The pause between two attempts is logged and changes nothing else. |
| Platform.Host.Save | pkg/core/router.go:355-361 | The saved list holds the written record unless the write fails, in which case it is left as it was. |
| Platform.Host.Remove | pkg/core/router.go:283 | Afterwards no list is saved, unless the removal fails, in which case the saved list is unchanged; nothing is reported either way. |
| Platform.InstallEffect | pkg/core/router.go:217-237 | After the adds, the table has an entry exactly for the old keys and the targets whose add does not fail. Targets that were not routed before route via the phone, and every entry that was there keeps its old value. |
| Platform.UninstallEffect | pkg/core/router.go:269-282 | After the deletes, an entry remains exactly when it was not a target or its delete fails, and it keeps its value. |
| Platform.UninstallUndoesInstall | pkg/core/router.go:269-282 | Deleting the targets just added restores the table, provided none of them was routed before and no delete fails. |
| RouterSpec.WifiKeyword | pkg/core/router.go:44-47 | The Wi-Fi keyword is never empty: it is the configured one, or "Wi-Fi" when none is configured. |
| RouterSpec.PhoneKeyword | pkg/core/router.go:48-51 | The phone keyword is never empty: it is the configured one, or "iPhone USB" when none is configured. |
| RouterSpec.WifiFallback | pkg/core/router.go:53 | Whatever keyword is configured, the Wi-Fi role is matched when some port name contains "wi-fi" in any case; the port found is that one or an earlier one, since the first port matching any keyword wins. |
| RouterSpec.PhoneFallback | pkg/core/router.go:54 | Whatever keyword is configured, the phone role is matched when some port name contains "iPhone USB", "iPad USB" or "RNDIS" in any case; the port found is that one or an earlier one, since the first port matching any keyword wins. |
| RouterSpec.IsCIDR | pkg/core/router.go:374-376 | `isCIDR`; its meaning is stated by `IsCIDRMeansSlash`. |
| RouterSpec.IsCIDRMeansSlash | pkg/core/router.go:374-376 | A string counts as a CIDR exactly when one of its characters is a slash. |
| RouterSpec.HostTargetFacts | pkg/core/router.go:226-230 | Every route target contains "/". An address is left alone exactly when it already contains "/" (`isCIDR`, lines 374-376), and formatting a target again changes nothing. |
| RouterSpec.LookupName | pkg/core/router.go:112-116 | A domain starting with "*." is looked up without that prefix; any other domain is looked up unchanged. |
| RouterSpec.LookupNameStripsOnce | pkg/core/router.go:113-114 | Exactly one wildcard prefix is dropped, whatever follows it. |
| RouterSpec.MaxTries | pkg/core/router.go:122-136 | The number of attempts is three exactly when both interfaces are up, and one exactly when they are not. |
| RouterSpec.RetryCount | pkg/core/router.go:122-136 | When every lookup fails, a domain is looked up three times with a pause between each two while both interfaces are up, and once with no pause otherwise. |
| RouterSpec.RetryShape | pkg/core/router.go:122-133 | A domain's run makes between one and the allowed number of lookups, with exactly one pause between each two of them and none after the last. |
| RouterSpec.RetryOutcome | pkg/core/router.go:124-128 | The run stops at the first lookup that answers and returns that answer. Every earlier lookup failed, and the run fails only after every allowed attempt failed. |
| RouterSpec.PartitionDone | pkg/core/router.go:101-111 | The iteration order picked for the domain map lists every distinct configured domain exactly once. |
| RouterSpec.ResolveAllEmpty | pkg/core/router.go:138-150 | No address is resolved exactly when no domain succeeded, and no more domains succeed than there are. |
| RouterSpec.ResolveAllLookups | pkg/core/router.go:111-136 | Every domain gets between one lookup and the allowed number of lookups. |
| RouterSpec.ResolveAllOnce | pkg/core/router.go:134-135 | With one attempt each, every domain is looked up once, in iteration order, and nothing pauses. |
| Core.ResolveWithRetry | pkg/core/router.go:122-133 | The retry loop returns the answer, log and lookup count of the reference run `Retry`. |
| Core.ResolveOne | pkg/core/router.go:112-136 | One domain is looked up without its wildcard prefix, with three attempts when both interfaces are up and one otherwise, as `Retry` describes. |
| Core.DeleteRoutes | pkg/core/router.go:291-295 | A delete loop ignores failures and leaves the table that `Uninstall` describes, having logged one delete per target. |
| Core.Router.constructor | pkg/core/router.go:30-34 | A new router has matched nothing, resolved nothing and captured no gateway. |
| Core.Router.DetectInterfaces | pkg/core/router.go:37-65 | A failed listing is an error and leaves both roles as they were. Otherwise both roles are found with the default-completed keyword lists. A missing Wi-Fi role is reported before a missing phone role, and there is no error exactly when both are found. |
| Core.Router.BothInterfacesMeansInet | pkg/core/router.go:67-72 | `HasBothInterfaces` holds exactly when both roles are matched and the `ifconfig` output of each matched device contains "inet ". |
| Core.Router.GetInterfaceStatus | pkg/core/router.go:75-83 | An unmatched role reads as inactive, and both read active exactly when `HasBothInterfaces` holds. |
| Core.Router.ResolveDomains | pkg/core/router.go:86-174 | Every distinct domain is resolved once, in some order, starting from an empty list. The list ends as the concatenation of the successful answers. It fails exactly when domains are configured and none answered. |
| Core.Router.ResolveDomain | pkg/core/router.go:111-151 | One pass of the domain loop: one domain's run is appended to the resolution so far, counted only when it answered. |
| Core.Router.AddPhoneRoute | pkg/core/router.go:343-348 | A route goes via the phone gateway when one was captured, else via the phone device, and fails exactly when the add fails (the target is already routed, or its add fails). |
| Core.Router.AddPhoneRoutes | pkg/core/router.go:217-237 | The add loops make one add per target, in order, and failures do not stop them. |
| Core.Router.SaveResolvedIPs | pkg/core/router.go:350-362 | Unless the write fails, the saved list becomes the resolved addresses and the configured CIDRs. |
| Core.Router.ApplyRoutes | pkg/core/router.go:177-246 | Both gateways are captured. If resolution fails, or there are neither CIDRs nor addresses, it fails with no route added and nothing saved. Otherwise it adds every CIDR and then every address target via the phone, whatever single adds do, and saves what it routed. |
| Core.Router.RouteAndSave | pkg/core/router.go:216-242 | The CIDR routes, then the address routes, are added as `Install` describes, and the list is saved unless the write fails. |
| Core.Router.ResetDefaultRoute | pkg/core/router.go:252-263 | The default route is reset to the Wi-Fi gateway exactly when Wi-Fi is matched and has a gateway. |
| Core.Router.ClearRoutes | pkg/core/router.go:249-314 | It never fails. With a saved list, it deletes exactly the saved CIDRs and addresses, removes the list (which stays when the removal fails), and ignores the configuration and the in-memory list. Without one, it deletes the configured CIDRs and the in-memory addresses, resolving first only when that list is empty. |
| Core.Router.ClearSaved | pkg/core/router.go:266-286 | The saved CIDRs and then the saved addresses are deleted, ignoring failures, and the saved list is removed unless the removal fails. |
| Core.Router.ClearFromConfig | pkg/core/router.go:288-313 | The configured CIDRs are deleted, then the in-memory addresses, which are resolved first only when the list is empty. |
| Core.Router.ResolveIfNone | pkg/core/router.go:298-300 | An empty address list is re-resolved; a non-empty one is kept and nothing is looked up. |
| Core.Router.AddDynamicRoute | pkg/core/router.go:317-339 | An address already in the list changes nothing. A failed add (its host target already routed, or its add failing) returns the error and changes nothing. Otherwise the address is routed via the phone, appended once, and the list saved again. |
| State.StateValue.WithAutoRouting | daemon/state.go:34-38 | Only the auto-routing switch changes. |
| State.StateValue.WithRoutesApplied | daemon/state.go:48-57 | The flag is set. A fresh, later reading stamps the applied or the cleared time, whichever matches, and the other stamp is left alone. |
| State.StateValue.WithInterfaceStatus | daemon/state.go:60-65 | Only the two activity flags change. |
| State.InitialIsConsistent | daemon/state.go:20-24 | A new record has auto-routing on, every other flag off, and is consistent. |
| State.SettersKeepConsistent | daemon/state.go:34-65 | Every setter keeps the stamps in the past and the routes flag in agreement with the later stamp. |
| State.FlagIsLastApplied | daemon/state.go:20-65 | After any sequence of setter calls from a new record, the routes flag is the argument of the last `SetRoutesApplied` (false when there was none), the record is consistent, and the flag holds exactly when the last apply is later than the last clear. |
| State.RepeatedApplyRestamps | daemon/state.go:52-56 | A second `SetRoutesApplied(true)` leaves the flag set but stamps a later time. |
| State.Status | daemon/state.go:82-94 | The summary has exactly six keys. |
| State.StatusMirrorsFields | daemon/state.go:82-94 | Two records give the same summary exactly when they agree on all six fields. |
| State.InterfaceStatusReadsBack | daemon/state.go:60-79 | After an update, both interfaces read up exactly when both written flags are up; the other flags are untouched. |
| State.RouterState.IsAutoRoutingEnabled | daemon/state.go:27-31 | The switch reads as the status summary reports it. |
| State.RouterState.AreRoutesApplied | daemon/state.go:41-45 | The routes flag reads as the status summary reports it. |
| State.RouterState.GetInterfaceStatus | daemon/state.go:68-72 | The two activity flags last written, as the status summary reports them. |
| State.RouterState.HasBothInterfaces | daemon/state.go:75-79 | Holds exactly when both activity flags read true. |
| State.RouterState.GetStatus | daemon/state.go:82-94 | Exactly six keys; the flags agree with the getters and the two stamps are the stored ones. |
| State.RouterState.constructor | daemon/state.go:20-24 | A new record is the initial value. |
| State.RouterState.SetAutoRouting | daemon/state.go:34-38 | The record becomes `WithAutoRouting` of its old value. |
| State.RouterState.SetRoutesApplied | daemon/state.go:48-57 | The record becomes `WithRoutesApplied` of its old value. |
| State.RouterState.UpdateInterfaceStatus | daemon/state.go:60-65 | The record becomes `WithInterfaceStatus` of its old value. |
| Daemon.Probe | daemon/monitor.go:106-112 | The status recorded for a router is both off when detection fails, and the router's reading otherwise. |
| Daemon.TickRecordsStatus | daemon/monitor.go:106-115 | Every tick records the probed status first, and nothing later in the tick changes it. |
| Daemon.ActAtMostOneCall | daemon/monitor.go:117-185 | After the status is recorded, at most one route call is made. It is an apply exactly when auto-routing is on, both interfaces are up and routes are not applied. It is a clear exactly when routes are applied and auto-routing is off or an interface is down. |
| Daemon.TickAtMostOneCall | daemon/monitor.go:129-183 | The same for the whole tick, judged on the probed status of the fresh router. |
| Daemon.TickWhenDisabled | daemon/monitor.go:118-127 | With auto-routing off, a tick never applies, clears exactly when routes are applied, and returns no error. |
| Daemon.TickApplyOutcome | daemon/monitor.go:133-155 | The apply branch keeps the fresh router even when its apply fails. Routes end applied exactly when the apply succeeded, and a failure is returned. |
| Daemon.TickClearOutcome | daemon/monitor.go:158-183 | The clear branch reuses the monitor's router, or takes the fresh one when there is none. It marks routes cleared and stops the cron only on success. |
| Daemon.ForceApplyOutcome | daemon/monitor.go:189-221 | ForceApply succeeds exactly when detection and apply succeed. A failure leaves the state record, the router and the cron alone. Success keeps the new router, marks routes applied and records the detected status. |
| Daemon.ForceApplyIgnoresAutoRouting | daemon/monitor.go:189-221 | ForceApply's outcome does not depend on the auto-routing switch. |
| Daemon.ForceClearOutcome | daemon/monitor.go:225-259 | ForceClear leaves auto-routing off even when the clear fails. It creates a router only when there is none, and succeeds exactly when the clear does. Routes are marked cleared and the cron stopped only on success. |
| Daemon.RefreshNeedsAppliedRoutes | daemon/monitor.go:72-75 | Both refreshes do nothing unless routes are applied. |
| Daemon.RefreshPerformedForgetsRouter | daemon/monitor.go:77-90 | performRefresh first clears with the current router, and afterwards the monitor has no router or a newer one. |
| Daemon.CronSlotIdempotent | daemon/monitor.go:293-329 | Starting the cron twice is starting it once, and likewise for stopping. An empty expression starts nothing. After a start the cron runs exactly when it ran already, or the expression is non-empty and accepted. |
| Daemon.SurplusTriggersDropped | daemon/monitor.go:305-309 | The channel holds one trigger: a second send is dropped, and one receive serves both. |
| Daemon.TickKeepsCoherent | daemon/monitor.go:99-186 | A tick keeps the record consistent, keeps a router whenever routes are applied, and only keeps routers that were created. |
| Daemon.ActKeepsCoherent | daemon/monitor.go:117-185 | The decision part of the tick keeps the monitor coherent. |
| Daemon.ForceApplyKeepsCoherent | daemon/monitor.go:189-221 | ForceApply keeps the monitor coherent. |
| Daemon.ForceClearKeepsCoherent | daemon/monitor.go:225-259 | ForceClear keeps the monitor coherent. |
| Daemon.RefreshesKeepCoherent | daemon/monitor.go:68-96 | Both performRefresh and RefreshRoutes (lines 262-290) keep the monitor coherent. |
| Daemon.TickCronFollowsRoutes | daemon/monitor.go:154-182 | If a refresh cron ran only while routes were applied, that stays true after a tick. |
| Daemon.CronFollowsRoutes | daemon/monitor.go:154-182 | The same holds after ForceApply, ForceClear and performRefresh. |
| Daemon.RoutesRefreshedKeepsCron | daemon/monitor.go:262-290 | RefreshRoutes never stops a running cron. When auto-routing is on and the re-check finds an interface down, routes end unapplied while the cron runs, so the cron-follows-routes property above does not hold for RefreshRoutes. |
| Daemon.Monitor.constructor | daemon/monitor.go:26-34 | A new monitor has no router, no cron and an empty channel. |
| Daemon.Monitor.NewRouter | daemon/monitor.go:101-104 | Each new router gets the next number. |
| Daemon.Monitor.ApplyRoutes | daemon/monitor.go:137-140 | One apply call on the given router, which fails as the world says. |
| Daemon.Monitor.ClearRoutes | daemon/monitor.go:165-168 | One clear call on the current router, as `ClearRouter` says. |
| Daemon.Monitor.StartRefreshCron | daemon/monitor.go:293-320 | The slot is updated as `StartCron` says. |
| Daemon.Monitor.StopRefreshCron | daemon/monitor.go:323-329 | The slot is emptied. |
| Daemon.Monitor.SendRefresh | daemon/monitor.go:305-309 | The cron's non-blocking send, as `CronFire` says. |
| Daemon.Monitor.ServeRefresh | daemon/monitor.go:61-62 | Receiving a pending trigger runs performRefresh, as `RefreshServed` says. |
| Daemon.Monitor.ClearAndMark | daemon/monitor.go:165-182 | A clear that, on success, marks routes cleared and stops the cron, as `ClearMarked` says. |
| Daemon.Monitor.CheckAndApplyRouting | daemon/monitor.go:99-186 | The monitor and the state record change exactly as `Tick` says, and the same error is returned. |
| Daemon.Monitor.ActOnStatus | daemon/monitor.go:117-185 | The decision part of the tick, exactly as `Act` says. |
| Daemon.Monitor.ForceApply | daemon/monitor.go:189-221 | Exactly as `ForceApplied` says. |
| Daemon.Monitor.ForceClear | daemon/monitor.go:225-259 | Exactly as `ForceCleared` says. |
| Daemon.Monitor.PerformRefresh | daemon/monitor.go:68-96 | Exactly as `RefreshPerformed` says. |
| Daemon.Monitor.RefreshRoutes | daemon/monitor.go:262-290 | Exactly as `RoutesRefreshed` says. |
| Ipc.StatusIsReadOnly | daemon/ipc.go:121-125 | "status" succeeds with the six-key summary of the state and changes nothing. |
| Ipc.SwitchVerbs | daemon/ipc.go:127-141 | "enable" and "disable" always succeed and change only the auto-routing switch, to on or off. |
| Ipc.ApplyVerb | daemon/ipc.go:143-153 | "apply" acts as ForceApply, and succeeds exactly when ForceApply returns no error; a failure says "Failed to apply routes: ". |
| Ipc.ClearVerb | daemon/ipc.go:155-170 | "clear" acts as ForceClear and succeeds exactly when it returns no error. On success the message ends in " (auto-routing disabled)" exactly when auto-routing was on before the call. |
| Ipc.RestartVerb | daemon/ipc.go:172-188 | "restart" tries ForceApply only after ForceClear succeeded, and succeeds exactly when both do. |
| Ipc.RefreshVerb | daemon/ipc.go:190-195 | "refresh" runs RefreshRoutes itself and always answers "Refresh triggered". |
| Ipc.DnsProxyVerbs | daemon/ipc.go:197-233 | Without a DNS proxy, both proxy verbs fail with "DNS Proxy not initialized" and change nothing. |
| Ipc.UnknownAction | daemon/ipc.go:235-239 | Any other action fails with "Unknown action: " followed by the action, and changes nothing. |
| Ipc.UndecodableRequest | daemon/ipc.go:101-107 | A request that does not decode is still answered: it fails with "Invalid request: " and changes nothing. |
| Ipc.FailuresExplain | daemon/ipc.go:119-241 | Every failed response carries a message. |
| Ipc.DispatchKeepsCoherent | daemon/ipc.go:119-241 | Whatever action arrives, the monitor stays coherent. |
| Ipc.IpcServer.constructor | daemon/ipc.go:37-43 | The server shares the given monitor and state record. |
| Ipc.IpcServer.ProcessRequest | daemon/ipc.go:119-241 | The response and the new monitor and state are exactly what `Dispatch` gives for the old view. |
| Ipc.IpcServer.HandleConnection | daemon/ipc.go:96-116 | The response and the new state are exactly what `Handle` gives: the decode-failure answer, or the dispatch of the decoded action. |

## Left out

- The port listing is taken as already split into lines, with no length limit. The `bufio.Scanner` loop in pkg/utils/network.go:29-47 stops silently at a line longer than 64 KiB, because `scanner.Err()` is never checked; `ParseHardwarePorts` reads every line.
- Operating-system commands are not executed. `exec.Command` calls to `networksetup`, `route`, `ifconfig` and `ipconfig` (pkg/utils/route.go, pkg/utils/network_extra.go) are replaced by the `Host` object:
  - the port listing is a constant (None when the command fails);
  - the output of `ifconfig` and of `ipconfig getoption <device> router` are maps from device to text, where a missing entry is a failed command;
  - add, delete and default-route failures are sets and flags fixed in advance.
- Platform.Host.ChangeDefaultGateway: the `change`-then-`add` fallback is one outcome, `defaultFails`. It says whether both attempts fail.
- Platform.Host.DeleteRoute: a delete of an absent route fails and changes nothing. Why a real `route delete` fails is not modelled.
- Platform.Host.AddRoute: the routing table is keyed by the exact target text. Two spellings of the same destination are different keys, so an add that the kernel refuses as a duplicate can succeed in the model.
- Platform.Host.Save: a failed write keeps the old list. `os.WriteFile` truncates the file first, so a real failed write can leave an empty file, which YAML reads as an empty list without error; a later `ClearRoutes` would then take the saved branch and delete nothing. That outcome is not modelled.
- DNS resolution (`ResolveDomainToIPs`, with its 5-second timeout and IPv4 filter) is an oracle. It answers the n-th lookup of a name, and an empty answer is an error. The two-second `time.Sleep` between attempts is a `Pause` entry in the command log.
- Core.Router.ResolveDomains: Go map iteration order is unspecified. The loop picks any remaining domain, and the contract speaks of the order it picked. That order is a ghost output listing every distinct domain exactly once.
- Core.Router.ApplyRoutes: requires both interfaces to be matched, because the source dereferences both without a check (a nil-pointer panic is not modelled).
- Core.Router.AddDynamicRoute: requires a phone interface when no phone gateway is known and the address is new, for the same reason.
- The saved file is a plain field `store` of the `Host`: a list, or None. A file that is missing or does not parse is None. `ClearRoutes` branches on it, so it is not ghost. YAML encoding, the file path and temp-file handling are not modelled, nor is `LoadConfig` (pkg/core/config.go:19-30).
- Logging is not modelled. This includes the success and failure counts, the failed-domain list, the floating-point percentage summary, and every `log.Printf` and `fmt.Printf`.
- Error texts are not modelled. Router errors are constructors of `RouterError`. Monitor errors are `MonitorError` values, and `Ipc.ErrorText` gives a fixed placeholder text where Go formats the error with `%v`.
- The monitor does not run the router model. Each router is a number, and the `World` value gives its detection result, its apply outcome and the outcome of each clear. The composition of `Core` with `Daemon` is not proved. In particular, `Core.Router.ClearRoutes` never fails, while the monitor model still allows a failing clear, as its callers handle one.
- Daemon.ForceClear: the best-effort `DetectInterfaces` of a router made there has no effect in the model, because its result is discarded and router results are abstract.
- Daemon.Monitor.CheckAndApplyRouting: the error branches after `core.NewRouter` are left out, because `NewRouter` never fails.
- Scheduling is not modelled. The robfig/cron scheduler, the real cron expression parser (only its verdict, `cronValid`), the five-second ticker and the 10:00 log-truncation job (`startPersistentCron`/`stopPersistentCron`) are outside the model. The `Start` loop itself is not modelled either: only the two things it does, a tick (`CheckAndApplyRouting`) and a receive (`ServeRefresh`), are.
- Concurrency is not modelled: goroutines, the errgroup, signal handling, and the `sync.RWMutex` of the state record. Every operation is one atomic step.
- The IPC transport is not modelled: the Unix-socket accept loop, `Start`/`Stop`, JSON encoding and `sendResponse`. An undecodable request arrives as `Undecodable(reason)`, and the unused `Params` field is dropped.
- The DNS proxy: daemon/daemon.go creates one and hands it to the monitor and the IPC server, but its type is not defined in the repository's files. The model takes it to be nil, so its start, stop and `SetDNSProxyEnabled` calls never happen and both proxy verbs take their "not initialized" branch.
- `time.Now()` is a counter that advances by one per stamp, so only the order of timestamps is modelled. The zero time is 0.
- Strings are treated as ASCII. `TrimSpace` trims the six ASCII white-space characters, and `ToLower` maps only `A`–`Z`.
- client/client.go, tray/tray.go, assets/*.go, main.go and daemon/daemon.go are a client, a user interface, images and process wiring; `ShowRoutingTable` is a diagnostic print. None of them is part of this model.
