/**
 * The request dispatch of daemon/ipc.go: processRequest maps an action name
 * to a response, acting on the monitor and the state record on the way, and
 * handleConnection answers a request that does not decode.
 *
 * The model takes the DNS proxy to be nil, although the daemon creates one
 * (see README, Left out), so both of its verbs take their "not initialized"
 * branch.
 */
module Ipc {
  import opened Wrappers
  import opened Strings
  import opened State
  import opened Daemon

  /** What the decoder of handleConnection produced: an action, or the decoder's error text. */
  datatype Request = Decoded(action: string) | Undecodable(reason: string)

  /** IPCResponse; an empty message or an empty map stands for an omitted field. */
  datatype Response = Response(success: bool, message: string, data: map<string, StatusField>)

  datatype Reply = Reply(view: MonitorView, response: Response)

  function Succeed(message: string): Response {
    Response(true, message, map[])
  }

  function Fail(message: string): Response {
    Response(false, message, map[])
  }

  /** The text of a monitor error in a response. */
  function ErrorText(e: MonitorError): string {
    match e
    case DetectFailed(_) => "interface detection failed"
    case ApplyFailed(_) => "route application failed"
    case ClearFailed(_) => "route clearing failed"
  }

  const ClearedSuffix := " (auto-routing disabled)"

  const KnownActions: set<string> := {
    "status", "enable", "disable", "apply", "clear", "restart", "refresh",
    "enable_dns_proxy", "disable_dns_proxy"
  }

  predicate EndsWith(s: string, suffix: string) {
    |suffix| <= |s| && s[|s| - |suffix|..] == suffix
  }

  /** processRequest, as a function of the monitor's view. */
  function Dispatch(w: World, s: Settings, action: string, v: MonitorView): Reply {
    if action == "status" then
      Reply(v, Response(true, "", Status(v.state)))
    else if action == "enable" then
      Reply(v.(state := v.state.WithAutoRouting(true)), Succeed("Auto-routing enabled"))
    else if action == "disable" then
      Reply(v.(state := v.state.WithAutoRouting(false)), Succeed("Auto-routing disabled"))
    else if action == "apply" then
      var f := ForceApplied(w, s, v);
      Reply(f.view, if f.err.Some? then Fail("Failed to apply routes: " + ErrorText(f.err.value))
                    else Succeed("Routes applied successfully"))
    else if action == "clear" then
      var f := ForceCleared(w, v);
      Reply(f.view, if f.err.Some? then Fail("Failed to clear routes: " + ErrorText(f.err.value))
                    else Succeed("Routes cleared successfully" + if v.state.autoRoutingEnabled then ClearedSuffix else ""))
    else if action == "restart" then
      var c := ForceCleared(w, v);
      if c.err.Some? then Reply(c.view, Fail("Restart failed at clear: " + ErrorText(c.err.value)))
      else
        var f := ForceApplied(w, s, c.view);
        Reply(f.view, if f.err.Some? then Fail("Restart failed at apply: " + ErrorText(f.err.value))
                      else Succeed("Routes restarted successfully"))
    else if action == "refresh" then
      Reply(RoutesRefreshed(w, s, v), Succeed("Refresh triggered"))
    else if action == "enable_dns_proxy" || action == "disable_dns_proxy" then
      Reply(v, Fail("DNS Proxy not initialized"))
    else
      Reply(v, Fail("Unknown action: " + action))
  }

  /** handleConnection: a request that does not decode is answered and changes nothing. */
  function Handle(w: World, s: Settings, request: Request, v: MonitorView): Reply {
    match request
    case Undecodable(reason) => Reply(v, Fail("Invalid request: " + reason))
    case Decoded(action) => Dispatch(w, s, action, v)
  }

  // ---------------------------------------------------------------------
  // What each verb promises
  // ---------------------------------------------------------------------

  /** "status" succeeds with the six-key summary of the state and changes nothing. */
  lemma StatusIsReadOnly(w: World, s: Settings, v: MonitorView)
    ensures Dispatch(w, s, "status", v).view == v
    ensures Dispatch(w, s, "status", v).response.success
    ensures Dispatch(w, s, "status", v).response.data == Status(v.state)
    ensures Dispatch(w, s, "status", v).response.data.Keys == StatusKeys
  {
  }

  /** "enable" and "disable" always succeed and change only the auto-routing switch. */
  lemma SwitchVerbs(w: World, s: Settings, v: MonitorView, enable: bool)
    ensures var r := Dispatch(w, s, if enable then "enable" else "disable", v);
      && r.response.success
      && r.view.state.autoRoutingEnabled == enable
      && r.view.(state := v.state) == v
      && r.view.state.(autoRoutingEnabled := v.state.autoRoutingEnabled) == v.state
  {
  }

  /** "apply" succeeds exactly when ForceApply returns no error, and then acts as ForceApply did. */
  lemma ApplyVerb(w: World, s: Settings, v: MonitorView)
    ensures var r := Dispatch(w, s, "apply", v);
      && r.view == ForceApplied(w, s, v).view
      && (r.response.success <==> ForceApplied(w, s, v).err.None?)
      && (!r.response.success ==> HasPrefix(r.response.message, "Failed to apply routes: "))
  {
  }

  /**
   * "clear" succeeds exactly when ForceClear returns no error; the reply then
   * says auto-routing was disabled exactly when it had been enabled.
   */
  lemma ClearVerb(w: World, s: Settings, v: MonitorView)
    ensures var r := Dispatch(w, s, "clear", v);
      && r.view == ForceCleared(w, v).view
      && (r.response.success <==> ForceCleared(w, v).err.None?)
    ensures var r := Dispatch(w, s, "clear", v);
      r.response.success ==> (EndsWith(r.response.message, ClearedSuffix) <==> v.state.autoRoutingEnabled)
  {
    var r := Dispatch(w, s, "clear", v);
    var base := "Routes cleared successfully";
    if r.response.success && !v.state.autoRoutingEnabled {
      assert r.response.message == base;
      assert |base| - |ClearedSuffix| == 3;
      assert base[3..][0] == 't' != ClearedSuffix[0];
    }
  }

  /** "restart" tries ForceApply only after ForceClear succeeded, and succeeds when both do. */
  lemma RestartVerb(w: World, s: Settings, v: MonitorView)
    ensures var c := ForceCleared(w, v);
      c.err.Some? ==> Dispatch(w, s, "restart", v).view == c.view && !Dispatch(w, s, "restart", v).response.success
    ensures var c := ForceCleared(w, v);
      c.err.None? ==> Dispatch(w, s, "restart", v).view == ForceApplied(w, s, c.view).view
    ensures Dispatch(w, s, "restart", v).response.success
            <==> ForceCleared(w, v).err.None? && ForceApplied(w, s, ForceCleared(w, v).view).err.None?
  {
  }

  /** "refresh" runs RefreshRoutes itself and always answers success. */
  lemma RefreshVerb(w: World, s: Settings, v: MonitorView)
    ensures Dispatch(w, s, "refresh", v).view == RoutesRefreshed(w, s, v)
    ensures Dispatch(w, s, "refresh", v).response == Succeed("Refresh triggered")
  {
  }

  /** Without a DNS proxy, both proxy verbs fail and change nothing. */
  lemma DnsProxyVerbs(w: World, s: Settings, v: MonitorView, enable: bool)
    ensures var r := Dispatch(w, s, if enable then "enable_dns_proxy" else "disable_dns_proxy", v);
      r.view == v && r.response == Fail("DNS Proxy not initialized")
  {
  }

  /** Any other action fails, naming the action, and changes nothing. */
  lemma UnknownAction(w: World, s: Settings, v: MonitorView, action: string)
    requires action !in KnownActions
    ensures Dispatch(w, s, action, v) == Reply(v, Fail("Unknown action: " + action))
  {
  }

  /** A request that does not decode fails with the decoder's error and changes nothing. */
  lemma UndecodableRequest(w: World, s: Settings, v: MonitorView, reason: string)
    ensures Handle(w, s, Undecodable(reason), v).view == v
    ensures !Handle(w, s, Undecodable(reason), v).response.success
    ensures HasPrefix(Handle(w, s, Undecodable(reason), v).response.message, "Invalid request: ")
  {
  }

  /** Every failure carries a message. */
  lemma FailuresExplain(w: World, s: Settings, request: Request, v: MonitorView)
    ensures !Handle(w, s, request, v).response.success ==> Handle(w, s, request, v).response.message != ""
  {
  }

  /** Whatever the daemon is asked, the monitor stays coherent. */
  lemma DispatchKeepsCoherent(w: World, s: Settings, action: string, v: MonitorView)
    requires Coherent(v)
    ensures Coherent(Dispatch(w, s, action, v).view)
  {
    if action == "enable" || action == "disable" {
      SettersKeepConsistent(v.state, action == "enable", false, false, false);
    } else if action == "apply" {
      ForceApplyKeepsCoherent(w, s, v);
    } else if action == "clear" {
      ForceClearKeepsCoherent(w, v);
    } else if action == "restart" {
      ForceClearKeepsCoherent(w, v);
      ForceApplyKeepsCoherent(w, s, ForceCleared(w, v).view);
    } else if action == "refresh" {
      RefreshesKeepCoherent(w, s, v);
    }
  }

  /** The server: the monitor and the state record it shares with it. */
  class IpcServer {
    const monitor: Monitor
    const state: RouterState

    /** NewIPCServer. */
    constructor (monitor: Monitor, state: RouterState)
      ensures this.monitor == monitor && this.state == state
    {
      this.monitor := monitor;
      this.state := state;
    }

    method ProcessRequest(action: string) returns (response: Response)
      requires monitor.state == state
      modifies monitor, state
      ensures Reply(monitor.View(), response) == Dispatch(monitor.world, monitor.settings, action, old(monitor.View()))
    {
      if action == "status" {
        response := Response(true, "", state.GetStatus());
      } else if action == "enable" {
        state.SetAutoRouting(true);
        response := Succeed("Auto-routing enabled");
      } else if action == "disable" {
        state.SetAutoRouting(false);
        response := Succeed("Auto-routing disabled");
      } else if action == "apply" {
        var err := monitor.ForceApply();
        if err.Some? {
          return Fail("Failed to apply routes: " + ErrorText(err.value));
        }
        response := Succeed("Routes applied successfully");
      } else if action == "clear" {
        var wasEnabled := state.IsAutoRoutingEnabled();
        var err := monitor.ForceClear();
        if err.Some? {
          return Fail("Failed to clear routes: " + ErrorText(err.value));
        }
        var message := "Routes cleared successfully";
        if wasEnabled {
          message := message + ClearedSuffix;
        }
        response := Succeed(message);
      } else if action == "restart" {
        var err := monitor.ForceClear();
        if err.Some? {
          return Fail("Restart failed at clear: " + ErrorText(err.value));
        }
        err := monitor.ForceApply();
        if err.Some? {
          return Fail("Restart failed at apply: " + ErrorText(err.value));
        }
        response := Succeed("Routes restarted successfully");
      } else if action == "refresh" {
        monitor.RefreshRoutes();
        response := Succeed("Refresh triggered");
      } else if action == "enable_dns_proxy" || action == "disable_dns_proxy" {
        response := Fail("DNS Proxy not initialized");
      } else {
        response := Fail("Unknown action: " + action);
      }
    }

    method HandleConnection(request: Request) returns (response: Response)
      requires monitor.state == state
      modifies monitor, state
      ensures Reply(monitor.View(), response) == Handle(monitor.world, monitor.settings, request, old(monitor.View()))
    {
      if request.Undecodable? {
        return Fail("Invalid request: " + request.reason);
      }
      response := ProcessRequest(request.action);
    }
  }
}
