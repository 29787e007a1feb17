/**
 * The decision loop of daemon/monitor.go: one tick of checkAndApplyRouting,
 * the two refresh variants, ForceApply, ForceClear, the refresh-cron slot and
 * the one-slot refresh channel.
 *
 * Routers are numbered in the order the monitor makes them; what a router's
 * detection, apply and clear come to is fixed in advance by a `World`.
 */
module Daemon {
  import opened Wrappers
  import opened State

  /** The outcomes of the router calls the monitor makes. */
  datatype World = World(
    // DetectInterfaces of router n: None on error, else GetInterfaceStatus (Wi-Fi, phone)
    detect: nat -> Option<(bool, bool)>,
    // whether ApplyRoutes of router n succeeds
    applyOk: nat -> bool,
    // whether the n-th ClearRoutes call succeeds
    clearOk: nat -> bool)

  /** The configured refresh cron expression, and whether the scheduler accepts it. */
  datatype Settings = Settings(cronExpr: string, cronValid: bool)

  /** A route-changing call on a router. */
  datatype Call = ApplyCall(router: nat) | ClearCall(router: nat)

  datatype MonitorError = DetectFailed(router: nat) | ApplyFailed(router: nat) | ClearFailed(router: nat)

  /** Everything a monitor operation can change. */
  datatype MonitorView = MonitorView(
    state: StateValue,
    router: Option<nat>,
    made: nat,
    clears: nat,
    cronRunning: bool,
    refreshPending: bool,
    calls: seq<Call>)

  datatype Outcome = Outcome(view: MonitorView, err: Option<MonitorError>)

  /** The interface status a tick records for router `id`: both off when detection fails. */
  function Probe(w: World, id: nat): (status: (bool, bool))
    ensures w.detect(id).None? ==> status == (false, false)
    ensures w.detect(id).Some? ==> status == w.detect(id).value
  {
    match w.detect(id)
    case Some(st) => st
    case None => (false, false)
  }

  // ---------------------------------------------------------------------
  // The operations, as functions of the view
  // ---------------------------------------------------------------------

  /** startRefreshCron: fills the slot unless the expression is empty, a cron runs, or it is rejected. */
  function StartCron(s: Settings, v: MonitorView): MonitorView {
    if s.cronExpr == "" || v.cronRunning || !s.cronValid then v else v.(cronRunning := true)
  }

  /** stopRefreshCron: empties the slot. */
  function StopCron(v: MonitorView): MonitorView {
    v.(cronRunning := false)
  }

  /** The cron job's non-blocking send on the channel of capacity one. */
  function CronFire(v: MonitorView): MonitorView {
    if v.cronRunning && !v.refreshPending then v.(refreshPending := true) else v
  }

  /** The monitor loop receiving from the channel: it runs performRefresh. */
  function RefreshServed(w: World, s: Settings, v: MonitorView): MonitorView {
    if v.refreshPending then RefreshPerformed(w, s, v.(refreshPending := false)) else v
  }

  /** One ClearRoutes call on the current router. */
  function ClearRouter(w: World, v: MonitorView): Outcome
    requires v.router.Some?
  {
    var rid := v.router.value;
    var after := v.(clears := v.clears + 1, calls := v.calls + [ClearCall(rid)]);
    Outcome(after, if w.clearOk(v.clears) then None else Some(ClearFailed(rid)))
  }

  /** ClearRoutes; on success routes are marked cleared and the cron stops. */
  function ClearMarked(w: World, v: MonitorView): Outcome
    requires v.router.Some?
  {
    var c := ClearRouter(w, v);
    if c.err.Some? then c
    else Outcome(StopCron(c.view.(state := c.view.state.WithRoutesApplied(false))), None)
  }

  /** checkAndApplyRouting: a fresh router is probed, its status recorded, and then the monitor acts. */
  function Tick(w: World, s: Settings, v: MonitorView): Outcome {
    var id := v.made;
    var status := Probe(w, id);
    Act(w, s, v.(made := id + 1, state := v.state.WithInterfaceStatus(status.0, status.1)), id, status.0 && status.1)
  }

  /**
   * The decision of a tick, on the recorded state: clear when auto-routing is
   * off, apply with router `id` when both interfaces are up and routes are not
   * applied, clear when one is down and routes are applied.
   */
  function Act(w: World, s: Settings, v: MonitorView, id: nat, bothActive: bool): Outcome {
    if !v.state.autoRoutingEnabled then
      Outcome(if v.state.routesApplied then ForceCleared(w, v).view else v, None)
    else if bothActive && !v.state.routesApplied then
      var v2 := v.(router := Some(id), calls := v.calls + [ApplyCall(id)]);
      if !w.applyOk(id) then Outcome(v2, Some(ApplyFailed(id)))
      else Outcome(StartCron(s, v2.(state := v2.state.WithRoutesApplied(true))), None)
    else if !bothActive && v.state.routesApplied then
      ClearMarked(w, if v.router.None? then v.(router := Some(id)) else v)
    else
      Outcome(v, None)
  }

  /** ForceApply: a fresh router, detected and applied, whatever the auto-routing switch says. */
  function ForceApplied(w: World, s: Settings, v: MonitorView): Outcome {
    var id := v.made;
    var v1 := v.(made := id + 1);
    if w.detect(id).None? then Outcome(v1, Some(DetectFailed(id)))
    else
      var v2 := v1.(calls := v1.calls + [ApplyCall(id)]);
      if !w.applyOk(id) then Outcome(v2, Some(ApplyFailed(id)))
      else
        var v3 := StartCron(s, v2.(router := Some(id), state := v2.state.WithRoutesApplied(true)));
        var status := w.detect(id).value;
        Outcome(v3.(state := v3.state.WithInterfaceStatus(status.0, status.1)), None)
  }

  /** ForceClear: auto-routing off first, then a clear on the current router or a fresh one. */
  function ForceCleared(w: World, v: MonitorView): Outcome {
    var v1 := v.(state := if v.state.autoRoutingEnabled then v.state.WithAutoRouting(false) else v.state);
    var v2 := if v1.router.None? then v1.(made := v1.made + 1, router := Some(v1.made)) else v1;
    ClearMarked(w, v2)
  }

  /** The clear step shared by both refreshes: its error is only logged. */
  function ClearIgnoringError(w: World, v: MonitorView): MonitorView {
    if v.router.Some? then ClearRouter(w, v).view else v
  }

  /** performRefresh: clear, stop the cron, forget the router, and tick again. */
  function RefreshPerformed(w: World, s: Settings, v: MonitorView): MonitorView {
    if !v.state.routesApplied then v
    else
      var v1 := StopCron(ClearIgnoringError(w, v));
      Tick(w, s, v1.(state := v1.state.WithRoutesApplied(false), router := None)).view
  }

  /** RefreshRoutes: clear, tick again, and start the cron when the tick returns no error. */
  function RoutesRefreshed(w: World, s: Settings, v: MonitorView): MonitorView {
    if !v.state.routesApplied then v
    else
      var v1 := ClearIgnoringError(w, v);
      var t := Tick(w, s, v1.(state := v1.state.WithRoutesApplied(false)));
      if t.err.None? then StartCron(s, t.view) else t.view
  }

  // ---------------------------------------------------------------------
  // What the operations promise
  // ---------------------------------------------------------------------

  /** The state record is consistent, applied routes have a router, and routers come from the counter. */
  predicate Coherent(v: MonitorView) {
    && v.state.Consistent()
    && (v.state.routesApplied ==> v.router.Some?)
    && (v.router.Some? ==> v.router.value < v.made)
  }

  /** A refresh cron runs only while routes are applied. */
  predicate CronOnlyWhenApplied(v: MonitorView) {
    v.cronRunning ==> v.state.routesApplied
  }

  predicate BothUp(w: World, id: nat) {
    Probe(w, id).0 && Probe(w, id).1
  }

  /** Every tick records the probed status first, and nothing after changes it. */
  lemma TickRecordsStatus(w: World, s: Settings, v: MonitorView)
    ensures Tick(w, s, v).view.state.wifiActive == Probe(w, v.made).0
    ensures Tick(w, s, v).view.state.phoneActive == Probe(w, v.made).1
    ensures w.detect(v.made).None? ==> !Tick(w, s, v).view.state.wifiActive && !Tick(w, s, v).view.state.phoneActive
  {
  }

  /**
   * A tick makes at most one route call: an apply exactly when auto-routing is
   * on, both interfaces are up and routes are not applied, and a clear exactly
   * when routes are applied and auto-routing is off or an interface is down.
   */
  lemma TickAtMostOneCall(w: World, s: Settings, v: MonitorView)
    ensures var t := Tick(w, s, v).view;
      |v.calls| <= |t.calls| <= |v.calls| + 1 && t.calls[..|v.calls|] == v.calls
    ensures var t := Tick(w, s, v).view;
      (|t.calls| > |v.calls| && t.calls[|v.calls|].ApplyCall?)
      <==> v.state.autoRoutingEnabled && BothUp(w, v.made) && !v.state.routesApplied
    ensures var t := Tick(w, s, v).view;
      (|t.calls| > |v.calls| && t.calls[|v.calls|].ClearCall?)
      <==> v.state.routesApplied && (!v.state.autoRoutingEnabled || !BothUp(w, v.made))
  {
    var status := Probe(w, v.made);
    var v1 := v.(made := v.made + 1, state := v.state.WithInterfaceStatus(status.0, status.1));
    assert Tick(w, s, v) == Act(w, s, v1, v.made, BothUp(w, v.made));
    ActAtMostOneCall(w, s, v1, v.made, BothUp(w, v.made));
  }

  lemma ActAtMostOneCall(w: World, s: Settings, v: MonitorView, id: nat, bothActive: bool)
    ensures var t := Act(w, s, v, id, bothActive).view;
      |v.calls| <= |t.calls| <= |v.calls| + 1 && t.calls[..|v.calls|] == v.calls
    ensures var t := Act(w, s, v, id, bothActive).view;
      (|t.calls| > |v.calls| && t.calls[|v.calls|].ApplyCall?)
      <==> v.state.autoRoutingEnabled && bothActive && !v.state.routesApplied
    ensures var t := Act(w, s, v, id, bothActive).view;
      (|t.calls| > |v.calls| && t.calls[|v.calls|].ClearCall?)
      <==> v.state.routesApplied && (!v.state.autoRoutingEnabled || !bothActive)
  {
    if !v.state.autoRoutingEnabled && v.state.routesApplied {
      var c := ForceCleared(w, v).view;
      assert c.calls == v.calls + [c.calls[|v.calls|]];
    }
  }

  /** With auto-routing off a tick never applies, clears iff routes are applied, and returns no error. */
  lemma TickWhenDisabled(w: World, s: Settings, v: MonitorView)
    requires !v.state.autoRoutingEnabled
    ensures Tick(w, s, v).err.None?
    ensures !Tick(w, s, v).view.state.autoRoutingEnabled
    ensures !v.state.routesApplied ==> Tick(w, s, v).view.calls == v.calls
    ensures v.state.routesApplied ==>
      |Tick(w, s, v).view.calls| == |v.calls| + 1 && Tick(w, s, v).view.calls[|v.calls|].ClearCall?
  {
  }

  /**
   * The apply branch keeps the fresh router even when its apply fails;
   * routes count as applied exactly when the apply succeeded.
   */
  lemma TickApplyOutcome(w: World, s: Settings, v: MonitorView)
    requires v.state.autoRoutingEnabled && BothUp(w, v.made) && !v.state.routesApplied
    ensures Tick(w, s, v).view.router == Some(v.made)
    ensures Tick(w, s, v).view.state.routesApplied <==> w.applyOk(v.made)
    ensures Tick(w, s, v).err == if w.applyOk(v.made) then None else Some(ApplyFailed(v.made))
  {
  }

  /** The clear branch reuses the monitor's router, and marks routes cleared only on success. */
  lemma TickClearOutcome(w: World, s: Settings, v: MonitorView)
    requires v.state.autoRoutingEnabled && !BothUp(w, v.made) && v.state.routesApplied
    ensures Tick(w, s, v).view.router == if v.router.Some? then v.router else Some(v.made)
    ensures w.clearOk(v.clears) ==>
      Tick(w, s, v).err.None? && !Tick(w, s, v).view.state.routesApplied && !Tick(w, s, v).view.cronRunning
    ensures !w.clearOk(v.clears) ==> Tick(w, s, v).err.Some? && Tick(w, s, v).view.state.routesApplied
  {
  }

  /** A failing ForceApply changes nothing but the router counter and the call log; a succeeding one applies. */
  lemma ForceApplyOutcome(w: World, s: Settings, v: MonitorView)
    ensures var f := ForceApplied(w, s, v);
      f.err.Some? ==> f.view.state == v.state && f.view.router == v.router && f.view.cronRunning == v.cronRunning
    ensures var f := ForceApplied(w, s, v);
      f.err.None? <==> w.detect(v.made).Some? && w.applyOk(v.made)
    ensures var f := ForceApplied(w, s, v);
      f.err.None? ==> && f.view.router == Some(v.made) && f.view.state.routesApplied
                      && (f.view.state.wifiActive, f.view.state.phoneActive) == w.detect(v.made).value
  {
  }

  /** ForceApply does not look at the auto-routing switch. */
  lemma ForceApplyIgnoresAutoRouting(w: World, s: Settings, v: MonitorView, enabled: bool)
    ensures ForceApplied(w, s, v).err == ForceApplied(w, s, v.(state := v.state.WithAutoRouting(enabled))).err
    ensures ForceApplied(w, s, v).view.router == ForceApplied(w, s, v.(state := v.state.WithAutoRouting(enabled))).view.router
  {
  }

  /**
   * ForceClear leaves auto-routing off even when the clear fails, makes a
   * router only when there is none, and marks routes cleared only on success.
   */
  lemma ForceClearOutcome(w: World, v: MonitorView)
    ensures var f := ForceCleared(w, v);
      && !f.view.state.autoRoutingEnabled
      && f.view.router == (if v.router.Some? then v.router else Some(v.made))
      && f.view.made == (if v.router.Some? then v.made else v.made + 1)
    ensures var f := ForceCleared(w, v);
      f.err.None? <==> w.clearOk(v.clears)
    ensures var f := ForceCleared(w, v);
      f.err.None? ==> !f.view.state.routesApplied && !f.view.cronRunning
    ensures var f := ForceCleared(w, v);
      f.err.Some? ==> f.view.state.routesApplied == v.state.routesApplied && f.view.cronRunning == v.cronRunning
  {
  }

  /** Both refreshes do nothing unless routes are applied. */
  lemma RefreshNeedsAppliedRoutes(w: World, s: Settings, v: MonitorView)
    requires !v.state.routesApplied
    ensures RefreshPerformed(w, s, v) == v && RoutesRefreshed(w, s, v) == v
  {
  }

  /**
   * performRefresh clears with the current router first, and never keeps it:
   * afterwards the monitor has no router or a fresh one.
   */
  lemma RefreshPerformedForgetsRouter(w: World, s: Settings, v: MonitorView)
    requires Coherent(v) && v.state.routesApplied
    ensures var r := RefreshPerformed(w, s, v);
      |r.calls| > |v.calls| && r.calls[|v.calls|] == ClearCall(v.router.value)
    ensures RefreshPerformed(w, s, v).router.None? || RefreshPerformed(w, s, v).router.value > v.router.value
  {
    var v1 := StopCron(ClearRouter(w, v).view);
    var v2 := v1.(state := v1.state.WithRoutesApplied(false), router := None);
    TickAtMostOneCall(w, s, v2);
  }

  /** The slot logic: starting twice is starting once, stopping twice is stopping once. */
  lemma CronSlotIdempotent(s: Settings, v: MonitorView)
    ensures StartCron(s, StartCron(s, v)) == StartCron(s, v)
    ensures StopCron(StopCron(v)) == StopCron(v)
    ensures s.cronExpr == "" ==> StartCron(s, v) == v
    ensures StartCron(s, v).cronRunning <==> v.cronRunning || (s.cronExpr != "" && s.cronValid)
  {
  }

  /** The channel holds one trigger: surplus sends are dropped, and one receive serves them all. */
  lemma SurplusTriggersDropped(w: World, s: Settings, v: MonitorView)
    ensures CronFire(CronFire(v)) == CronFire(v)
    ensures RefreshServed(w, s, CronFire(CronFire(v))) == RefreshServed(w, s, CronFire(v))
    ensures !RefreshServed(w, s, CronFire(v)).refreshPending || RefreshServed(w, s, CronFire(v)) == CronFire(v)
  {
  }

  lemma TickKeepsCoherent(w: World, s: Settings, v: MonitorView)
    requires Coherent(v)
    ensures Coherent(Tick(w, s, v).view)
  {
    var status := Probe(w, v.made);
    var v1 := v.(made := v.made + 1, state := v.state.WithInterfaceStatus(status.0, status.1));
    SettersKeepConsistent(v.state, false, false, status.0, status.1);
    assert Coherent(v1);
    assert Tick(w, s, v) == Act(w, s, v1, v.made, status.0 && status.1);
    ActKeepsCoherent(w, s, v1, v.made, status.0 && status.1);
  }

  lemma ActKeepsCoherent(w: World, s: Settings, v: MonitorView, id: nat, bothActive: bool)
    requires Coherent(v) && id < v.made
    ensures Coherent(Act(w, s, v, id, bothActive).view)
  {
    SettersKeepConsistent(v.state, false, true, false, false);
    if !v.state.autoRoutingEnabled && v.state.routesApplied {
      ForceClearKeepsCoherent(w, v);
    } else if v.state.autoRoutingEnabled && !bothActive && v.state.routesApplied {
      SettersKeepConsistent(v.state, false, false, false, false);
    }
  }

  lemma ForceClearKeepsCoherent(w: World, v: MonitorView)
    requires Coherent(v)
    ensures Coherent(ForceCleared(w, v).view)
  {
    var st := v.state.WithAutoRouting(false);
    SettersKeepConsistent(v.state, false, false, false, false);
    SettersKeepConsistent(st, false, false, false, false);
  }

  lemma ForceApplyKeepsCoherent(w: World, s: Settings, v: MonitorView)
    requires Coherent(v)
    ensures Coherent(ForceApplied(w, s, v).view)
  {
    SettersKeepConsistent(v.state, false, true, false, false);
    var st := v.state.WithRoutesApplied(true);
    if w.detect(v.made).Some? {
      SettersKeepConsistent(st, false, false, w.detect(v.made).value.0, w.detect(v.made).value.1);
    }
  }

  lemma RefreshesKeepCoherent(w: World, s: Settings, v: MonitorView)
    requires Coherent(v)
    ensures Coherent(RefreshPerformed(w, s, v))
    ensures Coherent(RoutesRefreshed(w, s, v))
  {
    if v.state.routesApplied {
      var v1 := ClearIgnoringError(w, v);
      SettersKeepConsistent(v1.state, false, false, false, false);
      var p := StopCron(v1);
      TickKeepsCoherent(w, s, p.(state := p.state.WithRoutesApplied(false), router := None));
      var t := Tick(w, s, v1.(state := v1.state.WithRoutesApplied(false)));
      TickKeepsCoherent(w, s, v1.(state := v1.state.WithRoutesApplied(false)));
    }
  }

  /** The tick, ForceApply, ForceClear and performRefresh keep the cron tied to applied routes. */
  lemma CronFollowsRoutes(w: World, s: Settings, v: MonitorView)
    requires CronOnlyWhenApplied(v)
    ensures CronOnlyWhenApplied(Tick(w, s, v).view)
    ensures CronOnlyWhenApplied(ForceApplied(w, s, v).view)
    ensures CronOnlyWhenApplied(ForceCleared(w, v).view)
    ensures CronOnlyWhenApplied(RefreshPerformed(w, s, v))
  {
    if v.state.routesApplied {
      var v1 := StopCron(ClearIgnoringError(w, v));
      var v2 := v1.(state := v1.state.WithRoutesApplied(false), router := None);
      assert CronOnlyWhenApplied(v2);
      TickCronFollowsRoutes(w, s, v2);
    }
    TickCronFollowsRoutes(w, s, v);
  }

  lemma TickCronFollowsRoutes(w: World, s: Settings, v: MonitorView)
    requires CronOnlyWhenApplied(v)
    ensures CronOnlyWhenApplied(Tick(w, s, v).view)
  {
  }

  /**
   * RefreshRoutes never stops the refresh cron: it marks routes unapplied
   * before its re-check, so the re-check's clear branch cannot fire. When the
   * re-check finds an interface down, nothing is re-applied, the tick
   * returns no error, and the cron runs (or is started) with no routes applied.
   */
  lemma RoutesRefreshedKeepsCron(w: World, s: Settings, v: MonitorView)
    ensures v.cronRunning ==> RoutesRefreshed(w, s, v).cronRunning
    ensures v.state.routesApplied && v.state.autoRoutingEnabled && !BothUp(w, v.made)
            && s.cronExpr != "" && s.cronValid ==>
      RoutesRefreshed(w, s, v).cronRunning && !RoutesRefreshed(w, s, v).state.routesApplied
  {
  }

  // ---------------------------------------------------------------------
  // The monitor object
  // ---------------------------------------------------------------------

  class Monitor {
    const state: RouterState
    const world: World
    const settings: Settings
    var router: Option<nat>
    var routersMade: nat
    var clearsMade: nat
    var cronRunning: bool
    var refreshPending: bool
    var calls: seq<Call>

    function View(): MonitorView
      reads this, state
    {
      MonitorView(state.Value(), router, routersMade, clearsMade, cronRunning, refreshPending, calls)
    }

    /** NewMonitor: no router yet, no cron, an empty channel. */
    constructor (state: RouterState, world: World, settings: Settings)
      ensures this.state == state && this.world == world && this.settings == settings
      ensures View() == MonitorView(state.Value(), None, 0, 0, false, false, [])
    {
      this.state := state;
      this.world := world;
      this.settings := settings;
      router := None;
      routersMade := 0;
      clearsMade := 0;
      cronRunning := false;
      refreshPending := false;
      calls := [];
    }

    /** core.NewRouter, which never fails. */
    method NewRouter() returns (id: nat)
      modifies this`routersMade
      ensures id == old(routersMade) && routersMade == id + 1
    {
      id := routersMade;
      routersMade := routersMade + 1;
    }

    /** Router.ApplyRoutes on router `id`. */
    method ApplyRoutes(id: nat) returns (err: Option<MonitorError>)
      modifies this`calls
      ensures err == if world.applyOk(id) then None else Some(ApplyFailed(id))
      ensures calls == old(calls) + [ApplyCall(id)]
    {
      calls := calls + [ApplyCall(id)];
      err := if world.applyOk(id) then None else Some(ApplyFailed(id));
    }

    /** Router.ClearRoutes on the current router. */
    method ClearRoutes() returns (err: Option<MonitorError>)
      requires router.Some?
      modifies this`clearsMade, this`calls
      ensures Outcome(View(), err) == ClearRouter(world, old(View()))
    {
      err := if world.clearOk(clearsMade) then None else Some(ClearFailed(router.value));
      clearsMade := clearsMade + 1;
      calls := calls + [ClearCall(router.value)];
    }

    method StartRefreshCron()
      modifies this`cronRunning
      ensures View() == StartCron(settings, old(View()))
    {
      if settings.cronExpr == "" {
        return;
      }
      if cronRunning {
        return;
      }
      if !settings.cronValid {
        return;
      }
      cronRunning := true;
    }

    method StopRefreshCron()
      modifies this`cronRunning
      ensures View() == StopCron(old(View()))
    {
      if cronRunning {
        cronRunning := false;
      }
    }

    /** The cron job: a send that is dropped when the channel is full. */
    method SendRefresh()
      modifies this`refreshPending
      ensures View() == CronFire(old(View()))
    {
      if cronRunning {
        if !refreshPending {
          refreshPending := true;
        }
      }
    }

    /** The `<-m.refreshCh` case of the monitor loop. */
    method ServeRefresh()
      modifies this, state
      ensures View() == RefreshServed(world, settings, old(View()))
    {
      if refreshPending {
        refreshPending := false;
        PerformRefresh();
      }
    }

    /** The clear branch shared by the tick and ForceClear. */
    method ClearAndMark() returns (err: Option<MonitorError>)
      requires router.Some?
      modifies this, state
      ensures Outcome(View(), err) == ClearMarked(world, old(View()))
    {
      err := ClearRoutes();
      if err.Some? {
        return;
      }
      state.SetRoutesApplied(false);
      StopRefreshCron();
    }

    method CheckAndApplyRouting() returns (err: Option<MonitorError>)
      modifies this, state
      ensures Outcome(View(), err) == Tick(world, settings, old(View()))
    {
      var id := NewRouter();
      var detected := world.detect(id);
      var wifiActive, phoneActive := false, false;
      if detected.Some? {
        wifiActive, phoneActive := detected.value.0, detected.value.1;
      }
      state.UpdateInterfaceStatus(wifiActive, phoneActive);
      err := ActOnStatus(id, wifiActive && phoneActive);
    }

    /** The part of checkAndApplyRouting after the status is recorded. */
    method ActOnStatus(id: nat, bothActive: bool) returns (err: Option<MonitorError>)
      modifies this, state
      ensures Outcome(View(), err) == Act(world, settings, old(View()), id, bothActive)
    {
      if !state.IsAutoRoutingEnabled() {
        if state.AreRoutesApplied() {
          var ignored := ForceClear();
        }
        return None;
      }

      var routesApplied := state.AreRoutesApplied();

      if bothActive && !routesApplied {
        router := Some(id);
        err := ApplyRoutes(id);
        if err.Some? {
          return err;
        }
        state.SetRoutesApplied(true);
        StartRefreshCron();
      }

      if !bothActive && routesApplied {
        if router.None? {
          router := Some(id);
        }
        err := ClearAndMark();
        return err;
      }
      return None;
    }

    method ForceApply() returns (err: Option<MonitorError>)
      modifies this, state
      ensures Outcome(View(), err) == ForceApplied(world, settings, old(View()))
    {
      var id := NewRouter();
      var detected := world.detect(id);
      if detected.None? {
        return Some(DetectFailed(id));
      }
      err := ApplyRoutes(id);
      if err.Some? {
        return err;
      }
      router := Some(id);
      state.SetRoutesApplied(true);
      StartRefreshCron();
      state.UpdateInterfaceStatus(detected.value.0, detected.value.1);
      return None;
    }

    method ForceClear() returns (err: Option<MonitorError>)
      modifies this, state
      ensures Outcome(View(), err) == ForceCleared(world, old(View()))
    {
      if state.IsAutoRoutingEnabled() {
        state.SetAutoRouting(false);
      }
      if router.None? {
        var id := NewRouter();
        router := Some(id);
      }
      err := ClearAndMark();
    }

    method PerformRefresh()
      modifies this, state
      ensures View() == RefreshPerformed(world, settings, old(View()))
    {
      if !state.AreRoutesApplied() {
        return;
      }
      if router.Some? {
        var ignored := ClearRoutes();
      }
      StopRefreshCron();
      state.SetRoutesApplied(false);
      router := None;
      var ignored := CheckAndApplyRouting();
    }

    method RefreshRoutes()
      modifies this, state
      ensures View() == RoutesRefreshed(world, settings, old(View()))
    {
      if !state.AreRoutesApplied() {
        return;
      }
      if router.Some? {
        var ignored := ClearRoutes();
      }
      state.SetRoutesApplied(false);
      var err := CheckAndApplyRouting();
      if err.None? {
        StartRefreshCron();
      }
    }
  }
}
