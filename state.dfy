/**
 * The daemon's state record of daemon/state.go: the auto-routing switch,
 * whether routes are applied, the interface activity last seen, and the
 * times routes were last applied and last cleared.
 *
 * time.Now() is a counter `clock` that each stamp advances by one: only the
 * order of the readings is modelled, and 0 stands for Go's zero time.
 */
module State {

  /** The value of a RouterState record, with the clock reading of its last stamp. */
  datatype StateValue = StateValue(
    autoRoutingEnabled: bool,
    routesApplied: bool,
    wifiActive: bool,
    phoneActive: bool,
    lastAppliedAt: nat,
    lastClearedAt: nat,
    clock: nat)
  {
    /** No stamp lies in the future, and the routes flag agrees with the later stamp. */
    predicate Consistent() {
      && lastAppliedAt <= clock && lastClearedAt <= clock
      && (routesApplied ==> lastAppliedAt > lastClearedAt)
      && (!routesApplied ==> lastClearedAt >= lastAppliedAt)
    }

    /** SetAutoRouting: only the switch changes. */
    function WithAutoRouting(enabled: bool): (r: StateValue)
      ensures r.autoRoutingEnabled == enabled
      ensures r.(autoRoutingEnabled := autoRoutingEnabled) == this
    {
      this.(autoRoutingEnabled := enabled)
    }

    /**
     * SetRoutesApplied: sets the flag and stamps the matching time with a
     * fresh clock reading, on every call and not only when the flag flips.
     */
    function WithRoutesApplied(applied: bool): (r: StateValue)
      ensures r.routesApplied == applied && r.clock > clock
      ensures applied ==> r.lastAppliedAt == r.clock && r.lastClearedAt == lastClearedAt
      ensures !applied ==> r.lastClearedAt == r.clock && r.lastAppliedAt == lastAppliedAt
      ensures r.autoRoutingEnabled == autoRoutingEnabled
      ensures r.wifiActive == wifiActive && r.phoneActive == phoneActive
    {
      var now := clock + 1;
      if applied then this.(routesApplied := true, lastAppliedAt := now, clock := now)
      else this.(routesApplied := false, lastClearedAt := now, clock := now)
    }

    /** UpdateInterfaceStatus: only the two activity flags change. */
    function WithInterfaceStatus(wifi: bool, phone: bool): (r: StateValue)
      ensures r.wifiActive == wifi && r.phoneActive == phone
      ensures r.(wifiActive := wifiActive, phoneActive := phoneActive) == this
    {
      this.(wifiActive := wifi, phoneActive := phone)
    }

    predicate BothInterfaces() {
      wifiActive && phoneActive
    }
  }

  /** NewRouterState: auto-routing on, every other flag off, no stamp yet. */
  const Initial := StateValue(true, false, false, false, 0, 0, 0)

  lemma InitialIsConsistent()
    ensures Initial.Consistent()
    ensures Initial.autoRoutingEnabled && !Initial.routesApplied && !Initial.BothInterfaces()
  {
  }

  /** Every setter keeps the record consistent. */
  lemma SettersKeepConsistent(v: StateValue, enabled: bool, applied: bool, wifi: bool, phone: bool)
    requires v.Consistent()
    ensures v.WithAutoRouting(enabled).Consistent()
    ensures v.WithRoutesApplied(applied).Consistent()
    ensures v.WithInterfaceStatus(wifi, phone).Consistent()
  {
  }

  /** One call of a RouterState setter. */
  datatype Setter = SetAuto(enabled: bool) | SetApplied(applied: bool) | SetStatus(wifi: bool, phone: bool)

  function Apply(v: StateValue, op: Setter): StateValue {
    match op
    case SetAuto(enabled) => v.WithAutoRouting(enabled)
    case SetApplied(applied) => v.WithRoutesApplied(applied)
    case SetStatus(wifi, phone) => v.WithInterfaceStatus(wifi, phone)
  }

  /** The record after the setter calls `ops`, in order, starting from `v`. */
  function Replay(v: StateValue, ops: seq<Setter>): StateValue
    decreases |ops|
  {
    if ops == [] then v else Replay(Apply(v, ops[0]), ops[1..])
  }

  /** The argument of the last SetRoutesApplied in `ops`, or `none` when there is none. */
  function LastApplied(ops: seq<Setter>, none: bool): bool
    decreases |ops|
  {
    if ops == [] then none
    else if ops[|ops| - 1].SetApplied? then ops[|ops| - 1].applied
    else LastApplied(ops[..|ops| - 1], none)
  }

  lemma {:induction false} ReplaySnoc(v: StateValue, ops: seq<Setter>, op: Setter)
    ensures Replay(v, ops + [op]) == Apply(Replay(v, ops), op)
    decreases |ops|
  {
    if ops != [] {
      assert (ops + [op])[1..] == ops[1..] + [op];
      ReplaySnoc(Apply(v, ops[0]), ops[1..], op);
    }
  }

  /**
   * Whatever setters run from the initial record, the routes-applied flag
   * is the argument of the last SetRoutesApplied (false when there was
   * none), and the record stays consistent, so the flag is also told by
   * which stamp is later.
   */
  lemma {:induction false} FlagIsLastApplied(ops: seq<Setter>)
    ensures Replay(Initial, ops).routesApplied == LastApplied(ops, false)
    ensures Replay(Initial, ops).Consistent()
    ensures Replay(Initial, ops).routesApplied <==>
            Replay(Initial, ops).lastAppliedAt > Replay(Initial, ops).lastClearedAt
    decreases |ops|
  {
    if ops != [] {
      var init, op := ops[..|ops| - 1], ops[|ops| - 1];
      assert ops == init + [op];
      FlagIsLastApplied(init);
      ReplaySnoc(Initial, init, op);
      var v := Replay(Initial, init);
      match op
      case SetAuto(enabled) => SettersKeepConsistent(v, enabled, true, true, true);
      case SetApplied(applied) => SettersKeepConsistent(v, true, applied, true, true);
      case SetStatus(wifi, phone) => SettersKeepConsistent(v, true, true, wifi, phone);
    } else {
      InitialIsConsistent();
    }
  }

  /** A second SetRoutesApplied(true) does not flip the flag but stamps again, later. */
  lemma RepeatedApplyRestamps(v: StateValue)
    ensures v.WithRoutesApplied(true).WithRoutesApplied(true).routesApplied
    ensures v.WithRoutesApplied(true).WithRoutesApplied(true).lastAppliedAt > v.WithRoutesApplied(true).lastAppliedAt
  {
  }

  /** A value of the status summary. */
  datatype StatusField = Flag(on: bool) | Time(at: nat)

  const StatusKeys: set<string> := {
    "auto_routing_enabled", "routes_applied", "wifi_active", "phone_active",
    "last_applied_at", "last_cleared_at"
  }

  /** GetStatus: one entry per field of the record, under its snake_case name. */
  function Status(v: StateValue): (m: map<string, StatusField>)
    ensures m.Keys == StatusKeys
  {
    map[
      "auto_routing_enabled" := Flag(v.autoRoutingEnabled),
      "routes_applied" := Flag(v.routesApplied),
      "wifi_active" := Flag(v.wifiActive),
      "phone_active" := Flag(v.phoneActive),
      "last_applied_at" := Time(v.lastAppliedAt),
      "last_cleared_at" := Time(v.lastClearedAt)
    ]
  }

  /** Two records have the same summary exactly when they agree on all six fields. */
  lemma StatusMirrorsFields(v: StateValue, w: StateValue)
    ensures Status(v) == Status(w) <==> v.(clock := 0) == w.(clock := 0)
  {
    if Status(v) == Status(w) {
      assert Status(v)["auto_routing_enabled"] == Status(w)["auto_routing_enabled"];
      assert Status(v)["routes_applied"] == Status(w)["routes_applied"];
      assert Status(v)["wifi_active"] == Status(w)["wifi_active"];
      assert Status(v)["phone_active"] == Status(w)["phone_active"];
      assert Status(v)["last_applied_at"] == Status(w)["last_applied_at"];
      assert Status(v)["last_cleared_at"] == Status(w)["last_cleared_at"];
    }
  }

  /** The record itself, updated in place by its setters. */
  class RouterState {
    var autoRoutingEnabled: bool
    var routesApplied: bool
    var wifiActive: bool
    var phoneActive: bool
    var lastAppliedAt: nat
    var lastClearedAt: nat
    var clock: nat

    function Value(): StateValue
      reads this
    {
      StateValue(autoRoutingEnabled, routesApplied, wifiActive, phoneActive,
                 lastAppliedAt, lastClearedAt, clock)
    }

    /** NewRouterState. */
    constructor ()
      ensures Value() == Initial
    {
      autoRoutingEnabled := true;
      routesApplied := false;
      wifiActive := false;
      phoneActive := false;
      lastAppliedAt := 0;
      lastClearedAt := 0;
      clock := 0;
    }

    /** IsAutoRoutingEnabled agrees with the summary of GetStatus. */
    predicate IsAutoRoutingEnabled()
      reads this
      ensures IsAutoRoutingEnabled() <==> Status(Value())["auto_routing_enabled"] == Flag(true)
    {
      autoRoutingEnabled
    }

    method SetAutoRouting(enabled: bool)
      modifies this
      ensures Value() == old(Value()).WithAutoRouting(enabled)
    {
      autoRoutingEnabled := enabled;
    }

    /** AreRoutesApplied agrees with the summary of GetStatus. */
    predicate AreRoutesApplied()
      reads this
      ensures AreRoutesApplied() <==> Status(Value())["routes_applied"] == Flag(true)
    {
      routesApplied
    }

    method SetRoutesApplied(applied: bool)
      modifies this
      ensures Value() == old(Value()).WithRoutesApplied(applied)
    {
      routesApplied := applied;
      clock := clock + 1;
      if applied {
        lastAppliedAt := clock;
      } else {
        lastClearedAt := clock;
      }
    }

    method UpdateInterfaceStatus(wifi: bool, phone: bool)
      modifies this
      ensures Value() == old(Value()).WithInterfaceStatus(wifi, phone)
    {
      wifiActive := wifi;
      phoneActive := phone;
    }

    /** The two activity flags last written, as the summary of GetStatus reports them. */
    function GetInterfaceStatus(): (status: (bool, bool))
      reads this
      ensures Status(Value())["wifi_active"] == Flag(status.0)
      ensures Status(Value())["phone_active"] == Flag(status.1)
    {
      (wifiActive, phoneActive)
    }

    /** Both interfaces read active. */
    predicate HasBothInterfaces()
      reads this
      ensures HasBothInterfaces() <==> GetInterfaceStatus() == (true, true)
    {
      Value().BothInterfaces()
    }

    /** GetStatus: six keys, the flags agreeing with the getters and the two stamps as stored. */
    function GetStatus(): (m: map<string, StatusField>)
      reads this
      ensures m.Keys == StatusKeys
      ensures m["auto_routing_enabled"] == Flag(IsAutoRoutingEnabled())
      ensures m["routes_applied"] == Flag(AreRoutesApplied())
      ensures (m["wifi_active"], m["phone_active"]) == (Flag(GetInterfaceStatus().0), Flag(GetInterfaceStatus().1))
      ensures m["last_applied_at"] == Time(lastAppliedAt) && m["last_cleared_at"] == Time(lastClearedAt)
    {
      Status(Value())
    }
  }

  /** What the getters read back after an update is what was written. */
  lemma InterfaceStatusReadsBack(v: StateValue, wifi: bool, phone: bool)
    ensures v.WithInterfaceStatus(wifi, phone).BothInterfaces() <==> wifi && phone
    ensures v.WithInterfaceStatus(wifi, phone).routesApplied == v.routesApplied
    ensures v.WithInterfaceStatus(wifi, phone).autoRoutingEnabled == v.autoRoutingEnabled
  {
  }
}
