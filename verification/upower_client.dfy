/**
 * The UPower power-state tracker of the lock screen, as a functional state
 * machine. A `Client` holds the cached `(plugged_in, have_battery)` pair, the
 * `devices_dirty` flag, the tracked device list and the main loop's pending
 * idle callbacks; every handler of the client is a function from one client
 * value to the next. Signals the client emits are appended to `emitted`.
 *
 * D-Bus is not modelled: what `EnumerateDevices` and the device proxies
 * answer is an input (`Enumeration`), and a device's changed properties
 * arrive with the `notify` event that announces them.
 */
module UPowerClient {
  import opened Optional
  import opened MainLoop
  import opened UPowerTypes

  /** The client's own GObject signals. */
  datatype Signal = PowerStateChanged | PercentageChanged(device: Device)

  datatype Client = Client(
    haveBattery: bool,
    pluggedIn: bool,
    updateStateId: nat,         // the id kept for cancelling a queued update
    devicesDirty: bool,         // the device list must be rebuilt on the next update
    relevantDevices: seq<Entry>,
    subscribed: bool,           // handlers on the UPower proxy's own signals are connected
    loop: Loop,                 // idle callbacks (all `idle_update_cb`) waiting to run
    emitted: seq<Signal>)

  /** What every reachable client satisfies; see `UPowerProperties.ReachableInvariant`. */
  ghost predicate Invariant(c: Client) {
    && c.loop.Valid()
    && c.updateStateId == 0
    && forall i :: 0 <= i < |c.relevantDevices| ==>
         IsTracked(c.relevantDevices[i].device.kind) && c.relevantDevices[i].device.handlerConnected
  }

  /** The client right after construction. */
  function Init(): (c: Client)
    ensures Invariant(c)
    ensures !c.pluggedIn && !c.haveBattery && c.devicesDirty
    ensures c.relevantDevices == [] && c.loop.pending == [] && c.emitted == []
  {
    Client(false, false, 0, true, [], false, MainLoop.Empty(), [])
  }

  // ---------------------------------------------------------------------------
  // Deriving the power state from the device list

  predicate IsLinePower(e: Entry) { e.device.kind == LinePower }

  predicate IsBattery(e: Entry) { e.device.kind == Battery }

  /** `k` is the position of the last line-power supply of `devs`. */
  ghost predicate LastLinePowerAt(devs: seq<Entry>, k: int) {
    && 0 <= k < |devs|
    && IsLinePower(devs[k])
    && forall j :: k < j < |devs| ==> !IsLinePower(devs[j])
  }

  /**
   * The loop of `update_state`: a forward scan in which every line-power
   * supply overwrites the plugged-in value and any battery sets have-battery.
   */
  function Scan(devs: seq<Entry>, pluggedIn: bool, haveBattery: bool): (bool, bool)
    decreases |devs|
  {
    if devs == [] then (pluggedIn, haveBattery)
    else
      var d := devs[0].device;
      Scan(devs[1..],
           if d.kind == LinePower then d.online else pluggedIn,
           if d.kind == Battery then true else haveBattery)
  }

  lemma {:induction false} ScanWithoutLinePower(devs: seq<Entry>, p: bool, h: bool)
    requires forall i :: 0 <= i < |devs| ==> !IsLinePower(devs[i])
    ensures Scan(devs, p, h).0 == p
    decreases |devs|
  {
    if devs != [] {
      assert !IsLinePower(devs[0]);
      ScanWithoutLinePower(devs[1..], p, if devs[0].device.kind == Battery then true else h);
    }
  }

  lemma {:induction false} ScanLastLinePower(devs: seq<Entry>, p: bool, h: bool, k: int)
    requires LastLinePowerAt(devs, k)
    ensures Scan(devs, p, h).0 == devs[k].device.online
    decreases |devs|
  {
    var d := devs[0].device;
    var p' := if d.kind == LinePower then d.online else p;
    var h' := if d.kind == Battery then true else h;
    if k == 0 {
      ScanWithoutLinePower(devs[1..], p', h');
    } else {
      assert LastLinePowerAt(devs[1..], k - 1);
      ScanLastLinePower(devs[1..], p', h', k - 1);
    }
  }

  lemma {:induction false} ScanBattery(devs: seq<Entry>, p: bool, h: bool)
    ensures Scan(devs, p, h).1 <==> h || exists i :: 0 <= i < |devs| && IsBattery(devs[i])
    decreases |devs|
  {
    if devs != [] {
      var h' := if devs[0].device.kind == Battery then true else h;
      ScanBattery(devs[1..], if devs[0].device.kind == LinePower then devs[0].device.online else p, h');
      if exists i :: 0 <= i < |devs| && IsBattery(devs[i]) {
        var i :| 0 <= i < |devs| && IsBattery(devs[i]);
        if i > 0 { assert IsBattery(devs[1..][i - 1]); }
      }
      if exists i :: 0 <= i < |devs[1..]| && IsBattery(devs[1..][i]) {
        var i :| 0 <= i < |devs[1..]| && IsBattery(devs[1..][i]);
        assert IsBattery(devs[i + 1]);
      }
    }
  }

  /** Whenever some line-power supply is tracked, there is a last one. */
  lemma {:induction false} LastLinePowerExists(devs: seq<Entry>, i: int)
    requires 0 <= i < |devs| && IsLinePower(devs[i])
    ensures exists k :: LastLinePowerAt(devs, k)
    decreases |devs| - i
  {
    if forall j :: i < j < |devs| ==> !IsLinePower(devs[j]) {
      assert LastLinePowerAt(devs, i);
    } else {
      var j :| i < j < |devs| && IsLinePower(devs[j]);
      LastLinePowerExists(devs, j);
    }
  }

  /**
   * The pair `(plugged_in, have_battery)` that `update_state` computes from a
   * device list: plugged in when no line-power supply is tracked, otherwise
   * the `online` value of the last one; a battery iff some device is one.
   */
  function Derive(devs: seq<Entry>): (r: (bool, bool))
    ensures (forall i :: 0 <= i < |devs| ==> !IsLinePower(devs[i])) ==> r.0
    ensures forall k :: LastLinePowerAt(devs, k) ==> r.0 == devs[k].device.online
    ensures r.1 <==> exists i :: 0 <= i < |devs| && IsBattery(devs[i])
  {
    ScanBattery(devs, true, false);
    if forall i :: 0 <= i < |devs| ==> !IsLinePower(devs[i]) then
      ScanWithoutLinePower(devs, true, false);
      Scan(devs, true, false)
    else
      assert forall k :: LastLinePowerAt(devs, k) ==> Scan(devs, true, false).0 == devs[k].device.online by {
        forall k | LastLinePowerAt(devs, k) {
          ScanLastLinePower(devs, true, false, k);
        }
      }
      Scan(devs, true, false)
  }

  /** The cached pair agrees with the tracked devices. */
  predicate Stable(c: Client) {
    Derive(c.relevantDevices) == (c.pluggedIn, c.haveBattery)
  }

  datatype Updated = Updated(client: Client, changes: bool)

  /**
   * `update_state`: recomputes the pair, reports whether it differs from the
   * cache and stores it only when it does.
   */
  function UpdateState(c: Client): (r: Updated)
    ensures r.changes <==> !Stable(c)
    ensures Stable(r.client)
    ensures r.client == c.(pluggedIn := r.client.pluggedIn, haveBattery := r.client.haveBattery)
    ensures !r.changes ==> r.client == c
  {
    var (p, h) := Derive(c.relevantDevices);
    if p != c.pluggedIn || h != c.haveBattery then
      Updated(c.(haveBattery := h, pluggedIn := p), true)
    else
      Updated(c, false)
  }

  // ---------------------------------------------------------------------------
  // Queueing updates

  /** `after` schedules exactly one new callback behind everything of `before`. */
  ghost predicate Appended(before: Loop, after: Loop) {
    && |after.pending| == |before.pending| + 1
    && after.pending[..|before.pending|] == before.pending
    && (before.Valid() ==> after.Valid() && after.pending[|before.pending|] !in before.pending)
  }

  /**
   * `queue_update_state`: cancels the update whose id is stored, if any, and
   * adds a new idle callback. The new id is not stored.
   */
  function QueueUpdateState(c: Client): (r: Client)
    ensures r == c.(loop := r.loop, updateStateId := 0)
    ensures c.updateStateId == 0 ==> Appended(c.loop, r.loop)
    ensures c.loop.Valid() ==> r.loop.Valid()
  {
    var c1 :=
      if c.updateStateId > 0 then c.(loop := SourceRemove(c.loop, c.updateStateId), updateStateId := 0)
      else c;
    var (loop', _) := IdleAdd(c1.loop);
    c1.(loop := loop')
  }

  // ---------------------------------------------------------------------------
  // Rebuilding the device list

  /** What one enumerated path contributes to the tracked list. */
  function KeepOne(p: Probe): seq<Entry> {
    match p.result
    case ConstructFailed => []
    case Built(d) =>
      if IsTracked(d.kind) then [Entry(p.path, d.(handlerConnected := true))] else []
  }

  /** Probe `p` built a tracked device, which becomes entry `e` with its handler connected. */
  ghost predicate Yields(p: Probe, e: Entry) {
    && p.result.Built?
    && IsTracked(p.result.device.kind)
    && e == Entry(p.path, p.result.device.(handlerConnected := true))
  }

  /** The loop over enumerated paths: tracked devices kept, failures skipped. */
  function Keep(probes: seq<Probe>): (r: seq<Entry>)
    ensures |r| <= |probes|
    ensures forall i :: 0 <= i < |r| ==> IsTracked(r[i].device.kind) && r[i].device.handlerConnected
    ensures forall e :: e in r <==> exists i :: 0 <= i < |probes| && Yields(probes[i], e)
    decreases |probes|
  {
    if probes == [] then []
    else
      var r := KeepOne(probes[0]) + Keep(probes[1..]);
      assert forall e :: e in KeepOne(probes[0]) <==> Yields(probes[0], e);
      assert forall i :: 1 <= i < |probes| ==> probes[i] == probes[1..][i - 1];
      r
  }

  /** The device list a rescan ends with. */
  function Tracked(e: Enumeration): seq<Entry> {
    match e
    case EnumerateFailed => []
    case Enumerated(probes) => Keep(probes)
  }

  datatype Rescan = Rescan(client: Client, released: seq<Entry>)

  /**
   * `rescan_devices`: disconnects the handler of every tracked device, builds
   * the list anew from the enumeration and queues another update.
   * `released` are the dropped entries, their handlers disconnected.
   */
  function RescanDevices(c: Client, e: Enumeration): (r: Rescan)
    ensures |r.released| == |c.relevantDevices|
    ensures forall i :: 0 <= i < |r.released| ==>
              && r.released[i].path == c.relevantDevices[i].path
              && r.released[i].device.kind == c.relevantDevices[i].device.kind
              && !r.released[i].device.handlerConnected
    ensures e.EnumerateFailed? ==> r.client.relevantDevices == []
    ensures e.Enumerated? ==> r.client.relevantDevices == Keep(e.probes)
    ensures c.updateStateId == 0 ==> Appended(c.loop, r.client.loop)
    ensures r.client == c.(relevantDevices := r.client.relevantDevices, loop := r.client.loop, updateStateId := 0)
  {
    var released := seq(|c.relevantDevices|, i requires 0 <= i < |c.relevantDevices| =>
      Entry(c.relevantDevices[i].path, c.relevantDevices[i].device.(handlerConnected := false)));
    Rescan(QueueUpdateState(c.(relevantDevices := Tracked(e))), released)
  }

  // ---------------------------------------------------------------------------
  // The idle callback

  /**
   * `idle_update_cb`: rebuilds the list if it is dirty, clears the flag and
   * emits `power-state-changed` exactly when `update_state` reports a change.
   */
  function IdleUpdate(c: Client, e: Enumeration): (r: Client)
    ensures !r.devicesDirty && Stable(r)
    ensures c.devicesDirty ==> r.relevantDevices == Tracked(e)
    ensures c.devicesDirty && c.updateStateId == 0 ==> Appended(c.loop, r.loop)
    ensures !c.devicesDirty ==> r.relevantDevices == c.relevantDevices && r.loop == c.loop
    ensures r.emitted == c.emitted || r.emitted == c.emitted + [PowerStateChanged]
    ensures r.emitted == c.emitted + [PowerStateChanged] <==>
              Derive(r.relevantDevices) != (c.pluggedIn, c.haveBattery)
    ensures r.updateStateId == (if c.devicesDirty then 0 else c.updateStateId)
    ensures r.subscribed == c.subscribed
  {
    var c1 := if c.devicesDirty then RescanDevices(c, e).client else c;
    var u := UpdateState(c1.(devicesDirty := false));
    if u.changes then u.client.(emitted := u.client.emitted + [PowerStateChanged])
    else u.client
  }

  /**
   * One main-loop turn: runs the oldest pending callback, if there is one.
   * The callback leaves the queue; a dirty list is rebuilt from `e`, which
   * queues one more callback; the client ends clean and settled, and emits
   * exactly when the derived pair differs from the cached one it started with.
   */
  function RunIdle(c: Client, e: Enumeration): (r: Client)
    ensures c.loop.pending == [] ==> r == c
    ensures c.loop.pending != [] ==> !r.devicesDirty && Stable(r)
    ensures c.loop.pending != [] && !c.devicesDirty ==>
              r.loop.pending == c.loop.pending[1..] && r.relevantDevices == c.relevantDevices
    ensures c.loop.pending != [] && c.devicesDirty && c.updateStateId == 0 ==>
              Appended(c.loop.(pending := c.loop.pending[1..]), r.loop) && r.relevantDevices == Tracked(e)
    ensures c.loop.pending != [] ==>
              (r.emitted == c.emitted + [PowerStateChanged] <==>
                 Derive(r.relevantDevices) != (c.pluggedIn, c.haveBattery))
    ensures r.emitted == c.emitted || r.emitted == c.emitted + [PowerStateChanged]
    ensures r.subscribed == c.subscribed
  {
    match Dispatch(c.loop)
    case (_, None) => c
    case (loop', Some(_)) => IdleUpdate(c.(loop := loop'), e)
  }

  // ---------------------------------------------------------------------------
  // Signal handlers

  /** `on_client_setup_complete`: subscribes to the proxy and queues an update. */
  function OnClientSetupComplete(c: Client): (r: Client)
    ensures r.subscribed
    ensures c.updateStateId == 0 ==> Appended(c.loop, r.loop)
    ensures r == c.(subscribed := true, loop := r.loop, updateStateId := 0)
  {
    QueueUpdateState(c.(subscribed := true))
  }

  /** `on_device_added_or_removed`: the list is stale; queue an update. */
  function OnDeviceAddedOrRemoved(c: Client, path: string): (r: Client)
    ensures r.devicesDirty
    ensures c.updateStateId == 0 ==> Appended(c.loop, r.loop)
    ensures r == c.(devicesDirty := true, loop := r.loop, updateStateId := 0)
  {
    QueueUpdateState(c.(devicesDirty := true))
  }

  /** `on_battery_changed`: queue an update, leaving the list as it is. */
  function OnBatteryChanged(c: Client): (r: Client)
    ensures r.devicesDirty == c.devicesDirty
    ensures c.updateStateId == 0 ==> Appended(c.loop, r.loop)
    ensures r == c.(loop := r.loop, updateStateId := 0)
  {
    QueueUpdateState(c)
  }

  /** Device properties that can move the power state. */
  const CoarseProperties: set<string> := {"online", "icon-name", "state"}

  /**
   * `on_device_properties_changed`: `online`, `icon-name` and `state` queue an
   * update, `percentage` is passed on at once with the device, anything else
   * is ignored.
   */
  function OnDevicePropertiesChanged(c: Client, dev: Device, name: string): (r: Client)
    ensures name in CoarseProperties && c.updateStateId == 0 ==> Appended(c.loop, r.loop)
    ensures name !in CoarseProperties ==> r.loop == c.loop
    ensures name == "percentage" ==> r.emitted == c.emitted + [PercentageChanged(dev)]
    ensures name != "percentage" ==> r.emitted == c.emitted
    ensures r == c.(loop := r.loop, updateStateId := r.updateStateId, emitted := r.emitted)
    ensures name !in CoarseProperties && name != "percentage" ==> r == c
  {
    var c1 := if name in CoarseProperties then QueueUpdateState(c) else c;
    if name == "percentage" then c1.(emitted := c1.emitted + [PercentageChanged(dev)])
    else c1
  }

  // ---------------------------------------------------------------------------
  // Queries used by the power widget

  /** `get_batteries` on a device list. */
  function Batteries(devs: seq<Entry>): (r: seq<Entry>)
    ensures |r| <= |devs|
    ensures forall i :: 0 <= i < |r| ==> IsBattery(r[i])
    ensures forall e :: e in r <==> e in devs && IsBattery(e)
    decreases |devs|
  {
    if devs == [] then []
    else (if IsBattery(devs[0]) then [devs[0]] else []) + Batteries(devs[1..])
  }

  /** `get_batteries`: the tracked batteries, in list order. */
  function GetBatteries(c: Client): (r: seq<Entry>)
    ensures forall e :: e in r <==> e in c.relevantDevices && IsBattery(e)
    ensures r == [] <==> forall i :: 0 <= i < |c.relevantDevices| ==> !IsBattery(c.relevantDevices[i])
  {
    var r := Batteries(c.relevantDevices);
    assert r != [] ==> r[0] in r;
    assert forall i :: 0 <= i < |c.relevantDevices| ==> c.relevantDevices[i] in c.relevantDevices;
    r
  }

  predicate FullOrUnknown(e: Entry) {
    e.device.state == FullyCharged || e.device.state == StateUnknown
  }

  /** The loop of `full_and_on_ac_or_no_batteries`, stopping at the first battery still in use. */
  function AllFull(bats: seq<Entry>): (r: bool)
    ensures r <==> forall i :: 0 <= i < |bats| ==> FullOrUnknown(bats[i])
    decreases |bats|
  {
    if bats == [] then true
    else if !FullOrUnknown(bats[0]) then false
    else
      assert forall i :: 1 <= i < |bats| ==> bats[i] == bats[1..][i - 1];
      AllFull(bats[1..])
  }

  /**
   * `full_and_on_ac_or_no_batteries`: the power widget is hidden when there is
   * no battery, or when plugged in with every battery full or of unknown state.
   */
  function FullAndOnAcOrNoBatteries(c: Client): (r: bool)
    ensures r <==>
      || (forall i :: 0 <= i < |c.relevantDevices| ==> !IsBattery(c.relevantDevices[i]))
      || (&& c.pluggedIn
          && forall i :: 0 <= i < |c.relevantDevices| && IsBattery(c.relevantDevices[i]) ==>
               FullOrUnknown(c.relevantDevices[i]))
  {
    var batteries := GetBatteries(c);
    if batteries == [] then true
    else
      var full := AllFull(batteries);
      assert full <==> forall i :: 0 <= i < |c.relevantDevices| && IsBattery(c.relevantDevices[i]) ==>
               FullOrUnknown(c.relevantDevices[i]) by {
        if full {
          forall i | 0 <= i < |c.relevantDevices| && IsBattery(c.relevantDevices[i])
            ensures FullOrUnknown(c.relevantDevices[i])
          {
            assert c.relevantDevices[i] in batteries;
          }
        }
      }
      c.pluggedIn && full
  }

  // ---------------------------------------------------------------------------
  // The event-driven machine

  datatype Event =
    | SetupComplete                 // the UPower proxy is ready
    | SetupFailed                   // the UPower proxy could not be built
    | DeviceAdded(path: string)
    | DeviceRemoved(path: string)
    | OnBatteryNotify               // `notify::on-battery` on the proxy
    | DeviceNotify(index: nat, property: string, state: DeviceState, online: bool)
                                    // `property` of the tracked device at `index` changed; its new
                                    // value is `online` or `state` when it is one of those
    | IdleTurn(enumeration: Enumeration)
                                    // the main loop runs one callback; a rescan would see `enumeration`

  /**
   * A device's proxy picks up the new value of the property `name` announces:
   * `online` and `state` are the ones the client reads; other names change
   * nothing it reads.
   */
  function Refresh(c: Client, index: nat, name: string, state: DeviceState, online: bool): (r: Client)
    requires index < |c.relevantDevices|
    ensures |r.relevantDevices| == |c.relevantDevices|
    ensures var before := c.relevantDevices[index].device;
      r.relevantDevices[index].device == before.(
        online := if name == "online" then online else before.online,
        state := if name == "state" then state else before.state)
    ensures r.relevantDevices[index].path == c.relevantDevices[index].path
    ensures forall j :: 0 <= j < |r.relevantDevices| && j != index ==> r.relevantDevices[j] == c.relevantDevices[j]
    ensures name != "online" && name != "state" ==> r == c
    ensures r == c.(relevantDevices := r.relevantDevices)
  {
    var e := c.relevantDevices[index];
    var d :=
      if name == "online" then e.device.(online := online)
      else if name == "state" then e.device.(state := state)
      else e.device;
    if d == e.device then c
    else c.(relevantDevices := c.relevantDevices[index := e.(device := d)])
  }

  /**
   * One event. The handlers for `device-added`, `device-removed` and
   * `notify::on-battery` are connected only by `on_client_setup_complete`, so
   * before that (or after a failed setup) those signals reach nothing.
   */
  function Step(c: Client, ev: Event): (r: Client)
    ensures Invariant(c) ==> Invariant(r)
    ensures !c.subscribed && (ev.DeviceAdded? || ev.DeviceRemoved? || ev.OnBatteryNotify?) ==> r == c
    ensures c.subscribed ==> r.subscribed
    ensures ev.SetupFailed? ==> r == c
  {
    match ev
    case SetupComplete => OnClientSetupComplete(c)
    case SetupFailed => c
    case DeviceAdded(path) => if c.subscribed then OnDeviceAddedOrRemoved(c, path) else c
    case DeviceRemoved(path) => if c.subscribed then OnDeviceAddedOrRemoved(c, path) else c
    case OnBatteryNotify => if c.subscribed then OnBatteryChanged(c) else c
    case DeviceNotify(index, name, state, online) =>
      if index < |c.relevantDevices| then
        var c1 := Refresh(c, index, name, state, online);
        OnDevicePropertiesChanged(c1, c1.relevantDevices[index].device, name)
      else c
    case IdleTurn(e) => RunIdle(c, e)
  }

  function Run(c: Client, evs: seq<Event>): Client
    decreases |evs|
  {
    if evs == [] then c else Run(Step(c, evs[0]), evs[1..])
  }
}
