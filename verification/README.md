# cinnamon-screensaver power and volume trackers, modelled in Dafny

This project models two pieces of the lock screen's status area.

* **`UPowerClient`** tracks whether the machine has a battery and is on AC power. It does this by following UPower's devices over D-Bus.
  * The model is a functional state machine. A `Client` value holds:
    * the cached `(plugged_in, have_battery)` pair;
    * the `devices_dirty` flag;
    * the ordered list of tracked `(path, device)` entries;
    * the stored `update_state_id`;
    * the main loop's queue of pending idle callbacks;
    * a log of the signals the client emits (`power-state-changed`, `percentage-changed`).
  * Each handler of the client is a pure function from one client to the next. `Step` dispatches the events: setup complete or failed, device added or removed, `notify::on-battery`, a device property notification, and one turn of the main loop.
  * What D-Bus answers is an input. `Enumeration` is either a failed `EnumerateDevices` call, or one result per returned path: a built proxy or a construction error.
* **`VolumeControl`** is the volume slider. It covers:
  * the conversion between raw sink volume and slider percentage;
  * the block/unblock bracket around programmatic updates, which stops the slider and the sound server echoing each other;
  * the show/hide gate on the mixer being ready;
  * middle-click mute and scroll stepping.

  Signal emissions are recorded as `delivered` handler invocations. Running a delivered handler is a separate call.

Modules:
* `Optional`
* `MainLoop`: GLib idle sources, as a queue of positive source ids
* `UPowerTypes`: the device `Type` and `State` enums with their bus codes, devices and enumerations
* `UPowerClient`
* `UPowerProperties`: lemmas relating several calls
* `VolumeControl`

Behaviour the model makes explicit:

* **There is no debounce.** `queue_update_state` never stores the id that `idle_add` returns, so `update_state_id` stays 0.
  * `ReachableInvariant` proves this over every event sequence.
  * The cancelling branch is therefore dead. Every request adds one more pending callback (`QueueNeverCancels`, `RequestsAreNotCoalesced`).
  * A rescan queues one more callback of its own. Each callback that runs still lowers a work measure (`IdleRunsDown`), so the queue drains.
  * A back-to-back burst of callbacks emits `power-state-changed` at most once (`IdleBurstEmitsAtMostOnce`). The reason is that `update_state` is idempotent.
* **Defaults.** Plugged-in defaults to true when no line-power supply is tracked. When there are several, the last one in list order decides. A fresh client caches `plugged_in = false`, so the first update over a list without line power always reports a change.
* **Other behaviour of the code worth knowing:**
  * The volume is normalised with `int(...)`, which truncates. It is not rounded.
  * The raw volume set from the slider is stored as the sink's integer volume, so its fraction is lost. Re-reading a whole percentage `p` can therefore show `p - 1` (`SliderPushRereadsWithinOneStep`).
  * `on_state_changed` does not release the handlers it connected on a previous output sink when a different sink replaces it. It only drops its reference. The model keeps such sinks in `replaced`, with their handlers still connected (`ReplacedOutputKeepsHandlers`).

## Model

| member | source | states |
|---|---|---|
| `MainLoop.IdleAdd` | src/dbusdepot/uPowerClient.py:74 | Appends one callback to the pending queue and returns its id. On a valid queue, no pending callback has that id and the queue stays valid |
| `MainLoop.SourceRemove` | src/dbusdepot/uPowerClient.py:70-72 | Removes every pending callback with that id and keeps all others. The queue shrinks when the id was pending and stays valid |
| `MainLoop.Dispatch` | src/dbusdepot/uPowerClient.py:74-76 | Nothing is dispatched iff nothing is pending. Otherwise the oldest callback is taken off the front and the rest stay in order |
| `UPowerTypes.DeviceTypeOf` | src/dbusdepot/uPowerClient.py:8-17 | Bus codes 0 to 8 name the device types, each code its own type; other codes name none |
| `UPowerTypes.DeviceStateOf` | src/dbusdepot/uPowerClient.py:19-26 | Bus codes 0 to 6 name the charge states, each code its own state; other codes name none |
| `UPowerTypes.CodesRoundTrip` | src/dbusdepot/uPowerClient.py:8-26 | Decoding a type's or state's code gives back that type or state |
| `UPowerClient.Init` | src/dbusdepot/uPowerClient.py:41-53 | A new client satisfies the client invariant, is not plugged in, has no battery, is dirty, and tracks and schedules nothing |
| `UPowerClient.ScanWithoutLinePower` | src/dbusdepot/uPowerClient.py:121-128 | When no line-power supply is in the list, the update loop keeps the plugged-in value it started with |
| `UPowerClient.ScanLastLinePower` | src/dbusdepot/uPowerClient.py:126-128 | The update loop ends with the `online` value of the last line-power supply in list order |
| `UPowerClient.ScanBattery` | src/dbusdepot/uPowerClient.py:124-130 | The update loop reports a battery iff it started with one or some device in the list is a battery |
| `UPowerClient.LastLinePowerExists` | src/dbusdepot/uPowerClient.py:126-128 | If any line-power supply is tracked, a last one exists, so the derived plugged-in value is always determined |
| `UPowerClient.Derive` | src/dbusdepot/uPowerClient.py:121-130 | Derived plugged-in is true with no line power and otherwise the last line-power supply's `online`; derived have-battery holds iff some tracked device is a battery |
| `UPowerClient.UpdateState` | src/dbusdepot/uPowerClient.py:115-137 | Reports a change iff the derived pair differs from the cache; afterwards the cache agrees with the devices; nothing but the cache changes, and nothing at all when no change is reported |
| `UPowerClient.QueueUpdateState` | src/dbusdepot/uPowerClient.py:69-74 | With no stored id, appends exactly one fresh callback behind all pending ones; the stored id is 0 afterwards; nothing else changes |
| `UPowerClient.Keep` | src/dbusdepot/uPowerClient.py:97-109 | The rebuilt list holds exactly the successfully built Battery or LinePower devices, each with its handler connected, and is no longer than the enumeration |
| `UPowerClient.RescanDevices` | src/dbusdepot/uPowerClient.py:85-113 | Every previously tracked entry is released with its handler disconnected; the new list is the kept devices, or empty when enumeration fails; one more update is queued |
| `UPowerClient.IdleUpdate` | src/dbusdepot/uPowerClient.py:76-83 | Rebuilds only when dirty; dirty is false afterwards and the cache agrees with the devices; emits `power-state-changed` once exactly when the derived pair differs from the cache it started with |
| `UPowerClient.RunIdle` | src/dbusdepot/uPowerClient.py:74-83 | A main-loop turn with nothing pending changes nothing. Otherwise the oldest callback leaves the queue, and the client ends clean with its cache matching its devices. A clean list and the rest of the queue are kept; a dirty list is rebuilt from the enumeration and one callback is queued behind the rest. `power-state-changed` is emitted exactly when the derived pair differs from the pair cached before the turn |
| `UPowerClient.OnClientSetupComplete` | src/dbusdepot/uPowerClient.py:55-60 | Subscribes to the proxy and queues exactly one update; nothing else changes |
| `UPowerClient.OnDeviceAddedOrRemoved` | src/dbusdepot/uPowerClient.py:62-64 | Marks the devices dirty and queues exactly one update |
| `UPowerClient.OnBatteryChanged` | src/dbusdepot/uPowerClient.py:66-67 | Queues exactly one update without touching the dirty flag |
| `UPowerClient.OnDevicePropertiesChanged` | src/dbusdepot/uPowerClient.py:139-144 | `online`, `icon-name` and `state` queue one update; `percentage` emits `percentage-changed` with that device; any other name changes nothing |
| `UPowerClient.Batteries` | src/dbusdepot/uPowerClient.py:156-162 | The result holds exactly the battery entries of the list and only those |
| `UPowerClient.GetBatteries` | src/dbusdepot/uPowerClient.py:152-162 | The tracked batteries; empty iff no tracked device is a battery |
| `UPowerClient.AllFull` | src/dbusdepot/uPowerClient.py:175-180 | The early-exit loop answers true iff every battery is FullyCharged or Unknown |
| `UPowerClient.FullAndOnAcOrNoBatteries` | src/dbusdepot/uPowerClient.py:164-182 | True iff no tracked battery, or plugged in with every tracked battery FullyCharged or Unknown |
| `UPowerClient.Step` | src/dbusdepot/uPowerClient.py:55-83 | Every event handler preserves the invariant: loop ids valid, stored id 0, every tracked device a connected Battery or LinePower. Device and battery signals change nothing until setup has completed and subscribed the client; a failed setup changes nothing |
| `UPowerProperties.RunPreservesInvariant` | src/dbusdepot/uPowerClient.py:69-74 | Any sequence of events preserves the client invariant |
| `UPowerProperties.ReachableInvariant` | src/dbusdepot/uPowerClient.py:50-74 | Every client reachable from construction has the invariant and a stored update id of 0 |
| `UPowerProperties.QueueNeverCancels` | src/dbusdepot/uPowerClient.py:69-74 | In every reachable state a queue request keeps all pending callbacks and appends one with a fresh id |
| `UPowerProperties.RequestsAreNotCoalesced` | src/dbusdepot/uPowerClient.py:69-74 | n requests in a row add exactly n pending callbacks and keep the earlier ones in place |
| `UPowerProperties.InitialUpdateReportsChange` | src/dbusdepot/uPowerClient.py:121-135 | The first update of a new client over a list without line power reports a change and sets plugged-in |
| `UPowerProperties.UpdateStateIdempotent` | src/dbusdepot/uPowerClient.py:115-137 | A second update with the devices unchanged reports no change and leaves the client as it is |
| `UPowerProperties.KeepAppend` | src/dbusdepot/uPowerClient.py:97-107 | Rebuilding from two enumeration parts gives the first part's devices followed by the second's, so enumeration order is kept |
| `UPowerProperties.ConstructionFailureSkipsOnlyThatPath` | src/dbusdepot/uPowerClient.py:98-109 | A path whose proxy fails to build contributes nothing, and the paths around it are kept as without it |
| `UPowerProperties.KeepFollowsEnumeration` | src/dbusdepot/uPowerClient.py:97-107 | When every path builds a tracked device, the list has one entry per path, in enumeration order |
| `UPowerProperties.EnumerationFailureDisablesIndicator` | src/dbusdepot/uPowerClient.py:94-113 | After a failed enumeration, no devices and no batteries are tracked, and the power indicator is hidden |
| `UPowerProperties.BatteriesAppend` | src/dbusdepot/uPowerClient.py:156-162 | The batteries of two concatenated lists are those of the first followed by those of the second, so list order is kept |
| `UPowerProperties.SettledIdlesAreQuiet` | src/dbusdepot/uPowerClient.py:76-83 | Once clean and consistent, further idle callbacks emit nothing and leave the devices as they are |
| `UPowerProperties.IdleBurstEmitsAtMostOnce` | src/dbusdepot/uPowerClient.py:76-83 | Idle callbacks run back to back emit `power-state-changed` at most once |
| `UPowerProperties.IdleRunsDown` | src/dbusdepot/uPowerClient.py:76-113 | A clean callback shrinks the queue by one; a dirty one queues a replacement but clears the flag; either way pending work decreases |
| `VolumeControl.Normalize` | src/volumeControl.py:82-87 | The slider percentage is 100 at or above full volume and otherwise the truncated scaled volume: at most the exact value and less than one below it |
| `VolumeControl.Denormalize` | src/volumeControl.py:104-108 | The raw volume lies in [0, max]; it is the exact proportion for positions in [0, 100], and clamps to 0 below and to max above |
| `VolumeControl.PercentRoundTrip` | src/volumeControl.py:87-108 | A whole slider percentage converted to raw volume and back is unchanged |
| `VolumeControl.VolumeRoundTrip` | src/volumeControl.py:87-108 | A raw volume up to max, normalised and converted back, is never higher and is lower by less than one percent of max |
| `VolumeControl.NormalizeTruncates` | src/volumeControl.py:87 | A volume of 99.5 % is shown as 99, not rounded up |
| `VolumeControl.UnblockedSliderEchoes` | src/volumeControl.py:93-102 | Changing the slider while its handler is unblocked would run `on_volume_slider_changed`; this is what the bracket prevents |
| `VolumeControl.UpdateSlider` | src/volumeControl.py:91-102 | The slider takes the given value and mute flag, no `value-changed` handler runs, and the handler's block state is restored |
| `VolumeControl.OnVolumeChanged` | src/volumeControl.py:82-89 | The slider shows the normalised output volume, within 0 to 100, and the output's mute flag, without any echo |
| `VolumeControl.OnVolumeSliderChanged` | src/volumeControl.py:104-124 | The output takes the denormalised slider value with its fraction dropped, within [0, max], and pushes it; it ends unmuted; neither notification handler runs; both block states are restored; the sink stays the same sink and nothing else in the control changes |
| `VolumeControl.OnButtonPress` | src/volumeControl.py:126-130 | Button 2 sets the output's mute to the negation of the slider's flag, notifying only on a real change; other buttons change nothing; the event always propagates; a click changes nothing but the output's mute flag and the delivery log |
| `VolumeControl.OnScroll` | src/volumeControl.py:132-141 | Scrolling up adds one step and scrolling down subtracts one; no vertical delta changes nothing; the event always stops; nothing but the slider's value and the delivery log changes |
| `VolumeControl.OnStateChanged` | src/volumeControl.py:45-80 | Shown iff the mixer is ready and has a default sink. Then that sink becomes the output, its handlers and the slider's are connected, and the slider is synced. A previous output that is a different sink moves to `replaced` unchanged. A new sink gets connected, unblocked handlers; the same sink reported again keeps this control's handler states and push log. The maximum volume, the slider's step and the block counts of its handlers are kept. Otherwise only visibility changes |
| `VolumeControl.SetupMakesSliderMovesReachHandler` | src/volumeControl.py:65-67 | After the control is shown, moving the slider to a new value delivers `value-changed` to `on_volume_slider_changed`, unless the handler was blocked before |
| `VolumeControl.SetupMakesOutputChangesReachSlider` | src/volumeControl.py:59-89 | After the control is shown, a change of the output's volume delivers `notify::volume`, and the handler shows the new normalised volume on the slider |
| `VolumeControl.SliderPushRereadsWithinOneStep` | src/volumeControl.py:82-124 | After the user moves the slider to a whole percentage p, re-reading the stored integer volume shows p or p - 1, and exactly p when p percent of the maximum is a whole volume; the slider ends unmuted. This assumes a maximum of at least 100 raw units |
| `VolumeControl.StoredPercentRereads` | src/volumeControl.py:87-116 | Normalising the integer part of a whole percentage's raw volume gives p or p - 1, and exactly p when nothing was dropped |
| `VolumeControl.ReplacedOutputKeepsHandlers` | src/volumeControl.py:50-64 | When a different default sink takes over, the old output is kept as it was, so both of its notification handlers stay connected |
| `VolumeControl.MiddleClickTwiceRestoresMute` | src/volumeControl.py:82-130 | When the slider shows the output's mute state and the handler is unblocked, each middle click delivers `notify::is-muted`. The handler it runs flips the slider's mute flag. A second click restores both the slider's and the output's flags, and the volume stays the same |
| `VolumeControl.ScrollUpThenDownRestores` | src/volumeControl.py:132-141 | Within the 0 to 100 range, where no clamping would occur, one scroll step up followed by one step down returns the slider to its value |

## Left out

- The D-Bus machinery is not modelled: `BaseClient`, proxy construction on the system bus, and the `on_failure` message. `baseClient.py` is not part of this model. Setup success and failure are events; failure changes no state.
- What `EnumerateDevices` and the device proxies return is an input. A device's new property values arrive with the `notify` event that announces them. A device's type never changes.
- The device's `percentage` value is not modelled. `percentage-changed` carries the device itself.
- GLib scheduling is modelled only as a FIFO queue of pending idle callbacks. Timing and priorities are not modelled. Each idle callback runs once, because `idle_update_cb` returns a false value.
- The source prints diagnostics on construction and enumeration failures. These print calls are not modelled.
- Volume arithmetic uses exact reals. Python's float rounding is not modelled. The sink's volume is an integer, and the raw volume set from the slider is truncated to it.
- `utils.CLAMP` and `utils.have_gtk_version` are not part of this model. The clamp is taken as GLib's `CLAMP`. The GTK version check is the boolean input `oldGtk`.
- The connection tracker (`trackers`) is not part of this model. A connection is a flag plus a block count. Whether a repeated `connect` duplicates a connection is not modelled.
- The sound server is not modelled. It is assumed to apply `set_volume` and `change_is_muted` at once, and to notify only on a real change. A change it reports later, after the handlers are unblocked, is outside the model.
- The `VolumeSlider` widget is not part of this model. The slider's range bounds on `set_value` are not modelled.
- `VolumeControl.OnScroll`: the slider's clamping to 0..100 is not modelled, so a step up from 100 gives a value above 100, which the widget would clamp.
- `VolumeControl.ScrollUpThenDownRestores`: the slider's clamping to 0..100 is not modelled, so the lemma is stated only for values where a step up stays within the range. At the ends of the range, a step up and a step down can end one step away from the start.
- `VolumeControl.SliderPushRereadsWithinOneStep`: stated only for a maximum of at least 100 raw units. A smaller maximum lets the dropped fraction cost more than one percentage point. PulseAudio's normal volume, 65536, is far above this.
- `OnStateChanged`: the replacement of the controller object (src/volumeControl.py:46-49) is not modelled. The controller's state, default sink and maximum volume are inputs.
- The widget construction in `__init__` and `initialize_sound_controller` is not modelled. It is GTK wiring.
- The D-Bus service object and process start-up are not modelled. They only delegate to a manager that is not part of this model.
