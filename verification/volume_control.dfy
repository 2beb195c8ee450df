/**
 * The volume slider of the lock screen's audio panel: how a sink's raw
 * volume becomes a 0-100 slider position and back, and how signal handlers
 * are blocked around programmatic updates so that the slider and the sound
 * server do not echo each other's changes.
 *
 * The mixer controller is a collaborator: its state, default sink and
 * `get_vol_max_norm` value are inputs. A signal emission does not run the
 * handler here; it is recorded in `delivered`, and running that handler is a
 * separate call of the matching function below.
 */
module VolumeControl {
  import opened Optional

  /** A raw sink volume; the sound server's volumes are unsigned. */
  type Volume = v: real | v >= 0.0

  /** `get_vol_max_norm`: the raw volume that counts as 100 %. */
  type MaxNorm = m: real | m > 0.0 witness 1.0

  /** A slider position as `on_volume_changed` computes it. */
  type Percent = p: int | 0 <= p <= 100

  // ---------------------------------------------------------------------------
  // Arithmetic

  /**
   * `on_volume_changed`'s conversion: `int(min(vol / max_vol * 100, 100))`.
   * Python's `int` truncates, which for a non-negative value is the floor.
   */
  function Normalize(vol: Volume, maxVol: MaxNorm): (r: Percent)
    ensures vol >= maxVol ==> r == 100
    ensures vol < maxVol ==> r as real <= vol / maxVol * 100.0 < r as real + 1.0
  {
    var scaled := vol / maxVol * 100.0;
    assert scaled >= 0.0;
    assert vol >= maxVol ==> scaled >= 100.0 by {
      if vol >= maxVol { assert vol / maxVol >= 1.0; }
    }
    var capped := if 100.0 < scaled then 100.0 else scaled;
    capped.Floor
  }

  /** GLib's CLAMP(x, low, high). */
  function Clamp(x: real, low: real, high: real): real {
    if x > high then high else if x < low then low else x
  }

  /** `on_volume_slider_changed`'s conversion back to a raw volume, clamped to [0, max]. */
  function Denormalize(value: real, maxNorm: MaxNorm): (r: Volume)
    ensures r <= maxNorm
    ensures 0.0 <= value <= 100.0 ==> r == value / 100.0 * maxNorm
    ensures value < 0.0 ==> r == 0.0
    ensures value > 100.0 ==> r == maxNorm
  {
    Clamp(value / 100.0 * maxNorm, 0.0, maxNorm)
  }

  /** A slider position survives the trip to a raw volume and back exactly. */
  lemma PercentRoundTrip(p: Percent, maxNorm: MaxNorm)
    ensures Normalize(Denormalize(p as real, maxNorm), maxNorm) == p
  {
    var v := Denormalize(p as real, maxNorm);
    assert v == p as real / 100.0 * maxNorm;
    assert v / maxNorm * 100.0 == p as real;
  }

  /**
   * A raw volume within range comes back no higher than it was, and lower by
   * less than one slider step: normalisation truncates, it does not round.
   */
  lemma VolumeRoundTrip(vol: Volume, maxNorm: MaxNorm)
    requires vol <= maxNorm
    ensures Denormalize(Normalize(vol, maxNorm) as real, maxNorm) <= vol
    ensures vol < Denormalize(Normalize(vol, maxNorm) as real, maxNorm) + maxNorm / 100.0
  {
    var n := Normalize(vol, maxNorm);
    var d := Denormalize(n as real, maxNorm);
    assert d == n as real / 100.0 * maxNorm;
    if vol < maxNorm {
      StepBounds(vol, maxNorm, n);
    } else {
      assert n == 100 && d == maxNorm;
    }
  }

  /** Scaling a percentage bracket `[n, n + 1)` back to raw units. */
  lemma StepBounds(vol: Volume, maxNorm: MaxNorm, n: Percent)
    requires n as real <= vol / maxNorm * 100.0 < n as real + 1.0
    ensures n as real / 100.0 * maxNorm <= vol < n as real / 100.0 * maxNorm + maxNorm / 100.0
  {
    assert vol < (n as real + 1.0) / 100.0 * maxNorm by {
      ScaleStrictlyMonotone(vol / maxNorm, (n as real + 1.0) / 100.0, maxNorm);
    }
    assert n as real / 100.0 * maxNorm <= vol by {
      ScaleMonotone(n as real / 100.0, vol / maxNorm, maxNorm);
    }
    assert (n as real + 1.0) / 100.0 * maxNorm == n as real / 100.0 * maxNorm + maxNorm / 100.0;
  }

  lemma LessThroughSteps(x: real, f: real, lo: real, step: real, y: real)
    requires x < f + 1.0 && 1.0 <= step && f < lo + step && lo + step + step == y
    ensures x < y
  {
  }

  lemma ScaleMonotone(a: real, b: real, m: MaxNorm)
    requires a <= b
    ensures a * m <= b * m
  {
  }

  lemma ScaleStrictlyMonotone(a: real, b: real, m: MaxNorm)
    requires a < b
    ensures a * m < b * m
  {
  }

  /** Truncation, not rounding: 99.5 % shows as 99. */
  lemma NormalizeTruncates()
    ensures Normalize(199.0, 200.0) == 99
  {
  }

  // ---------------------------------------------------------------------------
  // Widgets and handlers

  /** A signal connection: whether it is connected and how often it is blocked. */
  datatype Handler = Handler(connected: bool, blocks: nat) {

    predicate Active() {
      connected && blocks == 0
    }

    function Block(): Handler {
      this.(blocks := blocks + 1)
    }

    /** Unblocking a handler that is not blocked is refused by GObject and changes nothing. */
    function Unblock(): Handler {
      if blocks > 0 then this.(blocks := blocks - 1) else this
    }

    function Connect(): Handler {
      this.(connected := true)
    }
  }

  /**
   * The output sink: which sink object it is, its volume (an unsigned integer
   * on the sound server) and mute state, the volumes pushed to the server, and
   * this control's handlers for `notify::volume` and `notify::is-muted`.
   */
  datatype Sink = Sink(id: nat, volume: nat, muted: bool, pushed: seq<nat>,
                       volumeNotify: Handler, mutedNotify: Handler)

  /** The slider and this control's handlers on it. */
  datatype Slider = Slider(value: real, muted: bool, step: real,
                           valueChanged: Handler, buttonPress: Handler, scroll: Handler)

  /** Handler invocations caused by a programmatic change. */
  datatype Callback =
    | SliderValueChanged   // `value-changed` on the slider: runs `on_volume_slider_changed`
    | OutputNotify         // `notify::volume` or `notify::is-muted`: runs `on_volume_changed`

  /**
   * The control. `replaced` holds the sinks that were the output before a
   * different default sink took their place; their handlers were never
   * disconnected.
   */
  datatype Control = Control(output: Option<Sink>, replaced: seq<Sink>, slider: Slider,
                             maxNorm: MaxNorm, visible: bool, delivered: seq<Callback>)

  datatype MixerState = Closed | Ready | Connecting | Failed

  /** Gdk's event-propagation result: `EVENT_PROPAGATE` or `EVENT_STOP`. */
  datatype Propagation = Propagate | Stop

  /** `set_value` on the slider: `value-changed` fires when the value changes and the handler is not blocked. */
  function SetSliderValue(c: Control, v: real): Control {
    var fire := v != c.slider.value && c.slider.valueChanged.Active();
    c.(slider := c.slider.(value := v),
       delivered := c.delivered + (if fire then [SliderValueChanged] else []))
  }

  /** Setting the output's volume: `notify::volume` fires when it changes and the handler is not blocked. */
  function SetOutputVolume(c: Control, v: nat): Control
    requires c.output.Some?
  {
    var o := c.output.value;
    var fire := v != o.volume && o.volumeNotify.Active();
    c.(output := Some(o.(volume := v)),
       delivered := c.delivered + (if fire then [OutputNotify] else []))
  }

  /** Setting the output's mute state: `notify::is-muted` fires when it changes and the handler is not blocked. */
  function SetOutputMuted(c: Control, m: bool): Control
    requires c.output.Some?
  {
    var o := c.output.value;
    var fire := m != o.muted && o.mutedNotify.Active();
    c.(output := Some(o.(muted := m)),
       delivered := c.delivered + (if fire then [OutputNotify] else []))
  }

  /** Without the block, a programmatic change of the slider would run `on_volume_slider_changed`. */
  lemma UnblockedSliderEchoes(c: Control, v: real)
    requires c.slider.valueChanged.Active() && v != c.slider.value
    ensures SetSliderValue(c, v).delivered == c.delivered + [SliderValueChanged]
  {
  }

  // ---------------------------------------------------------------------------
  // Handlers of the control

  /**
   * `update_slider`: sets the slider's mute flag and value with its
   * `value-changed` handler blocked, then unblocks it.
   */
  function UpdateSlider(c: Control, volume: Percent, muted: bool): (r: Control)
    ensures r.slider.value == volume as real && r.slider.muted == muted
    ensures r.slider.valueChanged == c.slider.valueChanged
    ensures r.delivered == c.delivered
    ensures r == c.(slider := c.slider.(value := volume as real, muted := muted))
  {
    var c1 := c.(slider := c.slider.(valueChanged := c.slider.valueChanged.Block()));
    var c2 := c1.(slider := c1.slider.(muted := muted));
    var c3 := SetSliderValue(c2, volume as real);
    c3.(slider := c3.slider.(valueChanged := c3.slider.valueChanged.Unblock()))
  }

  /** `on_volume_changed`: shows the output's volume and mute state on the slider. */
  function OnVolumeChanged(c: Control): (r: Control)
    requires c.output.Some?
    ensures r.slider.value == Normalize(c.output.value.volume as real, c.maxNorm) as real
    ensures 0.0 <= r.slider.value <= 100.0
    ensures r.slider.muted == c.output.value.muted
    ensures r.delivered == c.delivered
    ensures r == c.(slider := r.slider)
    ensures r.slider == c.slider.(value := r.slider.value, muted := r.slider.muted)
  {
    var o := c.output.value;
    UpdateSlider(c, Normalize(o.volume as real, c.maxNorm), o.muted)
  }

  /**
   * `on_volume_slider_changed`: with both output notifications blocked, sets
   * the output to the slider's position in raw units, pushes it and unmutes.
   * The raw volume is a float handed to the sink's unsigned integer volume,
   * which drops its fractional part.
   */
  function OnVolumeSliderChanged(c: Control): (r: Control)
    requires c.output.Some?
    ensures r.output.Some?
    ensures r.output.value.volume == Denormalize(c.slider.value, c.maxNorm).Floor
    ensures r.output.value.volume as real <= c.maxNorm
    ensures !r.output.value.muted
    ensures r.output.value.pushed == c.output.value.pushed + [r.output.value.volume]
    ensures r.output.value.volumeNotify == c.output.value.volumeNotify
    ensures r.output.value.mutedNotify == c.output.value.mutedNotify
    ensures r.delivered == c.delivered
    ensures r == c.(output := r.output)
    ensures r.output.value == c.output.value.(volume := r.output.value.volume, muted := false,
                                               pushed := r.output.value.pushed)
  {
    var denormalized := Denormalize(c.slider.value, c.maxNorm);
    var stored: nat := denormalized.Floor;
    var o := c.output.value;
    var c1 := c.(output := Some(o.(volumeNotify := o.volumeNotify.Block(),
                                   mutedNotify := o.mutedNotify.Block())));
    var c2 := SetOutputVolume(c1, stored);
    var o2 := c2.output.value;
    var c3 := c2.(output := Some(o2.(pushed := o2.pushed + [o2.volume])));
    var c4 := SetOutputMuted(c3, false);
    var o4 := c4.output.value;
    c4.(output := Some(o4.(volumeNotify := o4.volumeNotify.Unblock(),
                           mutedNotify := o4.mutedNotify.Unblock())))
  }

  /** `on_button_press_event`: a middle click sets the output's mute to the opposite of the slider's. */
  function OnButtonPress(c: Control, button: int): (r: (Control, Propagation))
    requires button == 2 ==> c.output.Some?
    ensures r.1 == Propagate
    ensures button != 2 ==> r.0 == c
    ensures button == 2 ==> r.0.output.Some? && r.0.output.value.muted == !c.slider.muted
    ensures button == 2 ==> r.0.slider == c.slider && r.0.output.value.volume == c.output.value.volume
    ensures button == 2 ==>
              r.0 == c.(output := Some(c.output.value.(muted := !c.slider.muted)), delivered := r.0.delivered)
    ensures button == 2 ==>
              (r.0.delivered == c.delivered + [OutputNotify] <==>
                 c.output.value.muted == c.slider.muted && c.output.value.mutedNotify.Active())
    ensures r.0.delivered == c.delivered || r.0.delivered == c.delivered + [OutputNotify]
  {
    if button == 2 then (SetOutputMuted(c, !c.slider.muted), Propagate)
    else (c, Propagate)
  }

  /** `on_scroll_event`: scrolling up raises the slider by one step, down lowers it, and the event stops here. */
  function OnScroll(c: Control, dy: real): (r: (Control, Propagation))
    ensures r.1 == Stop
    ensures dy < 0.0 ==> r.0.slider.value == c.slider.value + c.slider.step
    ensures dy > 0.0 ==> r.0.slider.value == c.slider.value - c.slider.step
    ensures dy == 0.0 ==> r.0 == c
    ensures r.0 == c.(slider := r.0.slider, delivered := r.0.delivered)
    ensures r.0.slider == c.slider.(value := r.0.slider.value)
    ensures (r.0.delivered == c.delivered + [SliderValueChanged] <==>
               dy != 0.0 && c.slider.step != 0.0 && c.slider.valueChanged.Active())
    ensures r.0.delivered == c.delivered || r.0.delivered == c.delivered + [SliderValueChanged]
  {
    var step := c.slider.step;
    if dy < 0.0 then (SetSliderValue(c, c.slider.value + step), Stop)
    else if dy > 0.0 then (SetSliderValue(c, c.slider.value - step), Stop)
    else (c, Stop)
  }

  /**
   * `on_state_changed`: when the mixer is ready and has a default sink, that
   * sink becomes the output, the handlers are connected, the slider is synced
   * and the control is shown; otherwise the control is hidden. The scroll
   * handler is connected only when `oldGtk` (GTK older than 3.18). A previous
   * output that is a different sink is dropped with its handlers still connected.
   *
   * The handlers on the output belong to this control, not to the sink record
   * the mixer reports: when the same sink is reported again it keeps this
   * control's handler states and push log, and a different sink gets newly
   * connected, unblocked handlers.
   */
  function OnStateChanged(c: Control, state: MixerState, defaultSink: Option<Sink>, oldGtk: bool): (r: Control)
    ensures r.visible <==> state == Ready && defaultSink.Some?
    ensures !r.visible ==> r == c.(visible := false)
    ensures r.visible ==>
              && r.output.Some?
              && r.output.value == defaultSink.value.(volumeNotify := r.output.value.volumeNotify,
                                                      mutedNotify := r.output.value.mutedNotify,
                                                      pushed := r.output.value.pushed)
              && r.output.value.volumeNotify.connected && r.output.value.mutedNotify.connected
              && r.slider.valueChanged.connected && r.slider.buttonPress.connected
              && (oldGtk ==> r.slider.scroll.connected)
              && r.slider.value == Normalize(defaultSink.value.volume as real, c.maxNorm) as real
              && r.slider.muted == defaultSink.value.muted
              && r.delivered == c.delivered
    ensures r.visible && c.output.Some? && c.output.value.id != defaultSink.value.id ==>
              r.replaced == c.replaced + [c.output.value]
    ensures !(r.visible && c.output.Some? && c.output.value.id != defaultSink.value.id) ==>
              r.replaced == c.replaced
    ensures r.visible && c.output.Some? && c.output.value.id == defaultSink.value.id ==>
              && r.output.value.pushed == c.output.value.pushed
              && r.output.value.volumeNotify.blocks == c.output.value.volumeNotify.blocks
              && r.output.value.mutedNotify.blocks == c.output.value.mutedNotify.blocks
    ensures r.visible && !(c.output.Some? && c.output.value.id == defaultSink.value.id) ==>
              r.output.value.volumeNotify.Active() && r.output.value.mutedNotify.Active()
    ensures r.visible ==>
              && r.maxNorm == c.maxNorm
              && r.slider == c.slider.(value := r.slider.value, muted := r.slider.muted,
                                       valueChanged := c.slider.valueChanged.Connect(),
                                       buttonPress := c.slider.buttonPress.Connect(),
                                       scroll := if oldGtk then c.slider.scroll.Connect() else c.slider.scroll)
    ensures r.visible ==> r == c.(output := r.output, replaced := r.replaced, slider := r.slider, visible := true)
  {
    if state == Ready && defaultSink.Some? then
      var sink := defaultSink.value;
      var o :=
        if c.output.Some? && c.output.value.id == sink.id then
          var prev := c.output.value;
          sink.(pushed := prev.pushed,
                volumeNotify := prev.volumeNotify.Connect(), mutedNotify := prev.mutedNotify.Connect())
        else
          sink.(volumeNotify := Handler(true, 0), mutedNotify := Handler(true, 0));
      var s := c.slider.(valueChanged := c.slider.valueChanged.Connect(),
                         buttonPress := c.slider.buttonPress.Connect(),
                         scroll := if oldGtk then c.slider.scroll.Connect() else c.slider.scroll);
      var replaced :=
        if c.output.Some? && c.output.value.id != sink.id then c.replaced + [c.output.value]
        else c.replaced;
      var c1 := OnVolumeChanged(c.(output := Some(o), replaced := replaced, slider := s));
      c1.(visible := true)
    else
      c.(visible := false)
  }

  // ---------------------------------------------------------------------------
  // Handlers run one after another

  /**
   * Switching to a different default sink does not release the old one: it
   * keeps both of this control's notification handlers connected.
   */
  lemma ReplacedOutputKeepsHandlers(c: Control, sink: Sink, oldGtk: bool)
    requires c.output.Some? && c.output.value.id != sink.id
    requires c.output.value.volumeNotify.connected && c.output.value.mutedNotify.connected
    ensures var r := OnStateChanged(c, Ready, Some(sink), oldGtk);
      && |r.replaced| == |c.replaced| + 1
      && r.replaced[|c.replaced|] == c.output.value
      && r.replaced[|c.replaced|].volumeNotify.connected
      && r.replaced[|c.replaced|].mutedNotify.connected
  {
  }

  /**
   * Once the control is shown, a volume change on the output's side reaches
   * the slider: `notify::volume` is delivered and `on_volume_changed` shows
   * the new volume. This holds unless the same sink was reported again while
   * one of its handlers was still blocked.
   */
  lemma SetupMakesOutputChangesReachSlider(c: Control, sink: Sink, oldGtk: bool, v: nat)
    requires c.output.Some? && c.output.value.id == sink.id ==>
               c.output.value.volumeNotify.blocks == 0 && c.output.value.mutedNotify.blocks == 0
    requires v != sink.volume
    ensures var r := OnStateChanged(c, Ready, Some(sink), oldGtk);
      && r.output.Some?
      && SetOutputVolume(r, v).delivered == r.delivered + [OutputNotify]
      && OnVolumeChanged(SetOutputVolume(r, v)).slider.value == Normalize(v as real, c.maxNorm) as real
  {
  }

  /**
   * Once the control is shown, the user's slider moves reach
   * `on_volume_slider_changed`: `value-changed` is delivered for a new value,
   * unless the handler was already blocked before the setup.
   */
  lemma SetupMakesSliderMovesReachHandler(c: Control, sink: Sink, oldGtk: bool, v: real)
    requires c.slider.valueChanged.blocks == 0
    requires v != Normalize(sink.volume as real, c.maxNorm) as real
    ensures var r := OnStateChanged(c, Ready, Some(sink), oldGtk);
      && r.slider.valueChanged.Active()
      && SetSliderValue(r, v).delivered == r.delivered + [SliderValueChanged]
  {
  }

  /**
   * Moving the slider to a whole percentage `p` and then re-reading the
   * output (as a later `notify::volume` would) shows `p` or `p - 1`: the
   * stored volume loses its fraction. It shows exactly `p` when `p` percent of
   * the maximum is a whole volume. The output ends unmuted. This needs the
   * maximum to be at least 100 raw units, as the sound server's normal volume is.
   */
  lemma SliderPushRereadsWithinOneStep(c: Control, p: Percent)
    requires c.output.Some? && c.slider.value == p as real && c.maxNorm >= 100.0
    ensures var v := OnVolumeChanged(OnVolumeSliderChanged(c)).slider.value;
      v == p as real || v == (p - 1) as real
    ensures Denormalize(p as real, c.maxNorm).Floor as real == Denormalize(p as real, c.maxNorm) ==>
              OnVolumeChanged(OnVolumeSliderChanged(c)).slider.value == c.slider.value
    ensures !OnVolumeChanged(OnVolumeSliderChanged(c)).slider.muted
  {
    StoredPercentRereads(p, c.maxNorm);
  }

  lemma StoredPercentRereads(p: Percent, m: MaxNorm)
    requires m >= 100.0
    ensures var q := Normalize(Denormalize(p as real, m).Floor as real, m);
      && (q == p || q == p - 1)
      && (Denormalize(p as real, m).Floor as real == Denormalize(p as real, m) ==> q == p)
  {
    var d := Denormalize(p as real, m);
    var f := d.Floor as real;
    assert d <= m by { ScaleMonotone(p as real / 100.0, 1.0, m); }
    var q := Normalize(f, m);
    if f == d {
      PercentRoundTrip(p, m);
    } else {
      VolumeRoundTrip(f, m);
      BracketsWithinOneStep(p, q, f, m);
    }
  }

  /** If `f` lies in the raw bracket of `q` and within one unit below the raw value of `p`, then `q` is `p` or `p - 1`. */
  lemma BracketsWithinOneStep(p: Percent, q: Percent, f: real, m: MaxNorm)
    requires m >= 100.0
    requires q as real / 100.0 * m <= f < q as real / 100.0 * m + m / 100.0
    requires f <= p as real / 100.0 * m < f + 1.0
    ensures q == p || q == p - 1
  {
    // Products are named so that the solver compares them as plain values.
    var a := p as real / 100.0;
    var c := q as real / 100.0;
    var b := (q as real + 2.0) / 100.0;
    var x := a * m;
    var lo := c * m;
    var y := b * m;
    var step := m / 100.0;
    if q > p {
      ScaleStrictlyMonotone(a, c, m);
      assert false;
    }
    assert lo + step + step == y;
    LessThroughSteps(x, f, lo, step, y);
    if p >= q + 2 {
      ScaleMonotone(b, a, m);
      assert false;
    }
  }

  /**
   * When the slider shows the output's mute state and `notify::is-muted` is
   * not blocked, a middle click delivers that notification, and the handler it
   * runs flips the slider's mute flag; two such clicks restore both flags.
   * When the flags disagree, a click sets the output to what it already is,
   * nothing is delivered and the slider stays as it was (see `OnButtonPress`).
   */
  lemma MiddleClickTwiceRestoresMute(c: Control)
    requires c.output.Some?
    requires c.output.value.muted == c.slider.muted && c.output.value.mutedNotify.Active()
    ensures OnButtonPress(c, 2).0.delivered == c.delivered + [OutputNotify]
    ensures var c1 := OnVolumeChanged(OnButtonPress(c, 2).0);
      && c1.slider.muted == !c.slider.muted
      && OnButtonPress(c1, 2).0.delivered == c1.delivered + [OutputNotify]
      && var c2 := OnVolumeChanged(OnButtonPress(c1, 2).0);
      && c2.slider.muted == c.slider.muted
      && c2.output.value.muted == c.slider.muted
      && c2.output.value.volume == c.output.value.volume
  {
  }

  /**
   * One step up and one step down bring the slider back, within the slider's
   * 0 to 100 range where no clamping would occur.
   */
  lemma ScrollUpThenDownRestores(c: Control, up: real, down: real)
    requires up < 0.0 < down
    requires 0.0 <= c.slider.step && 0.0 <= c.slider.value && c.slider.value + c.slider.step <= 100.0
    ensures OnScroll(OnScroll(c, up).0, down).0.slider.value == c.slider.value
  {
  }
}
