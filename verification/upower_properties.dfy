/**
 * Properties of the power-state tracker that relate several calls: the
 * reachable-state invariant (and with it the absence of any debounce),
 * idempotence of `update_state`, order and failure tolerance of a rescan,
 * and how a burst of queued idle callbacks behaves.
 */
module UPowerProperties {
  import opened UPowerTypes
  import opened UPowerClient

  // ---------------------------------------------------------------------------
  // Reachable states

  lemma {:induction false} RunPreservesInvariant(c: Client, evs: seq<Event>)
    requires Invariant(c)
    ensures Invariant(Run(c, evs))
    decreases |evs|
  {
    if evs != [] {
      RunPreservesInvariant(Step(c, evs[0]), evs[1..]);
    }
  }

  /** Every client reached from construction by any events satisfies the invariant. */
  lemma ReachableInvariant(evs: seq<Event>)
    ensures Invariant(Run(Init(), evs))
    ensures Run(Init(), evs).updateStateId == 0
  {
    RunPreservesInvariant(Init(), evs);
  }

  /**
   * No debounce: in every reachable state, queueing an update keeps every
   * callback already pending and adds one more with a fresh id; the
   * cancelling branch never runs because the stored id stays 0.
   */
  lemma QueueNeverCancels(evs: seq<Event>)
    ensures var c := Run(Init(), evs);
      && |QueueUpdateState(c).loop.pending| == |c.loop.pending| + 1
      && QueueUpdateState(c).loop.pending[..|c.loop.pending|] == c.loop.pending
      && QueueUpdateState(c).loop.pending[|c.loop.pending|] !in c.loop.pending
  {
    ReachableInvariant(evs);
  }

  /** `n` requests in a row leave `n` more callbacks pending, the old ones untouched. */
  function QueueTimes(c: Client, n: nat): Client
    decreases n
  {
    if n == 0 then c else QueueTimes(QueueUpdateState(c), n - 1)
  }

  lemma {:induction false} RequestsAreNotCoalesced(c: Client, n: nat)
    requires Invariant(c)
    ensures |QueueTimes(c, n).loop.pending| == |c.loop.pending| + n
    ensures QueueTimes(c, n).loop.pending[..|c.loop.pending|] == c.loop.pending
    decreases n
  {
    if n > 0 {
      var c1 := QueueUpdateState(c);
      assert Invariant(c1);
      RequestsAreNotCoalesced(c1, n - 1);
      assert c1.loop.pending[..|c.loop.pending|] == c.loop.pending;
      assert QueueTimes(c, n).loop.pending[..|c1.loop.pending|][..|c.loop.pending|]
          == QueueTimes(c, n).loop.pending[..|c.loop.pending|];
    }
  }

  // ---------------------------------------------------------------------------
  // update_state

  /** Before anything is known, the client counts as not plugged in, so the first update over a list without line power reports a change. */
  lemma InitialUpdateReportsChange(devs: seq<Entry>)
    requires forall i :: 0 <= i < |devs| ==> !IsLinePower(devs[i])
    ensures UpdateState(Init().(relevantDevices := devs)).changes
    ensures UpdateState(Init().(relevantDevices := devs)).client.pluggedIn
  {
  }

  /** A second `update_state` with the devices unchanged reports nothing and changes nothing. */
  lemma UpdateStateIdempotent(c: Client)
    ensures UpdateState(UpdateState(c).client) == Updated(UpdateState(c).client, false)
  {
  }

  // ---------------------------------------------------------------------------
  // rescan_devices

  lemma {:induction false} KeepAppend(a: seq<Probe>, b: seq<Probe>)
    ensures Keep(a + b) == Keep(a) + Keep(b)
    decreases |a|
  {
    if a != [] {
      assert (a + b)[1..] == a[1..] + b;
      KeepAppend(a[1..], b);
    } else {
      assert a + b == b;
    }
  }

  /** A path whose proxy cannot be built is skipped; the rest of the rescan is unaffected. */
  lemma ConstructionFailureSkipsOnlyThatPath(a: seq<Probe>, path: string, b: seq<Probe>)
    ensures Keep(a + [Probe(path, ConstructFailed)] + b) == Keep(a) + Keep(b)
  {
    var f := [Probe(path, ConstructFailed)];
    assert Keep(f) == [] by {
      assert f[1..] == [];
      assert Keep(f) == KeepOne(f[0]) + Keep(f[1..]);
    }
    KeepAppend(a + f, b);
    KeepAppend(a, f);
    assert Keep(a + f) == Keep(a);
  }

  /** Tracked devices keep the enumeration order: when all are tracked, the list follows the paths one by one. */
  lemma {:induction false} KeepFollowsEnumeration(probes: seq<Probe>)
    requires forall i :: 0 <= i < |probes| ==>
               probes[i].result.Built? && IsTracked(probes[i].result.device.kind)
    ensures |Keep(probes)| == |probes|
    ensures forall i :: 0 <= i < |probes| ==>
              Keep(probes)[i] == Entry(probes[i].path, probes[i].result.device.(handlerConnected := true))
    decreases |probes|
  {
    if probes != [] {
      KeepFollowsEnumeration(probes[1..]);
    }
  }

  /** A failed enumeration leaves no devices, so no batteries and nothing to show. */
  lemma EnumerationFailureDisablesIndicator(c: Client)
    requires c.devicesDirty
    ensures IdleUpdate(c, EnumerateFailed).relevantDevices == []
    ensures GetBatteries(IdleUpdate(c, EnumerateFailed)) == []
    ensures FullAndOnAcOrNoBatteries(IdleUpdate(c, EnumerateFailed))
  {
  }

  lemma {:induction false} BatteriesAppend(a: seq<Entry>, b: seq<Entry>)
    ensures Batteries(a + b) == Batteries(a) + Batteries(b)
    decreases |a|
  {
    if a != [] {
      assert (a + b)[1..] == a[1..] + b;
      BatteriesAppend(a[1..], b);
    } else {
      assert a + b == b;
    }
  }

  // ---------------------------------------------------------------------------
  // Idle callbacks

  function RunIdles(c: Client, es: seq<Enumeration>): Client
    decreases |es|
  {
    if es == [] then c else RunIdles(RunIdle(c, es[0]), es[1..])
  }

  /** Once the cache agrees with a clean list, further idle callbacks only drain the queue. */
  lemma {:induction false} SettledIdlesAreQuiet(c: Client, es: seq<Enumeration>)
    requires Stable(c) && !c.devicesDirty
    ensures RunIdles(c, es).emitted == c.emitted
    ensures RunIdles(c, es).relevantDevices == c.relevantDevices
    ensures Stable(RunIdles(c, es)) && !RunIdles(c, es).devicesDirty
    decreases |es|
  {
    if es != [] {
      var c1 := RunIdle(c, es[0]);
      assert c1.emitted == c.emitted && c1.relevantDevices == c.relevantDevices;
      SettledIdlesAreQuiet(c1, es[1..]);
    }
  }

  /**
   * However many update callbacks are queued, running them back to back with
   * no event in between emits `power-state-changed` at most once.
   */
  lemma {:induction false} IdleBurstEmitsAtMostOnce(c: Client, es: seq<Enumeration>)
    ensures var r := RunIdles(c, es);
      r.emitted == c.emitted || r.emitted == c.emitted + [PowerStateChanged]
    decreases |es|
  {
    if es != [] {
      var c1 := RunIdle(c, es[0]);
      if c.loop.pending == [] {
        IdleBurstEmitsAtMostOnce(c1, es[1..]);
      } else {
        SettledIdlesAreQuiet(c1, es[1..]);
      }
    }
  }

  /** Pending callbacks, plus the one a pending rescan will still add. */
  function Work(c: Client): nat {
    |c.loop.pending| + (if c.devicesDirty then 1 else 0)
  }

  /**
   * Although a rescan queues another update, idle callbacks never keep the
   * loop busy forever: each one that runs lowers `Work`.
   */
  lemma IdleRunsDown(c: Client, e: Enumeration)
    requires Invariant(c) && c.loop.pending != []
    ensures Work(RunIdle(c, e)) < Work(c)
    ensures !c.devicesDirty ==> |RunIdle(c, e).loop.pending| == |c.loop.pending| - 1
    ensures c.devicesDirty ==> |RunIdle(c, e).loop.pending| == |c.loop.pending|
  {
  }
}
