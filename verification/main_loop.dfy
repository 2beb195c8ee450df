/**
 * The part of the GLib main loop the power client relies on: idle sources.
 * `idle_add` appends a callback under a fresh positive source id and
 * `source_remove` cancels one. Timing is not modelled; the pending callbacks
 * run in the order they were added, one per `Dispatch`.
 */
module MainLoop {
  import opened Optional

  /** GLib never hands out source id 0; 0 means "no source" to callers. */
  type SourceId = n: nat | n > 0 witness 1

  datatype Loop = Loop(pending: seq<SourceId>, nextId: SourceId) {

    /** Every pending id was handed out before `nextId`, so `nextId` is fresh. */
    ghost predicate Valid() {
      forall i :: 0 <= i < |pending| ==> pending[i] < nextId
    }
  }

  function Empty(): (l: Loop)
    ensures l.Valid() && l.pending == []
  {
    Loop([], 1)
  }

  /** `GObject.idle_add`: schedules one more callback and returns its id. */
  function IdleAdd(l: Loop): (r: (Loop, SourceId))
    ensures r.0.pending == l.pending + [r.1]
    ensures l.Valid() ==> r.0.Valid() && r.1 !in l.pending
  {
    (Loop(l.pending + [l.nextId], l.nextId + 1), l.nextId)
  }

  /** `GObject.source_remove`: cancels every pending callback with that id. */
  function SourceRemove(l: Loop, id: SourceId): (r: Loop)
    ensures forall x :: x in r.pending <==> x in l.pending && x != id
    ensures |r.pending| <= |l.pending|
    ensures id in l.pending ==> |r.pending| < |l.pending|
    ensures r.nextId == l.nextId
    ensures l.Valid() ==> r.Valid()
    decreases |l.pending|
  {
    if l.pending == [] then l
    else
      var rest := SourceRemove(l.(pending := l.pending[1..]), id);
      if l.pending[0] == id then rest
      else rest.(pending := [l.pending[0]] + rest.pending)
  }

  /** One turn of the loop: the oldest pending callback is taken off the queue. */
  function Dispatch(l: Loop): (r: (Loop, Option<SourceId>))
    ensures l.pending == [] <==> r.1.None?
    ensures r.1.Some? ==> l.pending == [r.1.value] + r.0.pending
    ensures r.1.None? ==> r.0 == l
    ensures l.Valid() ==> r.0.Valid()
  {
    if l.pending == [] then (l, None)
    else (l.(pending := l.pending[1..]), Some(l.pending[0]))
  }
}
