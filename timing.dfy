/**
 * The browser timers a map controller uses to debounce map-change events:
 * `setTimeout` schedules a timer with a new positive id, `clearTimeout`
 * cancels the timer with a given id (doing nothing when it already fired).
 */
module Timing {
  import opened Wrappers

  /** Quiet window of the map-change debounce, in milliseconds. */
  const MapUpdateDebounce: nat := 500

  /** A scheduled timer: its id and the time at which it fires. */
  datatype Timer = Timer(id: nat, deadline: nat)

  /** `clearTimeout(id)`: the pending timers other than `id`, in order. */
  function ClearTimeout(ts: seq<Timer>, id: nat): (r: seq<Timer>)
    ensures forall t :: t in r <==> t in ts && t.id != id
    ensures |r| <= |ts|
    decreases |ts|
  {
    if |ts| == 0 then []
    else
      var last := ts[|ts| - 1];
      ClearTimeout(ts[..|ts| - 1], id) + (if last.id == id then [] else [last])
  }

  /**
   * The debounce invariant: at most one timer is pending, and when one is,
   * the controller's `mapUpdateTimer` holds its id.
   */
  predicate AtMostOnePending(ts: seq<Timer>, handle: Option<nat>) {
    |ts| <= 1 && (|ts| == 1 ==> handle == Some(ts[0].id))
  }

  /**
   * The timers left after a map-change event: the remembered timer is
   * cancelled (if the handle is set) and a new one is scheduled.
   */
  function CancelAndReplace(ts: seq<Timer>, handle: Option<nat>, scheduled: Timer): seq<Timer> {
    (if handle.Some? then ClearTimeout(ts, handle.value) else ts) + [scheduled]
  }

  /**
   * Cancel-and-replace leaves exactly one pending timer, the new one, so a
   * burst of events schedules only the last event's update.
   */
  lemma CancelAndReplaceLeavesOne(ts: seq<Timer>, handle: Option<nat>, scheduled: Timer)
    requires AtMostOnePending(ts, handle)
    ensures CancelAndReplace(ts, handle, scheduled) == [scheduled]
    ensures AtMostOnePending(CancelAndReplace(ts, handle, scheduled), Some(scheduled.id))
  {
  }
}
