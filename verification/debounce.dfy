/**
 * The 50 ms debounce of `onRefresh`: one timer slot, cancelled and re-armed
 * by every call; when it expires it clears itself and runs `doRefresh`. Time is
 * an abstract millisecond counter advanced by `Wait` events.
 */
module Debounce {
  import opened Common

  const RefreshDelay: nat := 50

  /**
   * `now` is the abstract clock, `pending` the deadline of the armed timer
   * (`onRefresher`), `refreshes` how many times `doRefresh` has been started.
   */
  datatype Timer = Timer(now: nat, pending: Option<nat>, refreshes: nat)

  /** `onRefresh`: cancel any armed timer and arm a new one 50 ms ahead. */
  function OnRefresh(t: Timer): (r: Timer)
    ensures r.pending == Some(t.now + RefreshDelay)
    ensures r.now == t.now && r.refreshes == t.refreshes
  {
    t.(pending := Some(t.now + RefreshDelay))
  }

  /** Let `dt` milliseconds pass; an armed timer whose deadline is reached fires once. */
  function Wait(t: Timer, dt: nat): (r: Timer)
    ensures r.now == t.now + dt
    ensures r.refreshes == t.refreshes + (if t.pending.Some? && t.pending.value <= t.now + dt then 1 else 0)
    ensures r.pending.Some? <==> t.pending.Some? && t.now + dt < t.pending.value
  {
    if t.pending.Some? && t.pending.value <= t.now + dt then
      Timer(t.now + dt, None, t.refreshes + 1)
    else
      t.(now := t.now + dt)
  }

  datatype Event =
    | Signal            // a call of `onRefresh` (profile, params or language changed, a followed file changed)
    | Pass(dt: nat)     // time passes
    | Destroy           // `destroyed()`: it never clears the timer

  function Step(t: Timer, e: Event): Timer
  {
    match e
    case Signal => OnRefresh(t)
    case Pass(dt) => Wait(t, dt)
    case Destroy => t
  }

  function Run(t: Timer, events: seq<Event>): Timer
    decreases |events|
  {
    if |events| == 0 then t else Run(Step(t, events[0]), events[1..])
  }

  function Signals(events: seq<Event>): nat
    decreases |events|
  {
    if |events| == 0 then 0 else (if events[0].Signal? then 1 else 0) + Signals(events[1..])
  }

  function Armed(t: Timer): nat
  {
    if t.pending.Some? then 1 else 0
  }

  /** A burst: a signal, then for each gap a pause of that length and another signal. */
  function Burst(gaps: seq<nat>): seq<Event>
  {
    if |gaps| == 0 then [Signal] else [Signal, Pass(gaps[0])] + Burst(gaps[1..])
  }

  function Sum(gaps: seq<nat>): nat
  {
    if |gaps| == 0 then 0 else gaps[0] + Sum(gaps[1..])
  }

  // ---------------------------------------------------------------------------

  lemma {:induction false} RunAppend(t: Timer, a: seq<Event>, b: seq<Event>)
    ensures Run(t, a + b) == Run(Run(t, a), b)
    decreases |a|
  {
    if |a| == 0 {
      assert a + b == b;
    } else {
      RunAppend(Step(t, a[0]), a[1..], b);
      assert (a + b)[1..] == a[1..] + b;
    }
  }

  /** Signals closer together than the delay never fire; the last one leaves one timer armed. */
  lemma {:induction false} BurstArmsOnce(t: Timer, gaps: seq<nat>)
    requires forall i :: 0 <= i < |gaps| ==> gaps[i] < RefreshDelay
    ensures Run(t, Burst(gaps)) == Timer(t.now + Sum(gaps), Some(t.now + Sum(gaps) + RefreshDelay), t.refreshes)
    decreases |gaps|
  {
    if |gaps| > 0 {
      var t1 := Wait(OnRefresh(t), gaps[0]);
      assert t1 == Timer(t.now + gaps[0], Some(t.now + RefreshDelay), t.refreshes);
      assert Burst(gaps)[1..][1..] == Burst(gaps[1..]);
      BurstArmsOnce(t1, gaps[1..]);
    }
  }

  /** N signals within the window, then a full delay of quiet: exactly one `doRefresh`. */
  lemma BurstRefreshesOnce(t: Timer, gaps: seq<nat>, quiet: nat)
    requires forall i :: 0 <= i < |gaps| ==> gaps[i] < RefreshDelay
    requires quiet >= RefreshDelay
    ensures Run(t, Burst(gaps) + [Pass(quiet)]).refreshes == t.refreshes + 1
    ensures Run(t, Burst(gaps) + [Pass(quiet)]).pending.None?
  {
    RunAppend(t, Burst(gaps), [Pass(quiet)]);
    BurstArmsOnce(t, gaps);
  }

  /** Refreshes started plus timers armed never exceed what was armed plus the signals given. */
  lemma {:induction false} RefreshesBoundedBySignals(t: Timer, events: seq<Event>)
    ensures Run(t, events).refreshes + Armed(Run(t, events)) <= t.refreshes + Armed(t) + Signals(events)
    decreases |events|
  {
    if |events| > 0 {
      RefreshesBoundedBySignals(Step(t, events[0]), events[1..]);
    }
  }

  /** `destroyed()` leaves an armed timer armed, so the refresh still runs afterwards. */
  lemma DestroyDoesNotCancel(t: Timer)
    ensures Run(t, [Signal, Destroy, Pass(RefreshDelay)]).refreshes == t.refreshes + 1
  {
    var armed := OnRefresh(t);
    assert Run(t, [Signal, Destroy, Pass(RefreshDelay)]) == Run(armed, [Destroy, Pass(RefreshDelay)]);
    assert Run(armed, [Destroy, Pass(RefreshDelay)]) == Run(armed, [Pass(RefreshDelay)]);
    assert Run(armed, [Pass(RefreshDelay)]) == Run(Wait(armed, RefreshDelay), []);
  }
}
