/**
 * The staggered reveal shared by the two SVG route maps: once the map has
 * loaded, one timer per destination is scheduled at `index * 200` ms, and
 * each timer, when it fires, appends its index to the list of revealed routes.
 */
module RouteReveal {

  /** Delay between two consecutive reveals, in milliseconds. */
  const RevealStaggerMs: nat := 200

  /** A pending one-shot timer: when it fires it reveals route `index`. */
  datatype RevealTimer = RevealTimer(delayMs: nat, index: nat)

  /** The timers scheduled for `count` destinations, in scheduling order. */
  function RevealSchedule(count: nat): seq<RevealTimer> {
    seq(count, i requires 0 <= i < count => RevealTimer(i * RevealStaggerMs, i))
  }

  /**
   * `startRouteAnimations`: the `forEach` over the destinations that
   * schedules one reveal timer per index.
   */
  method StartRouteAnimations(count: nat) returns (timers: seq<RevealTimer>)
    ensures timers == RevealSchedule(count)
  {
    timers := [];
    var index := 0;
    while index < count
      invariant index <= count
      invariant timers == RevealSchedule(index)
    {
      timers := timers + [RevealTimer(index * RevealStaggerMs, index)];
      index := index + 1;
    }
  }

  /** Delays strictly increase along the sequence, so timers fire in sequence order. */
  predicate InDelayOrder(timers: seq<RevealTimer>) {
    forall i, j :: 0 <= i < j < |timers| ==> timers[i].delayMs < timers[j].delayMs
  }

  /** The schedule is in delay order, and a timer's delay orders it exactly as its index does. */
  lemma ScheduleInDelayOrder(count: nat)
    ensures InDelayOrder(RevealSchedule(count))
    ensures forall i, j :: 0 <= i < count && 0 <= j < count ==>
              (RevealSchedule(count)[i].delayMs < RevealSchedule(count)[j].delayMs <==>
               RevealSchedule(count)[i].index < RevealSchedule(count)[j].index)
  {
  }

  /** The route indices appended when `timers` fire one after another. */
  function FiredIndices(timers: seq<RevealTimer>): (r: seq<nat>)
    ensures |r| == |timers|
    ensures forall i :: 0 <= i < |timers| ==> r[i] == timers[i].index
  {
    if timers == [] then [] else [timers[0].index] + FiredIndices(timers[1..])
  }

  /** The list [0, 1, ..., k - 1]. */
  function Range(k: nat): seq<nat> {
    seq(k, i requires 0 <= i < k => i)
  }

  /** Index i has been revealed after k firings exactly when i < k. */
  lemma RangeMembership(k: nat, i: nat)
    ensures i in Range(k) <==> i < k
  {
    if i < k {
      assert Range(k)[i] == i;
    }
  }

  /** The first k firings of the schedule reveal exactly [0, ..., k - 1], in that order. */
  lemma FirstFiringsReveal(count: nat, k: nat)
    requires k <= count
    ensures FiredIndices(RevealSchedule(count)[..k]) == Range(k)
  {
  }

  /** The list of revealed route indices (`animatedRoutes`), grown by the reveal timers. */
  class RevealedRoutes {
    var animatedRoutes: seq<nat>

    constructor ()
      ensures animatedRoutes == []
    {
      animatedRoutes := [];
    }

    /** One reveal timer fires: the list grows by exactly its index. */
    method TimerFires(timer: RevealTimer)
      modifies this
      ensures animatedRoutes == old(animatedRoutes) + [timer.index]
    {
      animatedRoutes := animatedRoutes + [timer.index];
    }

    /** The given timers fire one after another, in delay order. */
    method TimersFire(timers: seq<RevealTimer>)
      requires InDelayOrder(timers)
      modifies this
      ensures animatedRoutes == old(animatedRoutes) + FiredIndices(timers)
    {
      var k := 0;
      while k < |timers|
        invariant k <= |timers|
        invariant animatedRoutes == old(animatedRoutes) + FiredIndices(timers[..k])
      {
        TimerFires(timers[k]);
        assert timers[..k + 1] == timers[..k] + [timers[k]];
        k := k + 1;
      }
      assert timers[..k] == timers;
    }
  }
}
