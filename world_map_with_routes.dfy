/**
 * The world map with routes: the same SVG routes as the export-route map over
 * a world-map image, with no zoom; a route, its marker and its label appear
 * once the route's reveal timer has fired.
 */
module WorldMapWithRoutes {
  import opened SvgRoutes
  import opened RouteReveal

  /** Whether route `index` (its path, marker and label) is rendered. */
  predicate RouteRendered(loaded: bool, revealed: seq<nat>, index: nat) {
    loaded && index in revealed
  }

  class WorldMapWithRoutes {
    var isMapLoaded: bool
    /** The routes revealed so far (`animatedRoutes`). */
    const revealed: RevealedRoutes

    /** The state on mount: still loading, nothing revealed. */
    constructor ()
      ensures !isMapLoaded && fresh(revealed) && revealed.animatedRoutes == []
    {
      isMapLoaded := false;
      revealed := new RevealedRoutes();
    }

    /** The load timer: the map counts as loaded and the reveal timers are scheduled. */
    method LoadTimerFires() returns (timers: seq<RevealTimer>)
      modifies this`isMapLoaded
      ensures isMapLoaded
      ensures timers == RevealSchedule(|ExportDestinations|)
    {
      isMapLoaded := true;
      timers := StartRouteAnimations(|ExportDestinations|);
    }

    /** Whether route `index` is rendered in the current state. */
    predicate IsRouteRendered(index: nat)
      reads this, revealed
    {
      RouteRendered(isMapLoaded, revealed.animatedRoutes, index)
    }
  }

  /**
   * Mounting the map and letting the load timer and then every reveal timer
   * fire: the revealed list is [0, ..., 14] and every destination's route is
   * rendered.
   */
  method RevealAllScenario() returns (revealedList: seq<nat>, rendered: seq<bool>)
    ensures revealedList == Range(|ExportDestinations|)
    ensures |rendered| == |ExportDestinations|
    ensures forall i :: 0 <= i < |rendered| ==> rendered[i]
  {
    var m := new WorldMapWithRoutes();
    var timers := m.LoadTimerFires();
    ScheduleInDelayOrder(|ExportDestinations|);
    m.revealed.TimersFire(timers);
    FirstFiringsReveal(|ExportDestinations|, |ExportDestinations|);
    assert timers[..|ExportDestinations|] == timers;
    revealedList := m.revealed.animatedRoutes;
    rendered := seq(|ExportDestinations|, i requires 0 <= i < |ExportDestinations| reads m, m.revealed =>
                      m.IsRouteRendered(i));
    forall i | 0 <= i < |rendered|
      ensures rendered[i]
    {
      RangeMembership(|ExportDestinations|, i);
    }
  }
}
