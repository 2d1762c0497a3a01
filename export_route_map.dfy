/**
 * The export-route map with zoom controls: an SVG overlay of curved routes
 * from Uganda, revealed one by one after a simulated load, plus an office
 * marker and info window that replace the routes when zoomed in.
 */
module ExportRouteMap {
  import opened Common
  import opened SvgRoutes
  import opened RouteReveal

  /** The company office in Kampala. */
  const OfficeCoordinates: LatLng := LatLng(0.3136, 32.5811)

  const InitialZoom: int := 2
  const MinZoom: int := 1
  const MaxZoom: int := 18
  const OfficeZoom: int := 16
  /** From this zoom on the office replaces the routes and the legend. */
  const DetailZoom: int := 10
  /** From this zoom on the office info window is shown. */
  const InfoWindowZoom: int := 14

  /** The loading panel replaces the whole map overlay until the load timer has fired. */
  predicate LoadingPanelShown(loaded: bool) { !loaded }

  /** The route layer is part of the overlay, and only below the detail zoom. */
  predicate RoutesLayerShown(loaded: bool, zoom: int) { loaded && zoom < DetailZoom }

  /** The legend sits outside the overlay, so it shows below the detail zoom even while loading. */
  predicate LegendShown(zoom: int) { zoom < DetailZoom }

  /** The office marker is part of the overlay, from the detail zoom on. */
  predicate OfficeMarkerShown(loaded: bool, zoom: int) { loaded && zoom >= DetailZoom }

  /** The office info window is part of the overlay, from its own zoom on. */
  predicate InfoWindowShown(loaded: bool, zoom: int) { loaded && zoom >= InfoWindowZoom }

  /** Radius of the office marker: large exactly at the office zoom. */
  function OfficeMarkerRadius(zoom: int): real { if zoom == OfficeZoom then 5.0 else 2.0 }

  /** Whether route `index` (its path, marker and label) is drawn. */
  predicate RouteDrawn(loaded: bool, zoom: int, revealed: seq<nat>, index: nat) {
    RoutesLayerShown(loaded, zoom) && index in revealed
  }

  /**
   * While loading, only the loading panel and (below the detail zoom) the
   * legend show. Once loaded, exactly one of the route layer and the office
   * marker shows, the legend goes with the route layer, and the info window
   * only comes with the office marker.
   */
  lemma LayersPartitionByZoom(loaded: bool, zoom: int)
    ensures LoadingPanelShown(loaded) ==>
              !RoutesLayerShown(loaded, zoom) && !OfficeMarkerShown(loaded, zoom) && !InfoWindowShown(loaded, zoom)
    ensures LegendShown(zoom) <==> zoom < DetailZoom
    ensures loaded ==> (RoutesLayerShown(loaded, zoom) <==> !OfficeMarkerShown(loaded, zoom))
    ensures loaded ==> (LegendShown(zoom) <==> RoutesLayerShown(loaded, zoom))
    ensures InfoWindowShown(loaded, zoom) ==> OfficeMarkerShown(loaded, zoom) && !RoutesLayerShown(loaded, zoom)
  {
  }

  class ExportRouteMap {
    var zoomLevel: int
    var centerPoint: LatLng
    var isMapLoaded: bool
    /** The routes revealed so far (`animatedRoutes`). */
    const revealed: RevealedRoutes

    /** Zoom stays within the range the zoom buttons allow. */
    ghost predicate Valid()
      reads this
    {
      MinZoom <= zoomLevel <= MaxZoom
    }

    /** The state on mount: zoom 2 over Uganda, still loading, nothing revealed. */
    constructor ()
      ensures Valid()
      ensures zoomLevel == InitialZoom && centerPoint == UgandaCoordinates
      ensures !isMapLoaded && fresh(revealed) && revealed.animatedRoutes == []
    {
      zoomLevel := InitialZoom;
      centerPoint := UgandaCoordinates;
      isMapLoaded := false;
      revealed := new RevealedRoutes();
    }

    /** `handleZoomIn`: one step in, only below the maximum. */
    method ZoomIn()
      requires Valid()
      modifies this`zoomLevel
      ensures Valid()
      ensures zoomLevel == if old(zoomLevel) < MaxZoom then old(zoomLevel) + 1 else old(zoomLevel)
    {
      if zoomLevel < MaxZoom {
        zoomLevel := zoomLevel + 1;
      }
    }

    /** `handleZoomOut`: one step out, only above the minimum. */
    method ZoomOut()
      requires Valid()
      modifies this`zoomLevel
      ensures Valid()
      ensures zoomLevel == if old(zoomLevel) > MinZoom then old(zoomLevel) - 1 else old(zoomLevel)
    {
      if zoomLevel > MinZoom {
        zoomLevel := zoomLevel - 1;
      }
    }

    /**
     * `handleResetView`: back to the initial zoom over Uganda. The legend shows;
     * the route layer shows once the map has loaded; the office marker does not.
     */
    method ResetView()
      modifies this`zoomLevel, this`centerPoint
      ensures Valid()
      ensures zoomLevel == InitialZoom && centerPoint == UgandaCoordinates
      ensures LegendShown(zoomLevel) && !OfficeMarkerShown(isMapLoaded, zoomLevel)
      ensures RoutesLayerShown(isMapLoaded, zoomLevel) <==> isMapLoaded
    {
      zoomLevel := InitialZoom;
      centerPoint := UgandaCoordinates;
    }

    /**
     * `handleViewOffice`: zoom 16 over the office. Once the map has loaded this
     * shows the large office marker and the info window; the route layer and
     * the legend are hidden either way.
     */
    method ViewOffice()
      modifies this`zoomLevel, this`centerPoint
      ensures Valid()
      ensures zoomLevel == OfficeZoom && centerPoint == OfficeCoordinates
      ensures OfficeMarkerShown(isMapLoaded, zoomLevel) <==> isMapLoaded
      ensures InfoWindowShown(isMapLoaded, zoomLevel) <==> isMapLoaded
      ensures OfficeMarkerRadius(zoomLevel) == 5.0
      ensures !RoutesLayerShown(isMapLoaded, zoomLevel) && !LegendShown(zoomLevel)
    {
      zoomLevel := OfficeZoom;
      centerPoint := OfficeCoordinates;
    }

    /** The load timer: the map counts as loaded and the reveal timers are scheduled. */
    method LoadTimerFires() returns (timers: seq<RevealTimer>)
      modifies this`isMapLoaded
      ensures isMapLoaded
      ensures timers == RevealSchedule(|ExportDestinations|)
    {
      isMapLoaded := true;
      timers := StartRouteAnimations(|ExportDestinations|);
    }

    /** Whether route `index` is drawn in the current state. */
    predicate IsRouteDrawn(index: nat)
      reads this, revealed
    {
      RouteDrawn(isMapLoaded, zoomLevel, revealed.animatedRoutes, index)
    }
  }

  /**
   * Mounting the map, letting the load timer fire and then the first k reveal
   * timers: at the initial zoom exactly the routes 0 .. k - 1 are drawn.
   */
  method RevealScenario(k: nat) returns (drawn: seq<bool>)
    requires k <= |ExportDestinations|
    ensures |drawn| == |ExportDestinations|
    ensures forall i :: 0 <= i < |drawn| ==> drawn[i] == (i < k)
  {
    var m := new ExportRouteMap();
    var timers := m.LoadTimerFires();
    ScheduleInDelayOrder(|ExportDestinations|);
    m.revealed.TimersFire(timers[..k]);
    FirstFiringsReveal(|ExportDestinations|, k);
    drawn := seq(|ExportDestinations|, i requires 0 <= i < |ExportDestinations| reads m, m.revealed => m.IsRouteDrawn(i));
    forall i | 0 <= i < |drawn|
      ensures drawn[i] == (i < k)
    {
      RangeMembership(k, i);
    }
  }
}
