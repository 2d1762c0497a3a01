/**
 * The canvas route map styled after Google Maps: zoom, reset and office
 * buttons, a destination sidebar that selects one route, a show/hide-all
 * toggle, and an animation that draws every visible route from Uganda
 * towards its destination as a progress value runs from 0 to 1.
 */
module GoogleMapsExportRoutes {
  import opened Common
  import Translations

  const UgandaCoordinates: LatLng := LatLng(1.3733, 32.2903)
  const KampalaCoordinates: LatLng := LatLng(0.3476, 32.5825)

  const ExportDestinations: seq<Destination> := [
    Destination("Berlin", "Germany", LatLng(52.52, 13.405), "#e74c3c"),
    Destination("Beijing", "China", LatLng(39.9042, 116.4074), "#e67e22"),
    Destination("Rome", "Italy", LatLng(41.9028, 12.4964), "#f1c40f"),
    Destination("Casablanca", "Morocco", LatLng(33.5731, -7.5898), "#2ecc71"),
    Destination("Khartoum", "Sudan", LatLng(15.5007, 32.5599), "#1abc9c"),
    Destination("Mumbai", "India", LatLng(19.076, 72.8777), "#3498db"),
    Destination("Madrid", "Spain", LatLng(40.4168, -3.7038), "#9b59b6"),
    Destination("New York", "USA", LatLng(40.7128, -74.006), "#8e44ad"),
    Destination("Athens", "Greece", LatLng(37.9838, 23.7275), "#2980b9"),
    Destination("Zurich", "Switzerland", LatLng(47.3769, 8.5417), "#16a085"),
    Destination("Skopje", "Macedonia", LatLng(41.9981, 21.4254), "#27ae60"),
    Destination("Singapore", "Singapore", LatLng(1.3521, 103.8198), "#d35400"),
    Destination("Amsterdam", "Netherlands", LatLng(52.3676, 4.9041), "#c0392b"),
    Destination("Lisbon", "Portugal", LatLng(38.7223, -9.1393), "#7f8c8d"),
    Destination("Stockholm", "Sweden", LatLng(59.3293, 18.0686), "#2c3e50")
  ]

  datatype MapType = Roadmap | Satellite | Terrain

  const InitialZoom: int := 2
  const MinZoom: int := 1
  const MaxZoom: int := 20
  const OfficeZoom: int := 14
  /** From this zoom on the office info window is shown. */
  const InfoWindowZoom: int := 10

  /** Increment of the frame-stepped animation. */
  const ProgressStep: real := 0.01
  /** Duration of the time-based animation, in milliseconds. */
  const AnimationDurationMs: real := 5000.0

  /** `translations[language] || translations.en` over the eight tables. */
  function TranslationTable(code: string): (t: string)
    ensures t in Translations.EightLanguages
    ensures code in Translations.EightLanguages ==> t == code
    ensures code !in Translations.EightLanguages ==> t == "en"
  {
    Translations.TableWithFallback(Translations.EightLanguages, code)
  }

  /** No two entries of the destination table share a name, so a click selects one route. */
  lemma DestinationNamesUnique()
    ensures UniqueNames(ExportDestinations)
  {
  }

  /** The route filter: a destination's route is skipped unless all routes are shown or it is the selected one. */
  predicate RouteDrawn(showAll: bool, selected: Option<Destination>, d: Destination) {
    !(!showAll && (selected.None? || selected.value.name != d.name))
  }

  /** The destinations of `ds` whose routes are drawn, in table order. */
  function DrawnRoutes(ds: seq<Destination>, showAll: bool, selected: Option<Destination>): seq<Destination> {
    Filter(ds, d => RouteDrawn(showAll, selected, d))
  }

  /** With "show all" on, every route is drawn, whatever is selected. */
  lemma DrawnRoutesShowAll(ds: seq<Destination>, selected: Option<Destination>)
    ensures DrawnRoutes(ds, true, selected) == ds
  {
    FilterKeepsAll(ds, d => RouteDrawn(true, selected, d));
  }

  /** With "show all" off and nothing selected, no route is drawn. */
  lemma DrawnRoutesNoneSelected(ds: seq<Destination>)
    ensures DrawnRoutes(ds, false, None) == []
  {
    FilterKeepsNone(ds, d => RouteDrawn(false, None, d));
  }

  /** With "show all" off and a destination selected, exactly that route is drawn. */
  lemma DrawnRoutesOneSelected(ds: seq<Destination>, d: Destination)
    requires UniqueNames(ds) && d in ds
    ensures DrawnRoutes(ds, false, Some(d)) == [d]
  {
    FilterByUniqueName(ds, d, e => RouteDrawn(false, Some(d), e));
  }

  /**
   * The curve's control point: horizontally midway between the endpoints,
   * and lifted above the higher endpoint by a quarter of their horizontal
   * distance.
   */
  function ControlPoint(origin: Point, dest: Point): (c: Point)
    ensures c.x - origin.x == dest.x - c.x
    ensures 4.0 * (Min(origin.y, dest.y) - c.y) == Abs(dest.x - origin.x)
    ensures c.y <= origin.y && c.y <= dest.y
    ensures origin.x != dest.x ==> c.y < origin.y && c.y < dest.y
  {
    Point((origin.x + dest.x) / 2.0, Min(origin.y, dest.y) - Abs(dest.x - origin.x) / 4.0)
  }

  /** Where the partly drawn curve currently ends: `progress` of the way from origin to destination. */
  function CurrentEnd(origin: Point, dest: Point, progress: real): (p: Point)
    ensures progress == 0.0 ==> p == origin
    ensures progress == 1.0 ==> p == dest
  {
    Point(origin.x + (dest.x - origin.x) * progress, origin.y + (dest.y - origin.y) * progress)
  }

  /** Destination markers and labels are drawn only once the animation is complete. */
  predicate MarkersDrawn(progress: real) {
    progress == 1.0
  }

  /** The selected destination's route is drawn 3 wide, every other one 2 wide. */
  function LineWidth(selected: Option<Destination>, d: Destination): (w: nat)
    ensures w == 3 <==> selected.Some? && selected.value.name == d.name
    ensures w == 2 || w == 3
  {
    if selected.Some? && selected.value.name == d.name then 3 else 2
  }

  /** The office info window belongs to the map area, which shows the loading panel instead while loading. */
  predicate InfoWindowShown(isLoading: bool, zoom: int) {
    !isLoading && zoom >= InfoWindowZoom
  }

  /** One frame of the stepped animation: add 0.01 and clamp at exactly 1. */
  function StepProgress(progress: real): (next: real)
    ensures next <= 1.0
    ensures progress <= 1.0 ==> progress <= next
    ensures progress + ProgressStep < 1.0 ==> next == progress + ProgressStep
    ensures progress + ProgressStep >= 1.0 ==> next == 1.0
  {
    var newProgress := progress + ProgressStep;
    if newProgress >= 1.0 then 1.0 else newProgress
  }

  /** The progress after n frames of the stepped animation, counted from a restart at 0. */
  function ProgressAfterFrames(n: nat): real {
    if n == 0 then 0.0 else StepProgress(ProgressAfterFrames(n - 1))
  }

  /** After n frames the progress is n / 100, reaching exactly 1 at frame 100 and staying there. */
  lemma {:induction false} ProgressAfterFramesClosedForm(n: nat)
    ensures ProgressAfterFrames(n) == if n < 100 then (n as real) * ProgressStep else 1.0
  {
    if n > 0 {
      ProgressAfterFramesClosedForm(n - 1);
    }
  }

  /** The stepped progress never decreases and stays within [0, 1]. */
  lemma ProgressAfterFramesMonotone(n: nat)
    ensures 0.0 <= ProgressAfterFrames(n) <= ProgressAfterFrames(n + 1) <= 1.0
  {
    ProgressAfterFramesClosedForm(n);
    ProgressAfterFramesClosedForm(n + 1);
  }

  /** Another frame is requested exactly while the progress is below 1: the animation stops after 100 frames. */
  lemma FramesStopAtHundred(n: nat)
    ensures ProgressAfterFrames(n) < 1.0 <==> n < 100
  {
    ProgressAfterFramesClosedForm(n);
  }

  /** The time-based animation: `min(elapsed / 5000, 1)`. */
  function TimedProgress(elapsedMs: real): (p: real)
    requires elapsedMs >= 0.0
    ensures 0.0 <= p <= 1.0
    ensures p == 1.0 <==> elapsedMs >= AnimationDurationMs
    ensures p < 1.0 ==> p * AnimationDurationMs == elapsedMs
  {
    Min(elapsedMs / AnimationDurationMs, 1.0)
  }

  /** The time-based progress never decreases as time passes. */
  lemma TimedProgressMonotone(earlier: real, later: real)
    requires 0.0 <= earlier <= later
    ensures TimedProgress(earlier) <= TimedProgress(later)
  {
  }

  class GoogleMapsExportRoutes {
    /** The destination table the map draws from. */
    const destinations: seq<Destination>
    var zoom: int
    /** Stored by the handlers; drawing does not read it. */
    var center: LatLng
    var mapType: MapType
    var isLoading: bool
    var selectedDestination: Option<Destination>
    var showAllRoutes: bool
    var animationProgress: real
    /**
     * The live chains of the frame-stepped animation: each restart adds one
     * and never cancels the chains already running.
     */
    var pendingFrames: nat
    /** The time-based animation of the loading effect has a frame requested. */
    var timedFramePending: bool

    ghost predicate Valid()
      reads this
    {
      UniqueNames(destinations) && MinZoom <= zoom <= MaxZoom && 0.0 <= animationProgress <= 1.0
    }

    /** The state on mount, drawing from the table `ds` (the component's own table is `ExportDestinations`). */
    constructor (ds: seq<Destination>)
      requires UniqueNames(ds)
      ensures Valid() && destinations == ds
      ensures zoom == InitialZoom && center == UgandaCoordinates && mapType == Roadmap
      ensures isLoading && selectedDestination == None && showAllRoutes
      ensures animationProgress == 0.0 && pendingFrames == 0 && !timedFramePending
    {
      destinations := ds;
      zoom := InitialZoom;
      center := UgandaCoordinates;
      mapType := Roadmap;
      isLoading := true;
      selectedDestination := None;
      showAllRoutes := true;
      animationProgress := 0.0;
      pendingFrames := 0;
      timedFramePending := false;
    }

    /**
     * The routes drawn in the current state: none while the loading panel is
     * shown, and afterwards the table's destinations that pass the route filter.
     */
    function Drawn(): (r: seq<Destination>)
      reads this
      ensures isLoading ==> r == []
      ensures !isLoading ==>
                forall d :: d in r <==> d in destinations && RouteDrawn(showAllRoutes, selectedDestination, d)
    {
      if isLoading then [] else DrawnRoutes(destinations, showAllRoutes, selectedDestination)
    }

    /** `startAnimation`: progress back to 0 and one more frame-stepped chain requested. */
    method StartAnimation()
      requires Valid()
      modifies this`animationProgress, this`pendingFrames
      ensures Valid()
      ensures animationProgress == 0.0 && pendingFrames == old(pendingFrames) + 1
    {
      animationProgress := 0.0;
      pendingFrames := pendingFrames + 1;
    }

    /**
     * The load timer: loading ends and a frame-stepped chain starts; the end
     * of loading also starts the time-based animation of the loading effect.
     */
    method LoadTimerFires()
      requires Valid() && isLoading
      modifies this`isLoading, this`animationProgress, this`pendingFrames, this`timedFramePending
      ensures Valid()
      ensures !isLoading && animationProgress == 0.0
      ensures pendingFrames == old(pendingFrames) + 1 && timedFramePending
    {
      isLoading := false;
      StartAnimation();
      timedFramePending := true;
    }

    /**
     * A frame of one stepped chain runs: the progress steps, and that chain
     * asks for another frame exactly while the progress is below 1.
     */
    method StepFrame()
      requires Valid() && pendingFrames > 0
      modifies this`animationProgress, this`pendingFrames
      ensures Valid()
      ensures animationProgress == StepProgress(old(animationProgress))
      ensures old(animationProgress) <= animationProgress
      ensures pendingFrames == old(pendingFrames) - 1 + (if animationProgress < 1.0 then 1 else 0)
    {
      animationProgress := StepProgress(animationProgress);
      pendingFrames := pendingFrames - 1 + (if animationProgress < 1.0 then 1 else 0);
    }

    /** A frame of the time-based animation; it asks for another frame while the progress is below 1. */
    method TimedFrame(elapsedMs: real)
      requires Valid() && timedFramePending && elapsedMs >= 0.0
      modifies this`animationProgress, this`timedFramePending
      ensures Valid()
      ensures animationProgress == TimedProgress(elapsedMs)
      ensures timedFramePending <==> elapsedMs < AnimationDurationMs
    {
      animationProgress := TimedProgress(elapsedMs);
      timedFramePending := animationProgress < 1.0;
    }

    /** `handleZoomIn`: `min(zoom + 1, 20)`. */
    method ZoomIn()
      requires Valid()
      modifies this`zoom
      ensures Valid()
      ensures zoom == if old(zoom) + 1 < MaxZoom then old(zoom) + 1 else MaxZoom
    {
      zoom := if zoom + 1 < MaxZoom then zoom + 1 else MaxZoom;
    }

    /** `handleZoomOut`: `max(zoom - 1, 1)`. */
    method ZoomOut()
      requires Valid()
      modifies this`zoom
      ensures Valid()
      ensures zoom == if old(zoom) - 1 > MinZoom then old(zoom) - 1 else MinZoom
    {
      zoom := if zoom - 1 > MinZoom then zoom - 1 else MinZoom;
    }

    /** `handleResetView`: initial zoom over Uganda, no selection, all routes shown once loaded. */
    method ResetView()
      requires Valid()
      modifies this`zoom, this`center, this`selectedDestination, this`showAllRoutes
      ensures Valid()
      ensures zoom == InitialZoom && center == UgandaCoordinates
      ensures selectedDestination == None && showAllRoutes
      ensures Drawn() == if isLoading then [] else destinations
    {
      zoom := InitialZoom;
      center := UgandaCoordinates;
      selectedDestination := None;
      showAllRoutes := true;
      DrawnRoutesShowAll(destinations, None);
    }

    /**
     * `handleViewOffice`: zoom 14 over Kampala, which opens the office info
     * window once loaded; the route choice is kept.
     */
    method ViewOffice()
      requires Valid()
      modifies this`zoom, this`center
      ensures Valid()
      ensures zoom == OfficeZoom && center == KampalaCoordinates
      ensures InfoWindowShown(isLoading, zoom) <==> !isLoading
    {
      zoom := OfficeZoom;
      center := KampalaCoordinates;
    }

    method MapTypeChange(t: MapType)
      modifies this`mapType
      ensures mapType == t
    {
      mapType := t;
    }

    /** `handleDestinationClick`: select it, stop showing all routes, restart the animation. */
    method DestinationClick(d: Destination)
      requires Valid() && d in destinations
      modifies this`selectedDestination, this`showAllRoutes, this`animationProgress, this`pendingFrames
      ensures Valid()
      ensures selectedDestination == Some(d) && !showAllRoutes
      ensures animationProgress == 0.0 && pendingFrames == old(pendingFrames) + 1
      ensures Drawn() == if isLoading then [] else [d]
    {
      selectedDestination := Some(d);
      showAllRoutes := false;
      StartAnimation();
      DrawnRoutesOneSelected(destinations, d);
    }

    /**
     * `toggleAllRoutes`: flip "show all"; only when it was off does the
     * toggle also clear the selection and restart the animation.
     */
    method ToggleAllRoutes()
      requires Valid()
      modifies this`selectedDestination, this`showAllRoutes, this`animationProgress, this`pendingFrames
      ensures Valid()
      ensures showAllRoutes == !old(showAllRoutes)
      ensures !old(showAllRoutes) ==>
                selectedDestination == None && animationProgress == 0.0 &&
                pendingFrames == old(pendingFrames) + 1 &&
                Drawn() == (if isLoading then [] else destinations)
      ensures old(showAllRoutes) ==>
                selectedDestination == old(selectedDestination) &&
                animationProgress == old(animationProgress) && pendingFrames == old(pendingFrames)
    {
      var wasShowingAll := showAllRoutes;
      showAllRoutes := !showAllRoutes;
      if !wasShowingAll {
        selectedDestination := None;
        StartAnimation();
        DrawnRoutesShowAll(destinations, None);
      }
    }
  }

  /**
   * From mount over any table with unique names (`ExportDestinations` is one,
   * by `DestinationNamesUnique`), a click on "hide all routes" before any
   * destination has been chosen leaves the map with no route at all.
   */
  method HideAllScenario(ds: seq<Destination>) returns (drawn: seq<Destination>)
    requires UniqueNames(ds)
    ensures drawn == []
  {
    var m := new GoogleMapsExportRoutes(ds);
    m.LoadTimerFires();
    m.ToggleAllRoutes();
    drawn := m.Drawn();
    DrawnRoutesNoneSelected(m.destinations);
  }

  /**
   * From mount over a table with unique names: the load timer fires, the
   * time-based animation runs its 5 seconds, and destination `d` is chosen
   * before the stepped chain of the load timer has run a frame. Two stepped
   * chains are then live; running frames until none is left takes 101
   * frames (the last one finds the progress already at 1) and draws exactly
   * `d`'s route, complete and with its marker. A browser runs both loops'
   * callbacks in the same frames, so it never produces this order; the frame
   * count belongs to this schedule, while the end state does not depend on it.
   */
  method SelectScenario(ds: seq<Destination>, d: Destination)
    returns (drawn: seq<Destination>, progress: real, frames: nat)
    requires UniqueNames(ds) && d in ds
    ensures drawn == [d]
    ensures progress == 1.0 && MarkersDrawn(progress)
    ensures frames == 101
  {
    var m := new GoogleMapsExportRoutes(ds);
    m.LoadTimerFires();
    m.TimedFrame(AnimationDurationMs);
    m.DestinationClick(d);
    frames := 0;
    while m.pendingFrames > 0
      invariant m.Valid() && !m.isLoading && frames <= 101
      invariant m.animationProgress == ProgressAfterFrames(frames)
      invariant m.pendingFrames == if frames < 100 then 2 else 101 - frames
      invariant m.Drawn() == [d]
      decreases 101 - frames
    {
      FramesStopAtHundred(frames + 1);
      m.StepFrame();
      frames := frames + 1;
    }
    ProgressAfterFramesClosedForm(frames);
    drawn, progress := m.Drawn(), m.animationProgress;
  }
}
