# Export-route maps and hero slideshow of the Sena Indo site, in Dafny

This project models the parts of the company's brochure site that behave rather
than only display text:

- **Route geometry of the two SVG maps** (`export-route-map`, `world-map-with-routes`).
  Latitude/longitude is projected linearly onto a 360 × 180 viewBox. Each
  destination gets a quadratic curve from Uganda whose control point is the
  midpoint pushed sideways by 0.2 × the distance. Markers, labels and the legend
  are placed from the same projection.
- **The staggered reveal.** After a one-second simulated load, one timer per
  destination fires at `index × 200` ms and appends its index to the list of
  revealed routes. A route is drawn once its index is in the list.
- **The map-view state machines.**
  - SVG export-route map: zoom buttons, reset, "view office", and the layers
    that zoom switches between.
  - Google-maps-style canvas map: zoom, reset, office, map type, the destination
    sidebar, the show/hide-all toggle, the frame-stepped and the time-based
    progress animations, the route filter and the control point of each
    canvas curve.
  - Leaflet map: markers and straight polylines, and selecting a route or
    viewing them all.
- **The hero slideshow.** A three-slide rotation, a jump by indicator, the
  indicator highlight, and the caption lookup, which falls back to English.

The project has one module per file:

- `Common`: shared values and the order-keeping destination filter.
- `Translations`: table choice, with and without the English fallback.
- `SvgRoutes`: what the two SVG maps share.
- `RouteReveal`: reveal timers and the revealed-routes list.
- `ExportRouteMap`, `WorldMapWithRoutes`, `GoogleMapsExportRoutes`,
  `LeafletExportRoutes`, `HeroSlideshow`: one per component.

Each component's React state is a class whose fields the handler methods update.
Rendering decisions are pure functions of that state. Coordinates and progress
are exact reals.

The Google-maps and Leaflet classes receive their destination table at
construction. Each module proves (`DestinationNamesUnique`) that the component's
own table `ExportDestinations` meets the constructor's requirement that names
are unique.

Behaviour of the code that a reader might not expect, and that the model keeps:

- **ViewBox coverage.** The SVG projection `x = 2·lng + 180, y = 90 − 2·lat`
  keeps a place inside the 360 × 180 viewBox only for longitudes −90..90 and
  latitudes −45..45. Seven of the fifteen SVG destinations land outside it
  (Germany, China, USA, Switzerland, Singapore, Netherlands, Sweden): see
  `SvgRoutes.ViewBoxCoverage` and `SvgRoutes.DestinationsOutsideViewBox`.
- **Language fallback.** The slideshow, the Google-maps map and the Leaflet map
  fall back to the English table for a language they have no table for. The two
  SVG maps look the code up with no fallback, and they define only en, zh, fr
  and it (`SvgRoutes.TranslationTable`). The language menu also offers de, es,
  pt and nl (components/navbar.tsx:18-21). For those codes `t` is undefined
  (components/export-route-map.tsx:119), so reading `t.title`
  (components/export-route-map.tsx:190) throws while rendering. The model
  returns `None` for them.
- **Loading gate.** Until the load timer fires, the SVG export-route map and the
  Google-maps map show a loading panel in place of the routes, the office marker
  and the info window. The SVG map's legend and both maps' controls stay
  outside that panel. The model's visibility predicates and `Drawn()` take the
  loading flag into account.
- **Restarted animations.** The Google-maps map's `startAnimation` never cancels
  a frame-stepped chain that is still running. A restart therefore adds a
  second chain, and both step the same progress value. The model counts the
  live chains (`pendingFrames`); `SelectScenario` shows two chains finishing in
  101 frames.
- **Timer cleanup.** The SVG maps clear only the load timer on teardown; the
  reveal timers are never cancelled.
- **Slideshow period.** A comment in the slideshow says five seconds; the
  interval is 6000 ms (`HeroSlideshow.RotationIntervalMs`).

## Model

| member | source | states |
|---|---|---|
| Common.Filter | components/google-maps-export-routes.tsx:286-289 | the routes left after skipping the filtered-out destinations are at most as many as the table, and a destination is kept exactly when it is in the table and passes the test |
| Common.FilterKeepsAll | components/leaflet-export-routes.tsx:241-256 | when every destination passes the test, the kept list is the whole table, in order |
| Common.FilterKeepsNone | components/google-maps-export-routes.tsx:286-289 | when no destination passes the test, nothing is kept |
| Common.FilterAppend | components/google-maps-export-routes.tsx:286-289 | filtering a concatenation filters each part in turn, so the kept destinations stay in table order |
| Common.FilterByUniqueName | components/leaflet-export-routes.tsx:248 | with unique names, a test that accepts exactly the destinations named like `d` keeps `[d]` alone |
| Translations.TableWithFallback | components/hero-slideshow.tsx:106 | the chosen table is always an existing one: the requested language when it has a table, English otherwise |
| Translations.TableWithoutFallback | components/export-route-map.tsx:119 | a table is found exactly when the language has one, and it is that language's |
| Translations.FallbackExtendsLookup | components/google-maps-export-routes.tsx:212 | the fallback lookup agrees with the plain lookup wherever that finds a table, and gives the English table elsewhere |
| SvgRoutes.DestinationNames | components/export-route-map.tsx:420-425 | one name per table entry, in table order |
| SvgRoutes.Legend | components/export-route-map.tsx:408-413 | the legend lists min(8, table length) names: the first ones of the table, in order |
| SvgRoutes.Project | components/export-route-map.tsx:184 | the SVG projection: x = 2·lng + 180, y = 90 − 2·lat (its inverse and injectivity are the lemmas below) |
| SvgRoutes.UnprojectProject | components/export-route-map.tsx:184 | the projection lng·2+180, 90−lat·2 is undone by its inverse |
| SvgRoutes.ProjectUnproject | components/export-route-map.tsx:184 | the inverse is undone by the projection, so the projection is a bijection of the plane |
| SvgRoutes.ProjectInjective | components/world-map-with-routes.tsx:191-192 | two places get the same marker position exactly when they are the same place |
| SvgRoutes.ViewBoxCoverage | components/export-route-map.tsx:265 | a projected place lies in the 360 × 180 viewBox exactly when −90 ≤ lng ≤ 90 and −45 ≤ lat ≤ 45 |
| SvgRoutes.DestinationsOutsideViewBox | components/export-route-map.tsx:13-30 | destination i is drawn outside the viewBox exactly when i is one of 0, 1, 7, 9, 11, 12, 14 |
| SvgRoutes.LabelPosition | components/export-route-map.tsx:297-299 | a destination's label sits 5 right of and 3 below its marker's centre |
| SvgRoutes.OriginLabelPosition | components/export-route-map.tsx:322-324 | Uganda's label sits 6 right of and 3 below Uganda's marker |
| SvgRoutes.MarkerCentre | components/export-route-map.tsx:290-291 | a destination's marker sits at the point that projects back to its coordinates |
| SvgRoutes.TranslationTable | components/world-map-with-routes.tsx:78 | a table is found exactly for en, zh, fr and it, with no fallback |
| SvgRoutes.RoutePath | components/export-route-map.tsx:165-185 | the curve starts at the projected origin and ends at the projected destination, and its control point is the midpoint moved by (0.2·lngDiff, −0.2·latDiff) degrees |
| SvgRoutes.ScaledUnit | components/world-map-with-routes.tsx:117-119 | scaling the unit vector by 0.2·distance gives 0.2 times the raw difference |
| SvgRoutes.ControlOffsetPerpendicular | components/export-route-map.tsx:180-182 | the control point's displacement from the midpoint is perpendicular to the route |
| SvgRoutes.ControlOffsetLength | components/export-route-map.tsx:180-182 | that displacement has length 0.2 × distance |
| SvgRoutes.ControlOffTheLine | components/world-map-with-routes.tsx:117-119 | the control point is never on the line through origin and destination, so every route is a real curve |
| SvgRoutes.ScreenControlOffset | components/export-route-map.tsx:184 | on screen, the control point lies on the perpendicular bisector of the drawn chord, at 0.2 × the chord's length from it |
| SvgRoutes.NoCurveAtOrigin | components/export-route-map.tsx:177-182 | a destination equal to the origin has no positive distance to divide by |
| SvgRoutes.PathEndsAtMarker | components/export-route-map.tsx:184-185 | every route ends at the centre of its destination's marker and starts at Uganda's |
| SvgRoutes.DestinationsAwayFromOrigin | components/world-map-with-routes.tsx:13-32 | every destination of the SVG tables differs from the origin, so every curve is defined |
| RouteReveal.StartRouteAnimations | components/export-route-map.tsx:134-140 | one timer per destination is scheduled, the i-th for route i at i × 200 ms |
| RouteReveal.RevealSchedule | components/export-route-map.tsx:134-140 | the reveal timers of a table of n routes: route i at i × 200 ms |
| RouteReveal.ScheduleInDelayOrder | components/world-map-with-routes.tsx:93-99 | the delays strictly increase, and a timer fires before another exactly when its index is smaller |
| RouteReveal.FiredIndices | components/world-map-with-routes.tsx:96 | firing timers one after another appends exactly their indices, in firing order |
| RouteReveal.RangeMembership | components/export-route-map.tsx:270 | index i is in [0, …, k−1] exactly when i < k |
| RouteReveal.FirstFiringsReveal | components/export-route-map.tsx:134-140 | after the first k timers have fired, the revealed list is [0, 1, …, k−1] |
| RouteReveal.RevealedRoutes.constructor | components/export-route-map.tsx:42 | the revealed list starts empty |
| RouteReveal.RevealedRoutes.TimerFires | components/export-route-map.tsx:137 | one timer firing appends exactly its index to the revealed list |
| RouteReveal.RevealedRoutes.TimersFire | components/world-map-with-routes.tsx:94-98 | timers firing in delay order append their indices in that order |
| ExportRouteMap.LayersPartitionByZoom | components/export-route-map.tsx:243-347 | while loading, no route, office marker or info window shows; the legend shows exactly below zoom 10; once loaded, the routes show exactly when the office marker does not, the legend goes with the routes, and the info window only comes with the office marker |
| ExportRouteMap.ExportRouteMap.constructor | components/export-route-map.tsx:39-42 | the map mounts at zoom 2 over Uganda, still loading, with nothing revealed |
| ExportRouteMap.LoadingPanelShown | components/export-route-map.tsx:243 | the loading panel replaces the map overlay exactly until the map has loaded |
| ExportRouteMap.RoutesLayerShown | components/export-route-map.tsx:267 | the route layer shows once loaded and below zoom 10 |
| ExportRouteMap.LegendShown | components/export-route-map.tsx:404 | the legend, outside the loading panel, shows below zoom 10 |
| ExportRouteMap.OfficeMarkerShown | components/export-route-map.tsx:334 | the office marker shows once loaded and from zoom 10 on |
| ExportRouteMap.OfficeMarkerRadius | components/export-route-map.tsx:338 | the office marker has radius 5 at zoom 16 and 2 otherwise |
| ExportRouteMap.InfoWindowShown | components/export-route-map.tsx:347 | the info window shows once loaded and from zoom 14 on |
| ExportRouteMap.RouteDrawn | components/export-route-map.tsx:267-270 | route i is drawn when the route layer shows and i is in the revealed list |
| ExportRouteMap.ExportRouteMap.ZoomIn | components/export-route-map.tsx:142-146 | zoom goes up by one only below 18, and stays within 1..18 |
| ExportRouteMap.ExportRouteMap.ZoomOut | components/export-route-map.tsx:148-152 | zoom goes down by one only above 1, and stays within 1..18 |
| ExportRouteMap.ExportRouteMap.ResetView | components/export-route-map.tsx:154-157 | zoom 2 over Uganda: the legend shows, the office marker does not, and the routes show exactly when the map has loaded |
| ExportRouteMap.ExportRouteMap.ViewOffice | components/export-route-map.tsx:159-162 | zoom 16 over the office: the office marker is large, the marker and the info window show exactly when the map has loaded, and neither the routes nor the legend show |
| ExportRouteMap.ExportRouteMap.LoadTimerFires | components/export-route-map.tsx:121-131 | the load timer marks the map loaded and schedules the reveal timers |
| ExportRouteMap.RevealScenario | components/export-route-map.tsx:267-270 | after the load timer and the first k reveal timers, at the initial zoom, exactly routes 0..k−1 are drawn |
| WorldMapWithRoutes.WorldMapWithRoutes.LoadTimerFires | components/world-map-with-routes.tsx:80-91 | the load timer marks the map loaded and schedules the reveal timers |
| WorldMapWithRoutes.WorldMapWithRoutes.constructor | components/world-map-with-routes.tsx:36-37 | the map mounts still loading, with an empty revealed list |
| WorldMapWithRoutes.RouteRendered | components/world-map-with-routes.tsx:134-171 | route i is rendered once the map has loaded and i is in the revealed list |
| WorldMapWithRoutes.RevealAllScenario | components/world-map-with-routes.tsx:134-171 | once every reveal timer has fired, the revealed list is [0, …, 14] and every route is rendered |
| GoogleMapsExportRoutes.TranslationTable | components/google-maps-export-routes.tsx:212 | the requested language's table when there is one among the eight, English otherwise |
| GoogleMapsExportRoutes.DestinationNamesUnique | components/google-maps-export-routes.tsx:19-35 | no two destinations of the table share a name |
| GoogleMapsExportRoutes.RouteDrawn | components/google-maps-export-routes.tsx:287 | a route is skipped exactly when "show all" is off and its destination is not the selected one |
| GoogleMapsExportRoutes.DrawnRoutes | components/google-maps-export-routes.tsx:286-289 | the drawn routes are the table's entries that pass that filter, in table order (see the three lemmas below) |
| GoogleMapsExportRoutes.DrawnRoutesShowAll | components/google-maps-export-routes.tsx:286-289 | with "show all" on, every route is drawn, in table order, whatever is selected |
| GoogleMapsExportRoutes.DrawnRoutesNoneSelected | components/google-maps-export-routes.tsx:287 | with "show all" off and no selection, no route is drawn |
| GoogleMapsExportRoutes.DrawnRoutesOneSelected | components/google-maps-export-routes.tsx:287 | with "show all" off and `d` selected, exactly `d`'s route is drawn |
| GoogleMapsExportRoutes.ControlPoint | components/google-maps-export-routes.tsx:298-299 | the control point is horizontally midway and lies above both endpoints (strictly when their x differ) |
| GoogleMapsExportRoutes.CurrentEnd | components/google-maps-export-routes.tsx:302-303 | at progress 0 the curve ends at Uganda, at progress 1 at the destination |
| GoogleMapsExportRoutes.LineWidth | components/google-maps-export-routes.tsx:308 | width 3 exactly for the selected destination's route, 2 for every other |
| GoogleMapsExportRoutes.MarkersDrawn | components/google-maps-export-routes.tsx:313 | destination markers appear only at progress 1 |
| GoogleMapsExportRoutes.InfoWindowShown | components/google-maps-export-routes.tsx:468-500 | the office info window shows once loading has ended and from zoom 10 on |
| GoogleMapsExportRoutes.StepProgress | components/google-maps-export-routes.tsx:344-350 | a frame adds 0.01 while the sum stays below 1 and gives exactly 1 otherwise, never above 1 and never lowering a progress that is at most 1 |
| GoogleMapsExportRoutes.ProgressAfterFramesClosedForm | components/google-maps-export-routes.tsx:341-354 | after n frames the progress is n/100 below frame 100 and exactly 1 from then on |
| GoogleMapsExportRoutes.ProgressAfterFramesMonotone | components/google-maps-export-routes.tsx:344-350 | the stepped progress never decreases and stays within [0, 1] |
| GoogleMapsExportRoutes.FramesStopAtHundred | components/google-maps-export-routes.tsx:346-349 | a further frame is requested exactly while fewer than 100 frames have run |
| GoogleMapsExportRoutes.TimedProgress | components/google-maps-export-routes.tsx:229-237 | the time-based progress is elapsed/5000 within [0, 1] and reaches 1 exactly from 5000 ms on |
| GoogleMapsExportRoutes.TimedProgressMonotone | components/google-maps-export-routes.tsx:231 | the time-based progress never decreases as time passes |
| GoogleMapsExportRoutes.GoogleMapsExportRoutes.constructor | components/google-maps-export-routes.tsx:41-47 | zoom 2 over Uganda, road map, loading, nothing selected, all routes shown, progress 0 |
| GoogleMapsExportRoutes.GoogleMapsExportRoutes.Drawn | components/google-maps-export-routes.tsx:257-289 | no route is drawn while loading; afterwards a destination's route is drawn exactly when it is in the table and passes the route filter |
| GoogleMapsExportRoutes.GoogleMapsExportRoutes.StartAnimation | components/google-maps-export-routes.tsx:341-354 | progress restarts at 0 and one more frame-stepped chain is live, the running ones not cancelled |
| GoogleMapsExportRoutes.GoogleMapsExportRoutes.LoadTimerFires | components/google-maps-export-routes.tsx:215-246 | loading ends, a frame-stepped chain starts at progress 0, and the time-based animation requests its first frame |
| GoogleMapsExportRoutes.GoogleMapsExportRoutes.StepFrame | components/google-maps-export-routes.tsx:343-351 | a frame of one chain steps the progress, never lowering it; that chain goes on exactly while the progress is below 1, the others are untouched |
| GoogleMapsExportRoutes.GoogleMapsExportRoutes.TimedFrame | components/google-maps-export-routes.tsx:229-237 | the progress becomes the time-based value, and the time-based animation goes on exactly while elapsed < 5000 ms |
| GoogleMapsExportRoutes.GoogleMapsExportRoutes.ZoomIn | components/google-maps-export-routes.tsx:356-358 | zoom becomes min(zoom + 1, 20) |
| GoogleMapsExportRoutes.GoogleMapsExportRoutes.ZoomOut | components/google-maps-export-routes.tsx:360-362 | zoom becomes max(zoom − 1, 1) |
| GoogleMapsExportRoutes.GoogleMapsExportRoutes.ResetView | components/google-maps-export-routes.tsx:364-369 | zoom 2 over Uganda, nothing selected, and every route drawn again once loaded (none while loading) |
| GoogleMapsExportRoutes.GoogleMapsExportRoutes.ViewOffice | components/google-maps-export-routes.tsx:371-374 | zoom 14 over Kampala; the office info window shows exactly when loading has ended |
| GoogleMapsExportRoutes.GoogleMapsExportRoutes.MapTypeChange | components/google-maps-export-routes.tsx:376-378 | the map type becomes the chosen one |
| GoogleMapsExportRoutes.GoogleMapsExportRoutes.DestinationClick | components/google-maps-export-routes.tsx:380-384 | the clicked destination is selected, "show all" turns off, one more animation chain starts from 0, and once loaded only its route is drawn |
| GoogleMapsExportRoutes.GoogleMapsExportRoutes.ToggleAllRoutes | components/google-maps-export-routes.tsx:386-392 | "show all" flips; only when it was off is the selection cleared, one more animation chain started and, once loaded, every route drawn |
| GoogleMapsExportRoutes.HideAllScenario | components/google-maps-export-routes.tsx:386-392 | from mount, hiding all routes before choosing a destination leaves no route drawn |
| GoogleMapsExportRoutes.SelectScenario | components/google-maps-export-routes.tsx:215-222 | after the load timer and a click on `d`, in a schedule that runs the time-based loop first, the two live stepped chains stop after 101 frames in all, with only `d`'s route drawn, complete and with its marker |
| LeafletExportRoutes.DestinationNamesUnique | components/leaflet-export-routes.tsx:21-37 | no two destinations of the table share a name |
| LeafletExportRoutes.TranslationTable | components/leaflet-export-routes.tsx:156 | the requested language's table when there is one among the eight, English otherwise |
| LeafletExportRoutes.RouteColor | components/leaflet-export-routes.tsx:252 | a route's colour is the destination's colour when it has one, and is never empty |
| LeafletExportRoutes.IsSelected | components/leaflet-export-routes.tsx:253-254 | a destination counts as selected exactly when a destination with its name is selected |
| LeafletExportRoutes.PolylineShown | components/leaflet-export-routes.tsx:248 | a destination's polyline shows when nothing is selected or it is the selected one |
| LeafletExportRoutes.Polyline | components/leaflet-export-routes.tsx:249-255 | a straight line from Uganda to the destination; solid and 4 wide exactly when selected, dashed "5,5" and 2 wide otherwise |
| LeafletExportRoutes.Polylines | components/leaflet-export-routes.tsx:247-256 | a polyline is drawn exactly when it is the polyline of a destination of the table that is shown; at most one per destination, each a two-point line starting in Uganda |
| LeafletExportRoutes.View | components/leaflet-export-routes.tsx:221-258 | the loading panel shows exactly before mount; after it, the map has every marker and exactly the polylines of the shown destinations |
| LeafletExportRoutes.Markers | components/leaflet-export-routes.tsx:236-245 | Uganda's marker first, then one per destination at its coordinates, whatever is selected |
| LeafletExportRoutes.NoSelectionDrawsEveryRoute | components/leaflet-export-routes.tsx:248-256 | with no selection every destination has a dashed, 2-wide polyline, in table order |
| LeafletExportRoutes.SelectionDrawsOneRoute | components/leaflet-export-routes.tsx:248-256 | with `d` selected, `d`'s solid, 4-wide polyline alone is drawn |
| LeafletExportRoutes.HighlightExactlySelected | components/leaflet-export-routes.tsx:268-297 | the sidebar and the chip row highlight an entry exactly when it is the selected destination |
| LeafletExportRoutes.LeafletExportRoutes.Mount | components/leaflet-export-routes.tsx:159-183 | after mount the map, with its markers and polylines, replaces the loading panel |
| LeafletExportRoutes.LeafletExportRoutes.constructor | components/leaflet-export-routes.tsx:52-53 | before mount: not yet on the client and nothing selected |
| LeafletExportRoutes.LeafletExportRoutes.DestinationClick | components/leaflet-export-routes.tsx:185-187 | the clicked destination is selected and its polyline alone remains |
| LeafletExportRoutes.LeafletExportRoutes.ViewAllRoutes | components/leaflet-export-routes.tsx:189-191 | the selection is cleared and every destination's polyline is drawn again |
| LeafletExportRoutes.ClickThenViewAllScenario | components/leaflet-export-routes.tsx:236-256 | click then "view all": first the chosen solid route alone, then every dashed route, with the markers unchanged |
| HeroSlideshow.TranslationTable | components/hero-slideshow.tsx:106 | the requested language's table when there is one, English otherwise |
| HeroSlideshow.CaptionAlwaysDefined | components/hero-slideshow.tsx:87-153 | slide k uses the keys heading{k+1} and subtitle{k+1}, and the table chosen for any language defines both |
| HeroSlideshow.ImageSource | components/hero-slideshow.tsx:130 | every slide shows its own image, never the placeholder |
| HeroSlideshow.NextSlide | components/hero-slideshow.tsx:111 | a tick moves to the next slide and wraps from the last to the first, staying in range |
| HeroSlideshow.SlideAfterTicksClosedForm | components/hero-slideshow.tsx:109-115 | after n ticks from slide s the slide is (s + n) mod 3 |
| HeroSlideshow.ThreeTicksReturn | components/hero-slideshow.tsx:111 | three more ticks come back to the same slide |
| HeroSlideshow.EverySlideReached | components/hero-slideshow.tsx:111 | every slide is reached from every starting slide |
| HeroSlideshow.Indicators | components/hero-slideshow.tsx:160-167 | one indicator per slide, bright exactly for the current slide |
| HeroSlideshow.CountTrueSingle | components/hero-slideshow.tsx:164 | a highlight row with exactly one chosen position counts one highlight |
| HeroSlideshow.ExactlyOneIndicator | components/hero-slideshow.tsx:160-167 | exactly one indicator is highlighted, and it is the current slide's |
| HeroSlideshow.HeroSlideshow.Tick | components/hero-slideshow.tsx:110-112 | the timer moves to the next slide and the index stays in range |
| HeroSlideshow.HeroSlideshow.constructor | components/hero-slideshow.tsx:16 | the slideshow mounts on the first slide |
| HeroSlideshow.HeroSlideshow.GoToSlide | components/hero-slideshow.tsx:160-163 | an indicator click shows that indicator's slide |
| HeroSlideshow.RotationScenario | components/hero-slideshow.tsx:109-115 | from mount, after n ticks slide n mod 3 is shown, and only its indicator is highlighted |

## Left out

- Rendering: JSX markup, CSS classes, SVG and canvas drawing calls, icons, Leaflet's tile layer, popups and icon setup. The model keeps only the values these are given (positions, widths, dash patterns, which layers show).
- Translation texts: only the choice of table and the presence of keys are modelled, not the marketing text itself.
- Language context: the current language is a parameter (`code`).
- Timers, `requestAnimationFrame` and clocks: each callback becomes a method that the caller invokes in order. The time-based animation takes the elapsed milliseconds as a parameter. The load timer's 1000 ms delay is not represented.
- Timer cleanup on unmount and cancellation of animation frames are not modelled. The reveal timers are never cancelled by the source either.
- Interleaving of the two animation loops: when loading ends the canvas map starts both a frame-stepped chain and the time-based loop, and both write the same progress value in the same browser frames. The methods (`StepFrame`, `TimedFrame`) may be called in any order, but no lemma describes an interleaving of the two. `SelectScenario` lets the time-based loop finish before the stepped chain runs, an order a browser does not produce; its frame count (101) is a property of that order only.
- Mercator projection of the canvas map (`geoToPixel`, with logarithm and tangent): the canvas curve lemmas take the projected pixel points as inputs.
- Floating point: all coordinates and progress values are exact reals. The stepped progress reaches exactly 1 after 100 frames here; with IEEE doubles the intermediate values differ slightly.
- SvgRoutes.RoutePath: takes the Euclidean distance as a parameter that `IsDistance` ties to the coordinates, because Dafny has no square root. For a destination equal to the origin (where the source divides by zero and produces NaN) it has no defined result; `NoCurveAtOrigin` and `DestinationsAwayFromOrigin` show that no destination of the table is in that case.
- Map type: the Google-maps map stores the chosen type (`MapTypeChange`), which picks the map area's background image (components/google-maps-export-routes.tsx:456-461). The image is display only and is not modelled. The stored centre is modelled as a field set by the handlers; the canvas drawing does not read it.
- GoogleMapsExportRoutes.GoogleMapsExportRoutes.constructor: takes the destination table as an argument, and requires only unique names rather than fixing it to `ExportDestinations`. This keeps the handlers' proofs independent of the fifteen-entry literal; `DestinationNamesUnique` shows the component's own table qualifies.
- LeafletExportRoutes.LeafletExportRoutes.constructor: takes the destination table as an argument in the same way.
- Destination order among equal names: selection compares names, as the source does. The lemmas about a single selected route assume unique names, which both tables have.
- The SVG maps' `dest.coordinates` popups, the "Uganda" labels' texts and the legend's "...and more" entry are display text only.
