/**
 * What the two SVG route maps (export-route-map and world-map-with-routes)
 * share line for line: the destination table, a linear projection of
 * latitude/longitude onto a 360 x 180 viewBox, a quadratic curve from the
 * origin to each destination whose control point is the midpoint pushed
 * sideways, the marker and label positions, the legend, and the translation
 * lookup (four languages, no fallback).
 */
module SvgRoutes {
  import opened Common
  import Translations

  /** One entry of the SVG maps' destination table. */
  datatype ExportRoute = ExportRoute(destination: string, coordinates: LatLng, color: string)

  /** The fixed origin of every route: Uganda. */
  const UgandaCoordinates: LatLng := LatLng(1.3733, 32.2903)

  const ExportDestinations: seq<ExportRoute> := [
    ExportRoute("Germany", LatLng(51.1657, 10.4515), "#e74c3c"),
    ExportRoute("China", LatLng(35.8617, 104.1954), "#e67e22"),
    ExportRoute("Italy", LatLng(41.8719, 12.5674), "#f1c40f"),
    ExportRoute("Morocco", LatLng(31.7917, -7.0926), "#2ecc71"),
    ExportRoute("Sudan", LatLng(12.8628, 30.2176), "#1abc9c"),
    ExportRoute("India", LatLng(20.5937, 78.9629), "#3498db"),
    ExportRoute("Spain", LatLng(40.4637, -3.7492), "#9b59b6"),
    ExportRoute("USA", LatLng(37.0902, -95.7129), "#8e44ad"),
    ExportRoute("Greece", LatLng(39.0742, 21.8243), "#2980b9"),
    ExportRoute("Switzerland", LatLng(46.8182, 8.2275), "#16a085"),
    ExportRoute("Macedonia", LatLng(41.6086, 21.7453), "#27ae60"),
    ExportRoute("Singapore", LatLng(1.3521, 103.8198), "#d35400"),
    ExportRoute("Netherlands", LatLng(52.1326, 5.2913), "#c0392b"),
    ExportRoute("Portugal", LatLng(39.3999, -8.2245), "#7f8c8d"),
    ExportRoute("Sweden", LatLng(60.1282, 18.6435), "#2c3e50")
  ]

  /** How many destinations the legend lists before "...and more". */
  const LegendLength: nat := 8

  /** The destination names of a route table, in order. */
  function DestinationNames(routes: seq<ExportRoute>): (names: seq<string>)
    ensures |names| == |routes|
    ensures forall i :: 0 <= i < |routes| ==> names[i] == routes[i].destination
  {
    if routes == [] then [] else [routes[0].destination] + DestinationNames(routes[1..])
  }

  /** The legend, `slice(0, 8)` of the table: its first eight names, in order. */
  function Legend(routes: seq<ExportRoute>): (names: seq<string>)
    ensures |names| == if |routes| < LegendLength then |routes| else LegendLength
    ensures forall i :: 0 <= i < |names| ==> names[i] == routes[i].destination
  {
    DestinationNames(if |routes| < LegendLength then routes else routes[..LegendLength])
  }

  /** Projection onto the viewBox: x = 2 * lng + 180, y = 90 - 2 * lat. */
  function Project(c: LatLng): Point
  {
    Point(c.lng * 2.0 + 180.0, 90.0 - c.lat * 2.0)
  }

  /** The inverse of the projection. */
  function Unproject(p: Point): LatLng
  {
    LatLng((90.0 - p.y) / 2.0, (p.x - 180.0) / 2.0)
  }

  /** Unproject undoes Project ... */
  lemma UnprojectProject(c: LatLng)
    ensures Unproject(Project(c)) == c
  {
  }

  /** ... and Project undoes Unproject. */
  lemma ProjectUnproject(p: Point)
    ensures Project(Unproject(p)) == p
  {
  }

  /** The projection is one-to-one: distinct places get distinct points. */
  lemma ProjectInjective(a: LatLng, b: LatLng)
    ensures Project(a) == Project(b) <==> a == b
  {
    if Project(a) == Project(b) {
      UnprojectProject(a);
      UnprojectProject(b);
    }
  }

  /** The drawing area `viewBox="0 0 360 180"`. */
  predicate InViewBox(p: Point) {
    0.0 <= p.x <= 360.0 && 0.0 <= p.y <= 180.0
  }

  /**
   * The projection fills the viewBox with longitudes -90..90 and latitudes
   * -45..45 only; everything else is drawn outside it.
   */
  lemma ViewBoxCoverage(c: LatLng)
    ensures InViewBox(Project(c)) <==> -90.0 <= c.lng <= 90.0 && -45.0 <= c.lat <= 45.0
  {
  }

  /**
   * Seven of the fifteen destinations (Germany, China, USA, Switzerland,
   * Singapore, Netherlands, Sweden) project outside the viewBox.
   */
  lemma DestinationsOutsideViewBox(i: nat)
    requires i < |ExportDestinations|
    ensures !InViewBox(Project(ExportDestinations[i].coordinates)) <==> i in {0, 1, 7, 9, 11, 12, 14}
  {
    ViewBoxCoverage(ExportDestinations[i].coordinates);
  }

  /** Centre of a destination's circle marker. */
  function MarkerCentre(route: ExportRoute): (p: Point)
    ensures Unproject(p) == route.coordinates
  {
    UnprojectProject(route.coordinates);
    Project(route.coordinates)
  }

  /** A destination's name label sits 5 units right of and 3 units below its marker. */
  function LabelPosition(route: ExportRoute): (p: Point)
    ensures p.x - MarkerCentre(route).x == 5.0 && p.y - MarkerCentre(route).y == 3.0
  {
    Point(route.coordinates.lng * 2.0 + 180.0 + 5.0, 90.0 - route.coordinates.lat * 2.0 + 3.0)
  }

  /** Uganda's label sits 6 units right of and 3 units below Uganda's marker. */
  function OriginLabelPosition(): (p: Point)
    ensures p.x - Project(UgandaCoordinates).x == 6.0 && p.y - Project(UgandaCoordinates).y == 3.0
  {
    Point(UgandaCoordinates.lng * 2.0 + 180.0 + 6.0, 90.0 - UgandaCoordinates.lat * 2.0 + 3.0)
  }

  /**
   * `translations[language]`: the two SVG maps define tables for en, zh, fr
   * and it only, and look the code up with no fallback.
   */
  function TranslationTable(code: string): (t: Option<string>)
    ensures t.Some? <==> code in {"en", "zh", "fr", "it"}
    ensures t.Some? ==> t.value == code
  {
    Translations.TableWithoutFallback(Translations.FourLanguages, code)
  }

  /** The SVG path `M start Q control end`, kept as its three points. */
  datatype QuadraticPath = QuadraticPath(start: Point, control: Point, end: Point)

  /**
   * `distance` is the positive Euclidean distance from `origin` to `dest` in
   * degrees. The model takes it as a parameter, since the square root is not
   * available; it exists exactly when the two places differ.
   */
  predicate IsDistance(origin: LatLng, dest: LatLng, distance: real) {
    distance > 0.0 && distance * distance == Sq(dest.lat - origin.lat) + Sq(dest.lng - origin.lng)
  }

  /** The midpoint of origin and destination in degrees. */
  function Midpoint(origin: LatLng, dest: LatLng): LatLng {
    LatLng((dest.lat + origin.lat) / 2.0, (dest.lng + origin.lng) / 2.0)
  }

  /**
   * `getRoutePath`: start at the projected origin, end at the projected
   * destination, control point at the midpoint moved by 0.2 * distance along
   * the unit vector (lngDiff, -latDiff) / distance. Because the unit vector is
   * scaled by the distance it divides by, the control point is the midpoint
   * moved by (0.2 * lngDiff, -0.2 * latDiff).
   */
  function RoutePath(origin: LatLng, dest: LatLng, distance: real): (r: QuadraticPath)
    requires IsDistance(origin, dest, distance)
    ensures r.start == Project(origin) && r.end == Project(dest)
    ensures Unproject(r.control) ==
              LatLng(Midpoint(origin, dest).lat + 0.2 * (dest.lng - origin.lng),
                     Midpoint(origin, dest).lng - 0.2 * (dest.lat - origin.lat))
  {
    var midLat := (dest.lat + origin.lat) / 2.0;
    var midLng := (dest.lng + origin.lng) / 2.0;
    var latDiff := dest.lat - origin.lat;
    var lngDiff := dest.lng - origin.lng;
    var curveFactor := distance * 0.2;
    ScaledUnit(curveFactor, lngDiff, distance);
    ScaledUnit(curveFactor, latDiff, distance);
    var perpLat := midLat + curveFactor * (lngDiff / distance);
    var perpLng := midLng - curveFactor * (latDiff / distance);
    QuadraticPath(Project(origin), Project(LatLng(perpLat, perpLng)), Project(dest))
  }

  /** (0.2 * d) * (v / d) == 0.2 * v for d > 0. */
  lemma ScaledUnit(curveFactor: real, v: real, distance: real)
    requires distance > 0.0 && curveFactor == distance * 0.2
    ensures curveFactor * (v / distance) == 0.2 * v
  {
    calc {
      curveFactor * (v / distance);
      0.2 * (distance * (v / distance));
      { assert distance * (v / distance) == v; }
      0.2 * v;
    }
  }

  /** The control point's displacement from the midpoint, in degrees. */
  function ControlOffset(origin: LatLng, dest: LatLng, distance: real): (o: LatLng)
    requires IsDistance(origin, dest, distance)
  {
    var c := Unproject(RoutePath(origin, dest, distance).control);
    var m := Midpoint(origin, dest);
    LatLng(c.lat - m.lat, c.lng - m.lng)
  }

  /** The displacement is perpendicular to the segment from origin to destination. */
  lemma ControlOffsetPerpendicular(origin: LatLng, dest: LatLng, distance: real)
    requires IsDistance(origin, dest, distance)
    ensures var o := ControlOffset(origin, dest, distance);
            (dest.lat - origin.lat) * o.lat + (dest.lng - origin.lng) * o.lng == 0.0
  {
    var latDiff, lngDiff := dest.lat - origin.lat, dest.lng - origin.lng;
    var o := ControlOffset(origin, dest, distance);
    assert o == LatLng(0.2 * lngDiff, -0.2 * latDiff);
  }

  /** The displacement has length 0.2 * distance (stated on squares). */
  lemma ControlOffsetLength(origin: LatLng, dest: LatLng, distance: real)
    requires IsDistance(origin, dest, distance)
    ensures var o := ControlOffset(origin, dest, distance);
            Sq(o.lat) + Sq(o.lng) == Sq(0.2 * distance)
  {
    var latDiff, lngDiff := dest.lat - origin.lat, dest.lng - origin.lng;
    var o := ControlOffset(origin, dest, distance);
    assert o == LatLng(0.2 * lngDiff, -0.2 * latDiff);
    calc {
      Sq(o.lat) + Sq(o.lng);
      0.04 * (Sq(lngDiff) + Sq(latDiff));
      0.04 * (distance * distance);
      Sq(0.2 * distance);
    }
  }

  /**
   * The curve really bends: the control point is never on the straight line
   * through origin and destination (the cross product is -0.2 * distance^2).
   */
  lemma ControlOffTheLine(origin: LatLng, dest: LatLng, distance: real)
    requires IsDistance(origin, dest, distance)
    ensures var c := Unproject(RoutePath(origin, dest, distance).control);
            (dest.lat - origin.lat) * (c.lng - origin.lng) - (dest.lng - origin.lng) * (c.lat - origin.lat)
              == -0.2 * (distance * distance)
  {
    var latDiff, lngDiff := dest.lat - origin.lat, dest.lng - origin.lng;
    var c := Unproject(RoutePath(origin, dest, distance).control);
    assert c.lat - origin.lat == latDiff / 2.0 + 0.2 * lngDiff;
    assert c.lng - origin.lng == lngDiff / 2.0 - 0.2 * latDiff;
    calc {
      latDiff * (c.lng - origin.lng) - lngDiff * (c.lat - origin.lat);
      latDiff * (lngDiff / 2.0 - 0.2 * latDiff) - lngDiff * (latDiff / 2.0 + 0.2 * lngDiff);
      -0.2 * (Sq(latDiff) + Sq(lngDiff));
    }
  }

  /**
   * The same holds on screen: the control point lies on the perpendicular
   * bisector of the drawn chord, at 0.2 times the chord's length from it.
   */
  lemma ScreenControlOffset(origin: LatLng, dest: LatLng, distance: real)
    requires IsDistance(origin, dest, distance)
    ensures var r := RoutePath(origin, dest, distance);
            var mx, my := (r.start.x + r.end.x) / 2.0, (r.start.y + r.end.y) / 2.0;
            var ox, oy := r.control.x - mx, r.control.y - my;
            var cx, cy := r.end.x - r.start.x, r.end.y - r.start.y;
            cx * ox + cy * oy == 0.0 &&
            Sq(ox) + Sq(oy) == 0.04 * (Sq(cx) + Sq(cy))
  {
    var latDiff, lngDiff := dest.lat - origin.lat, dest.lng - origin.lng;
    var r := RoutePath(origin, dest, distance);
    var mx, my := (r.start.x + r.end.x) / 2.0, (r.start.y + r.end.y) / 2.0;
    var ox, oy := r.control.x - mx, r.control.y - my;
    var cx, cy := r.end.x - r.start.x, r.end.y - r.start.y;
    assert ox == -0.4 * latDiff && oy == -0.4 * lngDiff;
    assert cx == 2.0 * lngDiff && cy == -2.0 * latDiff;
  }

  /**
   * Coincident origin and destination have no distance the curve can divide
   * by: the curve is defined only for a destination other than the origin.
   */
  lemma NoCurveAtOrigin(place: LatLng, distance: real)
    ensures !IsDistance(place, place, distance)
  {
    if distance > 0.0 {
      calc {
        distance * distance;
        > 0.0;
        == Sq(place.lat - place.lat) + Sq(place.lng - place.lng);
      }
    }
  }

  /** Each route's path ends at the centre of its destination's marker. */
  lemma PathEndsAtMarker(route: ExportRoute, distance: real)
    requires IsDistance(UgandaCoordinates, route.coordinates, distance)
    ensures RoutePath(UgandaCoordinates, route.coordinates, distance).end == MarkerCentre(route)
    ensures RoutePath(UgandaCoordinates, route.coordinates, distance).start == Project(UgandaCoordinates)
  {
  }

  /** Every destination of the SVG maps differs from the origin, so every route is drawable. */
  lemma DestinationsAwayFromOrigin(i: nat)
    requires i < |ExportDestinations|
    ensures ExportDestinations[i].coordinates != UgandaCoordinates
  {
  }
}
