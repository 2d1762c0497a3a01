/**
 * The Leaflet route map: a marker for Uganda and one per destination, and a
 * straight polyline from Uganda to each destination. Clicking a destination
 * in the sidebar or the chip row keeps only its polyline, drawn solid and
 * thicker; "view all routes" brings the dashed polylines of every
 * destination back.
 */
module LeafletExportRoutes {
  import opened Common
  import Translations

  /** Entebbe International Airport, where every route starts. */
  const UgandaCoords: LatLng := LatLng(0.314, 32.581)

  const InitialZoom: int := 2

  const ExportDestinations: seq<Destination> := [
    Destination("Berlin", "Germany", LatLng(52.52, 13.405), "#e74c3c"),
    Destination("Beijing", "China", LatLng(39.9042, 116.4074), "#e67e22"),
    Destination("Rome", "Italy", LatLng(41.9028, 12.4964), "#f1c40f"),
    Destination("Casablanca", "Morocco", LatLng(33.5731, -7.5898), "#2ecc71"),
    Destination("Khartoum", "Sudan", LatLng(15.5007, 32.5599), "#1abc9c"),
    Destination("Mumbai", "India", LatLng(19.076, 72.8777), "#3498db"),
    Destination("Madrid", "Spain", LatLng(40.4168, -3.7038), "#9b59b6"),
    Destination("New York", "USA", LatLng(40.7128, -74.006), "#8e44ad"),
    Destination("Athens", "Greece", LatLng(37.9838, 23.7275), "#2980b9"),
    Destination("Zurich", "Switzerland", LatLng(47.3769, 8.5417), "#16a085"),
    Destination("Skopje", "Macedonia", LatLng(41.9981, 21.4254), "#27ae60"),
    Destination("Singapore", "Singapore", LatLng(1.3521, 103.8198), "#d35400"),
    Destination("Amsterdam", "Netherlands", LatLng(52.3676, 4.9041), "#c0392b"),
    Destination("Lisbon", "Portugal", LatLng(38.7169, -9.1399), "#7f8c8d"),
    Destination("Stockholm", "Sweden", LatLng(59.3293, 18.0686), "#2c3e50")
  ]

  /** No two entries of the destination table share a name. */
  lemma DestinationNamesUnique()
    ensures UniqueNames(ExportDestinations)
  {
  }

  /** `translations[language] || translations.en` over the eight tables. */
  function TranslationTable(code: string): (t: string)
    ensures t in Translations.EightLanguages
    ensures code in Translations.EightLanguages ==> t == code
    ensures code !in Translations.EightLanguages ==> t == "en"
  {
    Translations.TableWithFallback(Translations.EightLanguages, code)
  }

  /** A drawn polyline and the options it is given. */
  datatype PolylineLayer = PolylineLayer(positions: seq<LatLng>, color: string, weight: nat, dashArray: string)

  /** What the map area shows: a loading panel before mount, then the markers and polylines. */
  datatype MapView =
    | Loading
    | Map(markers: seq<LatLng>, polylines: seq<PolylineLayer>)

  /** `dest.color || "blue"`: a missing (empty) colour falls back to blue. */
  function RouteColor(d: Destination): (c: string)
    ensures c != ""
    ensures d.color != "" ==> c == d.color
  {
    if d.color == "" then "blue" else d.color
  }

  /** Whether `d` is the selected destination (by name). */
  predicate IsSelected(selected: Option<Destination>, d: Destination) {
    selected.Some? && selected.value.name == d.name
  }

  /** A destination's polyline is shown when nothing is selected or it is the selected one. */
  predicate PolylineShown(selected: Option<Destination>, d: Destination) {
    selected.None? || IsSelected(selected, d)
  }

  /** The polyline for `d`: the selected one is solid and 4 wide, the others dashed "5,5" and 2 wide. */
  function Polyline(selected: Option<Destination>, d: Destination): (p: PolylineLayer)
    ensures p.positions == [UgandaCoords, d.coords]
    ensures p.color == RouteColor(d)
    ensures p.weight == 4 <==> IsSelected(selected, d)
    ensures p.weight == 2 <==> !IsSelected(selected, d)
    ensures p.dashArray == "" <==> IsSelected(selected, d)
    ensures !IsSelected(selected, d) ==> p.dashArray == "5,5"
  {
    var chosen := IsSelected(selected, d);
    PolylineLayer([UgandaCoords, d.coords], RouteColor(d), if chosen then 4 else 2, if chosen then "" else "5,5")
  }

  /** The polylines of the destinations in `shown`, one each, in order. */
  lemma PolylinesOf(shown: seq<Destination>, selected: Option<Destination>, r: seq<PolylineLayer>)
    requires |r| == |shown|
    requires forall i :: 0 <= i < |r| ==> r[i] == Polyline(selected, shown[i])
    ensures forall p :: p in r <==> exists d :: d in shown && p == Polyline(selected, d)
  {
    forall p | p in r
      ensures exists d :: d in shown && p == Polyline(selected, d)
    {
      var i :| 0 <= i < |r| && r[i] == p;
      assert shown[i] in shown;
    }
    forall d | d in shown
      ensures Polyline(selected, d) in r
    {
      var i :| 0 <= i < |shown| && shown[i] == d;
      assert r[i] == Polyline(selected, d);
    }
  }

  /**
   * The polylines drawn for the destination table `ds`, in table order:
   * exactly the polylines of the destinations that are shown, at most one
   * per destination, each starting in Uganda.
   */
  function Polylines(ds: seq<Destination>, selected: Option<Destination>): (r: seq<PolylineLayer>)
    ensures |r| <= |ds|
    ensures forall i :: 0 <= i < |r| ==> |r[i].positions| == 2 && r[i].positions[0] == UgandaCoords
    ensures forall p :: p in r <==> exists d :: d in ds && PolylineShown(selected, d) && p == Polyline(selected, d)
  {
    var shown := Filter(ds, d => PolylineShown(selected, d));
    var r := seq(|shown|, i requires 0 <= i < |shown| => Polyline(selected, shown[i]));
    PolylinesOf(shown, selected, r);
    r
  }

  /** The marker positions: Uganda first, then every destination, whatever is selected. */
  function Markers(ds: seq<Destination>): (r: seq<LatLng>)
    ensures |r| == |ds| + 1 && r[0] == UgandaCoords
    ensures forall i :: 0 <= i < |ds| ==> r[i + 1] == ds[i].coords
  {
    [UgandaCoords] + seq(|ds|, i requires 0 <= i < |ds| => ds[i].coords)
  }

  /** The map area for the mount state and selection. */
  function View(isClient: bool, ds: seq<Destination>, selected: Option<Destination>): (v: MapView)
    ensures v.Loading? <==> !isClient
    ensures v.Map? ==> v.markers == Markers(ds) && |v.polylines| <= |ds|
    ensures v.Map? ==> forall p :: p in v.polylines <==>
              exists d :: d in ds && PolylineShown(selected, d) && p == Polyline(selected, d)
  {
    if isClient then Map(Markers(ds), Polylines(ds, selected)) else Loading
  }

  /** With nothing selected, every destination has a dashed, 2-wide polyline from Uganda, in table order. */
  lemma NoSelectionDrawsEveryRoute(ds: seq<Destination>)
    ensures |Polylines(ds, None)| == |ds|
    ensures forall i :: 0 <= i < |ds| ==>
              Polylines(ds, None)[i] == PolylineLayer([UgandaCoords, ds[i].coords], RouteColor(ds[i]), 2, "5,5")
  {
    FilterKeepsAll(ds, d => PolylineShown(None, d));
  }

  /** With a destination selected, its polyline alone is drawn, solid and 4 wide. */
  lemma SelectionDrawsOneRoute(ds: seq<Destination>, d: Destination)
    requires UniqueNames(ds) && d in ds
    ensures Polylines(ds, Some(d)) == [PolylineLayer([UgandaCoords, d.coords], RouteColor(d), 4, "")]
  {
    FilterByUniqueName(ds, d, e => PolylineShown(Some(d), e));
  }

  /** With unique names, the sidebar and the chip row highlight exactly the selected entry. */
  lemma HighlightExactlySelected(ds: seq<Destination>, d: Destination, i: nat)
    requires UniqueNames(ds) && d in ds && i < |ds|
    ensures IsSelected(Some(d), ds[i]) <==> ds[i] == d
  {
  }

  class LeafletExportRoutes {
    /** The destination table the map draws from. */
    const destinations: seq<Destination>
    /** Set once the component has mounted in the browser. */
    var isClient: bool
    var selectedDestination: Option<Destination>

    ghost predicate Valid()
      reads this
    {
      UniqueNames(destinations)
    }

    /** The state before mount, over the table `ds` (the component's own table is `ExportDestinations`). */
    constructor (ds: seq<Destination>)
      requires UniqueNames(ds)
      ensures Valid() && destinations == ds
      ensures !isClient && selectedDestination == None
    {
      destinations := ds;
      isClient := false;
      selectedDestination := None;
    }

    function CurrentView(): MapView
      reads this
    {
      View(isClient, destinations, selectedDestination)
    }

    /** The mount effect: the map replaces the loading panel. */
    method Mount()
      modifies this`isClient
      ensures isClient
      ensures CurrentView() == Map(Markers(destinations), Polylines(destinations, selectedDestination))
    {
      isClient := true;
    }

    /** `handleDestinationClick`: select `d`; only its polyline remains. */
    method DestinationClick(d: Destination)
      requires Valid() && d in destinations
      modifies this`selectedDestination
      ensures Valid() && selectedDestination == Some(d)
      ensures Polylines(destinations, selectedDestination) == [Polyline(Some(d), d)]
    {
      selectedDestination := Some(d);
      SelectionDrawsOneRoute(destinations, d);
    }

    /** `handleViewAllRoutes`: clear the selection; every polyline is drawn again. */
    method ViewAllRoutes()
      requires Valid()
      modifies this`selectedDestination
      ensures Valid() && selectedDestination == None
      ensures |Polylines(destinations, selectedDestination)| == |destinations|
    {
      selectedDestination := None;
      NoSelectionDrawsEveryRoute(destinations);
    }
  }

  /**
   * Mounting, clicking `d` and then "view all routes": the map first shows
   * `d`'s solid route alone and then all dashed routes, while the markers
   * stay the same throughout.
   */
  method ClickThenViewAllScenario(ds: seq<Destination>, d: Destination)
    returns (afterClick: MapView, afterViewAll: MapView)
    requires UniqueNames(ds) && d in ds
    ensures afterClick.Map? && afterViewAll.Map?
    ensures afterClick.polylines == [PolylineLayer([UgandaCoords, d.coords], RouteColor(d), 4, "")]
    ensures |afterViewAll.polylines| == |ds|
    ensures forall p :: p in afterViewAll.polylines ==> p.weight == 2 && p.dashArray == "5,5"
    ensures afterClick.markers == afterViewAll.markers && |afterClick.markers| == |ds| + 1
  {
    var m := new LeafletExportRoutes(ds);
    m.Mount();
    m.DestinationClick(d);
    afterClick := m.CurrentView();
    m.ViewAllRoutes();
    afterViewAll := m.CurrentView();
    NoSelectionDrawsEveryRoute(ds);
  }
}
