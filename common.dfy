/** Values shared by the export-route widgets and the hero slideshow. */
module Common {

  datatype Option<+T> = None | Some(value: T)

  /** A geographic coordinate in degrees, as the widgets store it: [latitude, longitude]. */
  datatype LatLng = LatLng(lat: real, lng: real)

  /** A point in drawing space (SVG user units or canvas pixels). */
  datatype Point = Point(x: real, y: real)

  /** An export market as the Google-maps and Leaflet widgets describe it. */
  datatype Destination = Destination(name: string, country: string, coords: LatLng, color: string)

  function Sq(v: real): real { v * v }

  function Abs(v: real): real { if v < 0.0 then -v else v }

  function Min(a: real, b: real): real { if a <= b then a else b }

  /** No two destinations share a name. */
  predicate UniqueNames(ds: seq<Destination>) {
    forall i, j :: 0 <= i < j < |ds| ==> ds[i].name != ds[j].name
  }

  /**
   * The destinations that `keep` accepts, in their original order
   * (`FilterAppend` states the order).
   */
  function Filter(ds: seq<Destination>, keep: Destination -> bool): (r: seq<Destination>)
    ensures |r| <= |ds|
    ensures forall d :: d in r <==> d in ds && keep(d)
  {
    if ds == [] then [] else (if keep(ds[0]) then [ds[0]] else []) + Filter(ds[1..], keep)
  }

  /** Filtering a concatenation filters each part, so the kept destinations keep their order. */
  lemma {:induction false} FilterAppend(a: seq<Destination>, b: seq<Destination>, keep: Destination -> bool)
    ensures Filter(a + b, keep) == Filter(a, keep) + Filter(b, keep)
  {
    if a == [] {
      assert a + b == b;
    } else {
      assert (a + b)[0] == a[0];
      assert (a + b)[1..] == a[1..] + b;
      FilterAppend(a[1..], b, keep);
    }
  }

  /** Keeping everything keeps the list as it is. */
  lemma {:induction false} FilterKeepsAll(ds: seq<Destination>, keep: Destination -> bool)
    requires forall d :: d in ds ==> keep(d)
    ensures Filter(ds, keep) == ds
  {
    if ds != [] {
      FilterKeepsAll(ds[1..], keep);
    }
  }

  /** Keeping nothing gives the empty list. */
  lemma {:induction false} FilterKeepsNone(ds: seq<Destination>, keep: Destination -> bool)
    requires forall d :: d in ds ==> !keep(d)
    ensures Filter(ds, keep) == []
  {
    if ds != [] {
      FilterKeepsNone(ds[1..], keep);
    }
  }

  /**
   * When names are unique and `keep` accepts exactly the destinations named
   * like `d`, the filter yields `d` alone.
   */
  lemma {:induction false} FilterByUniqueName(ds: seq<Destination>, d: Destination, keep: Destination -> bool)
    requires UniqueNames(ds) && d in ds
    requires forall e :: e in ds ==> (keep(e) <==> e.name == d.name)
    ensures Filter(ds, keep) == [d]
  {
    if ds[0] == d {
      forall e | e in ds[1..]
        ensures !keep(e)
      {
        var j :| 0 <= j < |ds[1..]| && ds[1..][j] == e;
        assert ds[j + 1] == e;
      }
      FilterKeepsNone(ds[1..], keep);
    } else {
      var j :| 0 <= j < |ds| && ds[j] == d;
      assert j > 0;
      assert ds[0].name != d.name;
      assert d == ds[1..][j - 1];
      FilterByUniqueName(ds[1..], d, keep);
    }
  }
}
