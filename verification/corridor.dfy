/** The route fact reduction shared by `RouteEngine` and the legacy
    `route_recommendation`: the bounding box of the route and its padding for
    the POI search, the sampling of via points, and the de-duplicated list of
    place names they resolve to. */
module Corridor {
  import opened Common
  import opened Net
  import opened Geocoding
  import opened Pois

  predicate Inside(b: Box, p: LatLon) {
    b.minLat <= p.lat <= b.maxLat && b.minLon <= p.lon <= b.maxLon
  }

  predicate StrictlyInside(b: Box, p: LatLon) {
    b.minLat < p.lat < b.maxLat && b.minLon < p.lon < b.maxLon
  }

  function RMin(a: real, b: real): real { if a <= b then a else b }
  function RMax(a: real, b: real): real { if a <= b then b else a }

  /** `_bbox(points)`: `(min(lats), min(lons), max(lats), max(lons))`. Python's
      `min` raises on an empty list, so the list must be non-empty. Every
      point lies in the box and every edge is attained by some point. */
  function Bbox(pts: seq<LatLon>): (b: Box)
    requires |pts| > 0
    ensures forall i :: 0 <= i < |pts| ==> Inside(b, pts[i])
    ensures exists i :: 0 <= i < |pts| && pts[i].lat == b.minLat
    ensures exists i :: 0 <= i < |pts| && pts[i].lon == b.minLon
    ensures exists i :: 0 <= i < |pts| && pts[i].lat == b.maxLat
    ensures exists i :: 0 <= i < |pts| && pts[i].lon == b.maxLon
  {
    if |pts| == 1 then Box(pts[0].lat, pts[0].lon, pts[0].lat, pts[0].lon)
    else
      var r := Bbox(pts[1..]);
      var b := Box(RMin(pts[0].lat, r.minLat), RMin(pts[0].lon, r.minLon),
                   RMax(pts[0].lat, r.maxLat), RMax(pts[0].lon, r.maxLon));
      assert forall i :: 1 <= i < |pts| ==> pts[i] == pts[1..][i - 1];
      b
  }

  /** The padding added to every edge before the corridor POI search. */
  const Pad: real := 0.05

  /** The corridor search returns at most this many POIs. */
  const CorridorPoiLimit: int := 40

  /** `(min_lat - pad, min_lon - pad, max_lat + pad, max_lon + pad)` */
  function Padded(b: Box, pad: real): Box {
    Box(b.minLat - pad, b.minLon - pad, b.maxLat + pad, b.maxLon + pad)
  }

  /** After padding, every route point lies strictly inside the search box. */
  lemma PaddedBoxHoldsRoute(pts: seq<LatLon>)
    requires |pts| > 0
    ensures forall i :: 0 <= i < |pts| ==> StrictlyInside(Padded(Bbox(pts), Pad), pts[i])
  {
  }

  /** A route with extrema (10, 10) and (20, 20) is searched in the box
      (9.95, 9.95)-(20.05, 20.05). */
  lemma PaddedBoxExample()
    ensures Padded(Bbox([LatLon(10.0, 10.0), LatLon(15.0, 12.0), LatLon(20.0, 20.0)]), Pad)
         == Box(9.95, 9.95, 20.05, 20.05)
  {
  }

  /** `[0, max(1, L//3), max(2, 2*L//3), L-1]`, exactly as written. */
  function SampleIndices(n: nat): (idx: seq<int>)
    ensures |idx| == 4 && idx[0] == 0 && idx[3] == n - 1
  {
    [0, Max(1, n / 3), Max(2, 2 * n / 3), n - 1]
  }

  /** Every sampled index is a valid index into the points exactly when the
      route has at least three points. */
  lemma SampleIndicesValidIff(pts: seq<LatLon>)
    ensures (forall k :: 0 <= k < 4 ==> ValidIndex(pts, SampleIndices(|pts|)[k])) <==> |pts| >= 3
    ensures |pts| >= 3 ==> forall k :: 0 <= k < 4 ==> 0 <= SampleIndices(|pts|)[k] < |pts|
  {
    var n := |pts|;
    if n < 3 {
      assert !ValidIndex(pts, SampleIndices(n)[if n == 0 then 0 else 2]);
    }
  }

  /** From four points on, the four indices are strictly increasing. */
  lemma SampleIndicesIncreasing(n: nat)
    requires n >= 4
    ensures forall k :: 0 <= k < 3 ==> SampleIndices(n)[k] < SampleIndices(n)[k + 1]
  {
    assert n / 3 >= 1;
    assert 2 * n / 3 >= n / 3 + 1;
    assert 2 * n / 3 <= n - 2;
  }

  /** The small cases: at four points every point is sampled once; at three
      the last point is sampled twice. */
  lemma SampleIndicesSmall()
    ensures SampleIndices(4) == [0, 1, 2, 3]
    ensures SampleIndices(3) == [0, 1, 2, 2]
    ensures SampleIndices(2) == [0, 1, 2, 1]
  {
  }

  /** The sampling as evidently intended: the same indices, clamped to the
      last point so that a route of one or two points can be sampled. */
  function ClampedSampleIndices(n: nat): (idx: seq<int>)
    requires n >= 1
    ensures |idx| == 4 && idx[0] == 0 && idx[3] == n - 1
    ensures forall k :: 0 <= k < 4 ==> 0 <= idx[k] < n
    ensures forall k :: 0 <= k < 3 ==> idx[k] <= idx[k + 1]
    ensures n >= 3 ==> idx == SampleIndices(n)
  {
    [0, Min(Max(1, n / 3), n - 1), Min(Max(2, 2 * n / 3), n - 1), n - 1]
  }

  /** `rg.get("city") or rg.get("state") or rg.get("country")` */
  function ViaLabel(p: PlaceInfo): Option<string> {
    OrChain([p.city, p.state, p.country])
  }

  /** The label loop: each truthy label not seen before is appended. */
  function Collect(labels: seq<Option<string>>): seq<string> {
    if labels == [] then []
    else
      var prev := Collect(labels[..|labels| - 1]);
      var l := labels[|labels| - 1];
      if Truthy(l) && l.value !in prev then prev + [l.value] else prev
  }

  /** Position of the first occurrence of a label. */
  function FirstIndexOf(labels: seq<Option<string>>, s: string): (k: nat)
    requires Some(s) in labels
    ensures k < |labels| && labels[k] == Some(s)
    ensures forall j :: 0 <= j < k ==> labels[j] != Some(s)
  {
    if labels[0] == Some(s) then 0 else 1 + FirstIndexOf(labels[1..], s)
  }

  /** The via list has no repeats, holds exactly the non-empty labels, and
      lists them in the order of their first occurrence. */
  lemma {:induction false} CollectSpec(labels: seq<Option<string>>)
    ensures NoDuplicates(Collect(labels))
    ensures forall s :: s in Collect(labels) <==> s != "" && Some(s) in labels
    ensures forall a, b :: 0 <= a < b < |Collect(labels)| ==>
              FirstIndexOf(labels, Collect(labels)[a]) < FirstIndexOf(labels, Collect(labels)[b])
  {
    if labels != [] {
      var init := labels[..|labels| - 1];
      var l := labels[|labels| - 1];
      CollectSpec(init);
      var prev := Collect(init);
      assert labels == init + [l];
      forall s | Some(s) in init ensures FirstIndexOf(labels, s) == FirstIndexOf(init, s) {
        var k, k' := FirstIndexOf(labels, s), FirstIndexOf(init, s);
        assert labels[k'] == Some(s);
      }
      if Truthy(l) && l.value !in prev {
        var v := prev + [l.value];
        assert Some(l.value) !in init;
        assert FirstIndexOf(labels, l.value) == |labels| - 1;
        forall a, b | 0 <= a < b < |v| ensures FirstIndexOf(labels, v[a]) < FirstIndexOf(labels, v[b]) {
          assert v[a] in prev;
          if b == |v| - 1 {
            assert FirstIndexOf(labels, v[a]) == FirstIndexOf(init, v[a]);
          } else {
            assert v[b] in prev;
          }
        }
      } else {
        forall s | s != "" && Some(s) in labels ensures s in prev {
        }
        forall a, b | 0 <= a < b < |prev| ensures FirstIndexOf(labels, prev[a]) < FirstIndexOf(labels, prev[b]) {
          assert prev[a] in prev && prev[b] in prev;
        }
      }
    }
  }

  /** A city met at the first and third sampled points is listed once. */
  lemma CollectExample()
    ensures Collect([Some("Haifa"), Some(""), Some("Haifa"), Some("Tel Aviv")]) == ["Haifa", "Tel Aviv"]
  {
    var ls := [Some("Haifa"), Some(""), Some("Haifa"), Some("Tel Aviv")];
    assert ls[..1] == [Some("Haifa")] && Collect(ls[..1]) == ["Haifa"];
    assert ls[..2][..1] == ls[..1] && Collect(ls[..2]) == ["Haifa"];
    assert ls[..3][..2] == ls[..2] && Collect(ls[..3]) == ["Haifa"];
    assert ls[..3] == ls[..|ls| - 1];
  }

  /** Reverse-geocode the points at the given indices in order; the first
      index that is out of range raises `IndexError`, after the calls made
      for the indices before it. */
  function GeocodeAt(g: Geocoder, w: World, pts: seq<LatLon>, idxs: seq<int>): (t: Traced<Outcome<seq<PlaceInfo>>>)
    ensures forall c :: c in t.calls ==> c.ReverseGeocode? && c.geocoder == g.baseUrl
    ensures t.value.Raised? <==> exists k :: 0 <= k < |idxs| && !ValidIndex(pts, idxs[k])
    ensures t.value.Raised? ==> t.value.error == IndexOutOfRange
    ensures t.value.Ok? ==>
              && |t.value.value| == |idxs| && |t.calls| == |idxs|
              && forall k :: 0 <= k < |idxs| ==>
                   && t.calls[k] == Call.ReverseGeocode(g.baseUrl, PyIndex(pts, idxs[k]))
                   && t.value.value[k] == PlaceOf(w.nominatim(g.baseUrl, PyIndex(pts, idxs[k])), PyIndex(pts, idxs[k]))
  {
    if idxs == [] then Traced(Ok([]), [])
    else if !ValidIndex(pts, idxs[0]) then Traced(Raised(IndexOutOfRange), [])
    else
      var first := Reverse(g, w, PyIndex(pts, idxs[0]));
      var rest := GeocodeAt(g, w, pts, idxs[1..]);
      assert forall k :: 1 <= k < |idxs| ==> idxs[k] == idxs[1..][k - 1];
      match rest.value
      case Ok(places) => Traced(Ok([first.value] + places), first.calls + rest.calls)
      case Raised(e) => Traced(Raised(e), first.calls + rest.calls)
  }

  function Labels(places: seq<PlaceInfo>): (ls: seq<Option<string>>)
    ensures |ls| == |places|
    ensures forall k :: 0 <= k < |places| ==> ls[k] == ViaLabel(places[k])
  {
    if places == [] then [] else [ViaLabel(places[0])] + Labels(places[1..])
  }

  /** The via loop over given indices: geocode each sampled point, then
      collect its label. */
  function ViaAt(g: Geocoder, w: World, pts: seq<LatLon>, idxs: seq<int>): (t: Traced<Outcome<seq<string>>>)
    ensures t.calls == GeocodeAt(g, w, pts, idxs).calls
    ensures t.value.Raised? <==> exists k :: 0 <= k < |idxs| && !ValidIndex(pts, idxs[k])
    ensures t.value.Raised? ==> t.value.error == IndexOutOfRange
    ensures t.value.Ok? ==> t.value.value == Collect(Labels(GeocodeAt(g, w, pts, idxs).value.value))
  {
    var places := GeocodeAt(g, w, pts, idxs);
    match places.value
    case Ok(ps) => Traced(Ok(Collect(Labels(ps))), places.calls)
    case Raised(e) => Traced(Raised(e), places.calls)
  }

  /** `_via_list(points)` as written, with the unclamped indices: it raises
      `IndexError` exactly when the route has fewer than three points, and
      only ever asks the geocoder. */
  function ViaListAsWritten(g: Geocoder, w: World, pts: seq<LatLon>): (t: Traced<Outcome<seq<string>>>)
    ensures t.value.Raised? <==> |pts| < 3
    ensures t.value.Raised? ==> t.value.error == IndexOutOfRange
    ensures forall c :: c in t.calls ==> c.ReverseGeocode? && c.geocoder == g.baseUrl
  {
    SampleIndicesValidIff(pts);
    ViaAt(g, w, pts, SampleIndices(|pts|))
  }

  /** One reverse look-up of each point, in order. */
  function Lookups(url: string, pts: seq<LatLon>): (cs: seq<Call>)
    ensures |cs| == |pts|
    ensures forall k :: 0 <= k < |pts| ==> cs[k] == Call.ReverseGeocode(url, pts[k])
    ensures forall c :: c in cs ==> c.ReverseGeocode?
  {
    seq(|pts|, k requires 0 <= k < |pts| => Call.ReverseGeocode(url, pts[k]))
  }

  /** A route of one or two points makes the loop index past its end: every
      point is geocoded once, in order, and then `IndexError` is raised (at
      index 1 for one point, at index 2 for two). */
  lemma ViaListOverrunsShortRoute(g: Geocoder, w: World, pts: seq<LatLon>)
    requires 1 <= |pts| <= 2
    ensures ViaListAsWritten(g, w, pts).value == Raised(IndexOutOfRange)
    ensures ViaListAsWritten(g, w, pts).calls == Lookups(g.baseUrl, pts)
  {
    var a := pts[0];
    if |pts| == 1 {
      assert SampleIndices(1) == [0, 1, 2, 0];
      var tail := GeocodeAt(g, w, pts, [1, 2, 0]);
      assert tail == Traced(Raised(IndexOutOfRange), []);
      assert [0, 1, 2, 0][1..] == [1, 2, 0];
    } else {
      var b := pts[1];
      assert SampleIndices(2) == [0, 1, 2, 1];
      var tail := GeocodeAt(g, w, pts, [2, 1]);
      assert tail == Traced(Raised(IndexOutOfRange), []);
      assert [1, 2, 1][1..] == [2, 1];
      var mid := GeocodeAt(g, w, pts, [1, 2, 1]);
      assert mid == Traced(Raised(IndexOutOfRange), [Call.ReverseGeocode(g.baseUrl, b)]);
      assert [0, 1, 2, 1][1..] == [1, 2, 1];
    }
  }

  /** `_via_list(points)` with the clamped indices: never raises on a
      non-empty route, makes exactly four geocode calls, and agrees with
      the code as written whenever that does not raise. */
  function ViaList(g: Geocoder, w: World, pts: seq<LatLon>): (t: Traced<seq<string>>)
    requires |pts| >= 1
    ensures |t.calls| == 4 && forall c :: c in t.calls ==> c.ReverseGeocode?
    ensures NoDuplicates(t.value)
    ensures forall s :: s in t.value ==> s != ""
    ensures |pts| >= 3 ==> ViaListAsWritten(g, w, pts) == Traced(Ok(t.value), t.calls)
  {
    var idxs := ClampedSampleIndices(|pts|);
    var r := ViaAt(g, w, pts, idxs);
    assert forall k :: 0 <= k < |idxs| ==> ValidIndex(pts, idxs[k]);
    CollectSpec(Labels(GeocodeAt(g, w, pts, idxs).value.value));
    Traced(r.value.value, r.calls)
  }

  /** What the corridor contributes to the route facts. */
  datatype Survey = Survey(pois: seq<Poi>, via: seq<string>)

  /** The steps after a route is found, as written: the padded bounding box
      is searched for at most 40 POIs, then the via loop runs. A route
      without points makes `min()` raise before any request; a route of one
      or two points raises `IndexError` in the via loop, after the POI
      search. */
  function SurveyRoute(g: Geocoder, p: OverpassPoi, w: World, pts: seq<LatLon>): (t: Traced<Outcome<Survey>>)
    ensures t.value.Raised? <==> |pts| < 3
    ensures pts == [] ==> t == Traced(Raised(EmptySequence), [])
    ensures pts != [] && t.value.Raised? ==> t.value.error == IndexOutOfRange
    ensures pts != [] ==>
              |t.calls| >= 1 && t.calls[0] == Call.Overpass(p.url, PoiQuery(Within(Padded(Bbox(pts), Pad)), CorridorPoiLimit))
    ensures t.value.Ok? ==>
              && t.value.value.pois == Search(p, w, PoiQuery(Within(Padded(Bbox(pts), Pad)), CorridorPoiLimit)).value
              && t.value.value.via == ViaListAsWritten(g, w, pts).value.value
  {
    if pts == [] then Traced(Raised(EmptySequence), [])
    else
      var box := Padded(Bbox(pts), Pad);
      var pois := InBbox(p, w, box.minLat, box.minLon, box.maxLat, box.maxLon, CorridorPoiLimit);
      var via := ViaListAsWritten(g, w, pts);
      match via.value
      case Raised(e) => Traced(Raised(e), pois.calls + via.calls)
      case Ok(names) => Traced(Ok(Survey(pois.value, names)), pois.calls + via.calls)
  }

  /** On a route of one or two points the survey raises `IndexError` after
      the POI search and one look-up of each point, in order. */
  lemma SurveyShortRoute(g: Geocoder, p: OverpassPoi, w: World, pts: seq<LatLon>)
    requires 1 <= |pts| <= 2
    ensures var t := SurveyRoute(g, p, w, pts);
            && t.value == Raised(IndexOutOfRange)
            && t.calls == [Call.Overpass(p.url, PoiQuery(Within(Padded(Bbox(pts), Pad)), CorridorPoiLimit))]
                          + Lookups(g.baseUrl, pts)
  {
    ViaListOverrunsShortRoute(g, w, pts);
  }

  /** From three points on the survey succeeds: the POI search, then four
      look-ups, at most 40 POIs and a via list without repeats. */
  lemma SurveyLongRoute(g: Geocoder, p: OverpassPoi, w: World, pts: seq<LatLon>)
    requires |pts| >= 3
    ensures var t := SurveyRoute(g, p, w, pts);
            && t.value.Ok?
            && |t.calls| == 5
            && t.calls[0] == Call.Overpass(p.url, PoiQuery(Within(Padded(Bbox(pts), Pad)), CorridorPoiLimit))
            && (forall k :: 1 <= k < 5 ==> t.calls[k].ReverseGeocode?)
            && |t.value.value.pois| <= CorridorPoiLimit
            && NoDuplicates(t.value.value.via)
  {
    var t := SurveyRoute(g, p, w, pts);
    var fixed := ViaList(g, w, pts);
    assert t.calls[1..] == fixed.calls;
  }

  /** The survey as evidently intended, with the clamped via list: only an
      empty route raises; any other route gets the POI search and four
      look-ups, and from three points on it is the survey as written. */
  function SurveyRouteClamped(g: Geocoder, p: OverpassPoi, w: World, pts: seq<LatLon>): (t: Traced<Outcome<Survey>>)
    ensures t.value.Raised? <==> pts == []
    ensures |pts| >= 3 ==> t == SurveyRoute(g, p, w, pts)
    ensures t.value.Ok? ==>
              var box := Padded(Bbox(pts), Pad);
              && |t.calls| == 5
              && t.calls[0] == Call.Overpass(p.url, PoiQuery(Within(box), CorridorPoiLimit))
              && (forall k :: 1 <= k < 5 ==> t.calls[k].ReverseGeocode?)
              && NoDuplicates(t.value.value.via)
  {
    if pts == [] then Traced(Raised(EmptySequence), [])
    else
      var box := Padded(Bbox(pts), Pad);
      var pois := InBbox(p, w, box.minLat, box.minLon, box.maxLat, box.maxLon, CorridorPoiLimit);
      var via := ViaList(g, w, pts);
      assert (pois.calls + via.calls)[1..] == via.calls;
      Traced(Ok(Survey(pois.value, via.value)), pois.calls + via.calls)
  }
}
