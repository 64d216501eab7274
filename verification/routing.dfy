/** `OSRMRouting.route` and `ORSRouting.route`: a (start, end) pair to a
    driving route or `None`. Coordinates are (lat, lon) inside the program;
    both services speak (lon, lat) on the wire. The legacy `_route_osrm`,
    `_route_ors` and their `or`-chain are modelled here too. */
module Routing {
  import opened Common
  import opened Net

  datatype Provider = Osrm | Ors {
    /** The `provider` tag stored in the result. */
    function Tag(): string {
      match this
      case Osrm => "osrm"
      case Ors => "ors"
    }
  }

  /** The answer both route pipelines give when no provider finds a route. */
  const NoRouteMessage: string := "No drivable route was found between the selected points."

  /** The route dictionary: `distance_m`, `duration_s`, `points`, `provider`. */
  datatype RouteResult = RouteResult(distanceM: real, durationS: real, points: seq<LatLon>, provider: Provider)

  /** The router instance an engine holds. */
  datatype Router = OsrmRouter | OrsRouter(apiKey: string)

  /** The coordinate path of the OSRM URL, `{slon},{slat};{elon},{elat}`. */
  function OsrmPath(start: LatLon, end: LatLon): (path: seq<real>)
    ensures |path| == 4
  {
    [start.lon, start.lat, end.lon, end.lat]
  }

  /** Reading the OSRM path back as two (lat, lon) endpoints. */
  function EndpointsOfPath(path: seq<real>): (LatLon, LatLon)
    requires |path| == 4
  {
    (LatLon(path[1], path[0]), LatLon(path[3], path[2]))
  }

  /** The OSRM path lists the start then the end, each longitude first. */
  lemma OsrmPathRoundTrip(start: LatLon, end: LatLon)
    ensures EndpointsOfPath(OsrmPath(start, end)) == (start, end)
    ensures OsrmPath(start, end)[0] == start.lon && OsrmPath(start, end)[3] == end.lat
  {
  }

  /** `OSRMRouting.route`: no route when `routes` is missing or empty,
      otherwise the first route tagged "osrm". */
  function OsrmRoute(w: World, start: LatLon, end: LatLon): (t: Traced<Option<RouteResult>>)
    ensures t.calls == [OsrmGet(OsrmPath(start, end))]
    ensures var reply := w.osrm(OsrmPath(start, end));
            t.value.None? <==> (reply.routes.None? || reply.routes.value == [])
    ensures t.value.Some? ==>
              var rt := w.osrm(OsrmPath(start, end)).routes.value[0];
              t.value.value == RouteResult(rt.distance, rt.duration, rt.geometry, Osrm)
  {
    var reply := w.osrm(OsrmPath(start, end));
    var value :=
      if reply.routes.None? || reply.routes.value == [] then None
      else
        var rt := reply.routes.value[0];
        Some(RouteResult(rt.distance, rt.duration, rt.geometry, Osrm));
    Traced(value, [OsrmGet(OsrmPath(start, end))])
  }

  /** The ORS request body: `[[slon, slat], [elon, elat]]`. Read back pair
      by pair, longitude first, it gives the start then the end. */
  function OrsBody(start: LatLon, end: LatLon): (b: seq<seq<real>>)
    ensures |b| == 2 && |b[0]| == 2 && |b[1]| == 2
    ensures LatLon(b[0][1], b[0][0]) == start && LatLon(b[1][1], b[1][0]) == end
  {
    [[start.lon, start.lat], [end.lon, end.lat]]
  }

  /** `[(lat, lon) for lon, lat in coords]` */
  function Transpose(coords: seq<(real, real)>): (pts: seq<LatLon>)
    ensures |pts| == |coords|
    ensures forall i :: 0 <= i < |coords| ==> pts[i] == LatLon(coords[i].1, coords[i].0)
  {
    if coords == [] then [] else [LatLon(coords[0].1, coords[0].0)] + Transpose(coords[1..])
  }

  /** Back to the wire order. */
  function ToWire(pts: seq<LatLon>): (coords: seq<(real, real)>)
    ensures |coords| == |pts|
  {
    if pts == [] then [] else [(pts[0].lon, pts[0].lat)] + ToWire(pts[1..])
  }

  /** Transposition loses nothing: going back to `[lon, lat]` restores the
      reply's coordinates. */
  lemma {:induction false} TransposeRoundTrip(coords: seq<(real, real)>)
    ensures ToWire(Transpose(coords)) == coords
  {
    if coords != [] {
      TransposeRoundTrip(coords[1..]);
      assert Transpose(coords)[1..] == Transpose(coords[1..]);
    }
  }

  /** `ORSRouting.__init__`: an explicit non-empty key wins over the
      `ORS_API_KEY` environment value, which defaults to "". */
  function OrsKey(explicit: Option<string>, env: map<string, string>): (key: string)
    ensures Truthy(explicit) ==> key == explicit.value
    ensures !Truthy(explicit) && "ORS_API_KEY" in env ==> key == env["ORS_API_KEY"]
    ensures !Truthy(explicit) && "ORS_API_KEY" !in env ==> key == ""
  {
    if Truthy(explicit) then explicit.value
    else if "ORS_API_KEY" in env then env["ORS_API_KEY"] else ""
  }

  /** `ORSRouting.route`: without a key nothing is sent and there is no
      route; with one, the first feature's points are transposed and the
      first segment's distance and duration are kept, tagged "ors". */
  function OrsRoute(apiKey: string, w: World, start: LatLon, end: LatLon): (t: Traced<Option<RouteResult>>)
    ensures apiKey == "" ==> t.value.None? && t.calls == []
    ensures apiKey != "" ==> t.calls == [OrsPost(apiKey, OrsBody(start, end))] && t.value.Some?
    ensures t.value.Some? ==>
              var reply := w.ors(apiKey, OrsBody(start, end));
              && t.value.value.provider == Ors
              && t.value.value.distanceM == reply.distance
              && t.value.value.durationS == reply.duration
              && ToWire(t.value.value.points) == reply.coordinates
  {
    if apiKey == "" then Traced(None, [])
    else
      var reply := w.ors(apiKey, OrsBody(start, end));
      TransposeRoundTrip(reply.coordinates);
      Traced(Some(RouteResult(reply.distance, reply.duration, Transpose(reply.coordinates), Ors)),
             [OrsPost(apiKey, OrsBody(start, end))])
  }

  /** `router.route(start, end)` for whichever router an engine holds. */
  function RouteWith(r: Router, w: World, start: LatLon, end: LatLon): (t: Traced<Option<RouteResult>>)
    ensures r.OsrmRouter? ==> t == OsrmRoute(w, start, end)
    ensures r.OrsRouter? ==> t == OrsRoute(r.apiKey, w, start, end)
  {
    match r
    case OsrmRouter => OsrmRoute(w, start, end)
    case OrsRouter(key) => OrsRoute(key, w, start, end)
  }

  /** A single router never consults the other provider. */
  lemma RouterHasNoFallback(r: Router, w: World, start: LatLon, end: LatLon)
    ensures r.OsrmRouter? ==> forall c :: c in RouteWith(r, w, start, end).calls ==> c.OsrmGet?
    ensures r.OrsRouter? ==> forall c :: c in RouteWith(r, w, start, end).calls ==> c.OrsPost?
    ensures r.OrsRouter? && r.apiKey == "" ==> RouteWith(r, w, start, end).value.None?
  {
  }

  /** `_route_ors(start, end) or _route_osrm(start, end)`: ORS first, OSRM
      only when ORS gave no route. */
  function FallbackRoute(orsKey: string, w: World, start: LatLon, end: LatLon): (t: Traced<Option<RouteResult>>)
    ensures var ors := OrsRoute(orsKey, w, start, end);
            var osrm := OsrmRoute(w, start, end);
            && (ors.value.Some? ==> t == ors)
            && (ors.value.None? ==> t == Traced(osrm.value, ors.calls + osrm.calls))
  {
    var ors := OrsRoute(orsKey, w, start, end);
    if ors.value.Some? then ors
    else
      var osrm := OsrmRoute(w, start, end);
      Traced(osrm.value, ors.calls + osrm.calls)
  }

  /** ORS is asked first whenever a key is set; OSRM is asked only when ORS
      cannot answer, and then last; with no key, OSRM alone decides. */
  lemma FallbackOrder(orsKey: string, w: World, start: LatLon, end: LatLon)
    ensures var t := FallbackRoute(orsKey, w, start, end);
            && (orsKey != "" ==> t.calls[0] == OrsPost(orsKey, OrsBody(start, end)))
            && (orsKey != "" ==> t.calls == [OrsPost(orsKey, OrsBody(start, end))] && t.value.value.provider == Ors)
            && (orsKey == "" ==> t == OsrmRoute(w, start, end))
  {
  }
}
