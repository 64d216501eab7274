/** `OverpassPOI.around` and `OverpassPOI.in_bbox`: an Overpass reply reduced
    to a list of point-of-interest records. The legacy `_pois_around` and
    `_pois_bbox` reduce replies identically and share this model. */
module Pois {
  import opened Common
  import opened Net

  /** One output record: `{"lat", "lon", "name", "tags"}`. */
  datatype Poi = Poi(lat: Option<real>, lon: Option<real>, name: Option<string>, tags: map<string, string>)

  predicate IsNode(e: Element) {
    e.kind == Some("node")
  }

  /** The record built from one element: the tags default to an empty
      mapping and the name is the `name` tag, if any. */
  function PoiOf(e: Element): (p: Poi)
    ensures p.lat == e.lat && p.lon == e.lon
    ensures e.tags.None? ==> p.tags == map[] && p.name.None?
    ensures e.tags.Some? ==> p.tags == e.tags.value
    ensures p.name.Some? <==> "name" in p.tags
    ensures p.name.Some? ==> p.name.value == p.tags["name"]
  {
    var tags := e.tags.GetOr(map[]);
    Poi(e.lat, e.lon, if "name" in tags then Some(tags["name"]) else None, tags)
  }

  /** The loop over `elements`: non-nodes are skipped, the rest mapped. */
  function KeepNodes(els: seq<Element>): (r: seq<Poi>)
    ensures |r| <= |els|
  {
    if els == [] then []
    else (if IsNode(els[0]) then [PoiOf(els[0])] else []) + KeepNodes(els[1..])
  }

  /** The filter is a homomorphism on concatenation, so kept elements keep
      their relative order and nothing is reordered or merged. */
  lemma {:induction false} KeepNodesAppend(a: seq<Element>, b: seq<Element>)
    ensures KeepNodes(a + b) == KeepNodes(a) + KeepNodes(b)
  {
    if a != [] {
      assert (a + b)[1..] == a[1..] + b;
      KeepNodesAppend(a[1..], b);
    } else {
      assert a + b == b;
    }
  }

  /** On a single element the filter keeps exactly the nodes. */
  lemma KeepNodesSingle(e: Element)
    ensures KeepNodes([e]) == if IsNode(e) then [PoiOf(e)] else []
  {
  }

  /** Every kept record comes from a node element, and every node element
      yields a record. */
  lemma {:induction false} KeepNodesOnlyNodes(els: seq<Element>)
    ensures forall p :: p in KeepNodes(els) <==> exists e :: e in els && IsNode(e) && p == PoiOf(e)
  {
    if els != [] {
      KeepNodesOnlyNodes(els[1..]);
      assert els == [els[0]] + els[1..];
      forall e | e in els ensures e == els[0] || e in els[1..] { }
    }
  }

  /** Status check, filter and truncation: `out[:limit]`. */
  function Normalize(reply: OverpassReply, limit: int): (r: seq<Poi>)
    ensures reply.status != 200 ==> r == []
    ensures reply.status == 200 ==> r <= KeepNodes(reply.elements.GetOr([]))
    ensures 0 <= limit ==> |r| <= limit
    ensures reply.status == 200 && 0 <= limit ==>
              |r| == Min(limit, |KeepNodes(reply.elements.GetOr([]))|)
  {
    if reply.status != 200 then [] else SliceTo(KeepNodes(reply.elements.GetOr([])), limit)
  }

  /** One Overpass request for a region and a limit. */
  function Search(p: OverpassPoi, w: World, q: PoiQuery): (t: Traced<seq<Poi>>)
    ensures t.calls == [Call.Overpass(p.url, q)]
    ensures 0 <= q.limit ==> |t.value| <= q.limit
  {
    Traced(Normalize(w.overpass(p.url, q), q.limit), [Call.Overpass(p.url, q)])
  }

  /** `poi.around(lat, lon, radius_m, limit)` */
  function Around(p: OverpassPoi, w: World, lat: real, lon: real, radiusM: int, limit: int): (t: Traced<seq<Poi>>)
    ensures t.calls == [Call.Overpass(p.url, PoiQuery(PoiRegion.Around(LatLon(lat, lon), radiusM), limit))]
    ensures 0 <= limit ==> |t.value| <= limit
  {
    Search(p, w, PoiQuery(PoiRegion.Around(LatLon(lat, lon), radiusM), limit))
  }

  /** `poi.in_bbox(min_lat, min_lon, max_lat, max_lon, limit)` */
  function InBbox(p: OverpassPoi, w: World, minLat: real, minLon: real, maxLat: real, maxLon: real, limit: int): (t: Traced<seq<Poi>>)
    ensures t.calls == [Call.Overpass(p.url, PoiQuery(Within(Box(minLat, minLon, maxLat, maxLon)), limit))]
    ensures 0 <= limit ==> |t.value| <= limit
  {
    Search(p, w, PoiQuery(Within(Box(minLat, minLon, maxLat, maxLon)), limit))
  }

  /** The two searches differ only in the region they send: given the same
      reply they return the same records. */
  lemma AroundAndInBboxAgree(p: OverpassPoi, w: World, lat: real, lon: real, radiusM: int,
                             b: Box, limit: int)
    requires w.overpass(p.url, PoiQuery(PoiRegion.Around(LatLon(lat, lon), radiusM), limit))
          == w.overpass(p.url, PoiQuery(Within(b), limit))
    ensures Around(p, w, lat, lon, radiusM, limit).value
         == InBbox(p, w, b.minLat, b.minLon, b.maxLat, b.maxLon, limit).value
  {
  }
}
