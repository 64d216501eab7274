/** The outside world as the program sees it: the service instances it holds,
    the requests it sends, the replies it reads, and the trace of calls one
    request makes. Transport (URLs, headers, timeouts, status handling other
    than Overpass's) is not modelled; each service is a function from request
    to decoded reply. */
module Net {
  import opened Common

  /** `NominatimGeocoder(base_url, headers)`: only the base URL identifies it. */
  datatype Geocoder = Geocoder(baseUrl: string)

  /** `OverpassPOI(url)` */
  datatype OverpassPoi = OverpassPoi(url: string)

  /** `OllamaLLMService(base_url, model)` */
  datatype LlmService = LlmService(baseUrl: string, model: string)

  /** A latitude/longitude rectangle in the order the program passes it:
      south, west, north, east. */
  datatype Box = Box(minLat: real, minLon: real, maxLat: real, maxLon: real)

  /** The region an Overpass query covers. */
  datatype PoiRegion =
    | Around(center: LatLon, radiusM: int)
    | Within(box: Box)

  /** The parameters an Overpass query is built from; the query text itself
      (Overpass QL) is not modelled. */
  datatype PoiQuery = PoiQuery(region: PoiRegion, limit: int)

  /** A decoded `/reverse?format=jsonv2` reply. `address` is `None` when the
      key is absent; lat/lon are `None` when absent. */
  datatype NominatimReply = NominatimReply(
    displayName: Option<string>,
    address: Option<map<string, string>>,
    lat: Option<real>,
    lon: Option<real>)

  /** One entry of Overpass's `elements` array. */
  datatype Element = Element(
    kind: Option<string>,
    lat: Option<real>,
    lon: Option<real>,
    tags: Option<map<string, string>>)

  /** HTTP status and the decoded `elements` array (`None` when absent). */
  datatype OverpassReply = OverpassReply(status: int, elements: Option<seq<Element>>)

  /** One OSRM route, its polyline already decoded to (lat, lon) points. */
  datatype OsrmRoute = OsrmRoute(distance: real, duration: real, geometry: seq<LatLon>)

  /** A decoded OSRM reply; `routes` is `None` when the key is absent. */
  datatype OsrmReply = OsrmReply(routes: Option<seq<OsrmRoute>>)

  /** The first feature of an ORS directions reply: its `[lon, lat]`
      coordinates and its first segment's distance and duration. */
  datatype OrsReply = OrsReply(coordinates: seq<(real, real)>, distance: real, duration: real)

  /** A decoded `/api/generate` reply; `response` is `None` when the body is
      `null` or has no such key. */
  datatype GenerateReply = GenerateReply(response: Option<string>)

  /** One outbound call, in the order it is made. */
  datatype Call =
    | ReverseGeocode(geocoder: string, at: LatLon)
    | Overpass(url: string, query: PoiQuery)
    | OsrmGet(path: seq<real>)
    | OrsPost(apiKey: string, body: seq<seq<real>>)
    | OllamaPost(baseUrl: string, model: string, prompt: string)
    | Generate(llm: LlmService, prompt: string)

  /** The replies every service would give to every request. `generate` is
      the engines' `llm.generate(prompt)`, whose implementation is not part of
      this model. */
  datatype World = World(
    nominatim: (string, LatLon) -> NominatimReply,
    overpass: (string, PoiQuery) -> OverpassReply,
    osrm: seq<real> -> OsrmReply,
    ors: (string, seq<seq<real>>) -> OrsReply,
    ollama: (string, string, string) -> GenerateReply,
    generate: (LlmService, string) -> string)

  /** A value together with the calls made to compute it. */
  datatype Traced<+T> = Traced(value: T, calls: seq<Call>)
}
