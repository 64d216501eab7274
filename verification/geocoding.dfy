/** `NominatimGeocoder.reverse`: a coordinate to a place record. The legacy
    `reverse_geocode` of the module-level pipeline maps the reply the same
    way and is modelled by the same function. */
module Geocoding {
  import opened Common
  import opened Net

  /** The eight-key record `reverse` returns. */
  datatype PlaceInfo = PlaceInfo(
    displayName: Option<string>,
    road: Option<string>,
    city: Option<string>,
    state: Option<string>,
    country: Option<string>,
    countryCode: Option<string>,
    lat: real,
    lon: real)

  /** `addr.get(key)` */
  function Field(addr: map<string, string>, key: string): Option<string> {
    if key in addr then Some(addr[key]) else None
  }

  /** The three address fields a city name is taken from, in priority order. */
  function CityCandidates(addr: map<string, string>): seq<Option<string>> {
    [Field(addr, "city"), Field(addr, "town"), Field(addr, "village")]
  }

  /** The reply-to-record mapping. A missing `address` object reads as an
      empty one; a missing lat/lon falls back to the queried coordinate. */
  function PlaceOf(reply: NominatimReply, at: LatLon): (p: PlaceInfo)
    ensures p.displayName == reply.displayName
    ensures p.lat == (if reply.lat.Some? then reply.lat.value else at.lat)
    ensures p.lon == (if reply.lon.Some? then reply.lon.value else at.lon)
    ensures reply.address.None? ==>
              p.road.None? && p.city.None? && p.state.None? && p.country.None? && p.countryCode.None?
    ensures reply.address.Some? ==>
              p.road == Field(reply.address.value, "road")
              && p.state == Field(reply.address.value, "state")
              && p.country == Field(reply.address.value, "country")
              && p.countryCode == Field(reply.address.value, "country_code")
  {
    var addr := reply.address.GetOr(map[]);
    PlaceInfo(
      reply.displayName,
      Field(addr, "road"),
      OrChain(CityCandidates(addr)),
      Field(addr, "state"),
      Field(addr, "country"),
      Field(addr, "country_code"),
      reply.lat.GetOr(at.lat),
      reply.lon.GetOr(at.lon))
  }

  /** The city is the first of city, town, village that is a non-empty
      string; it is empty or absent only when all three are. */
  lemma CityIsFirstTruthy(reply: NominatimReply, at: LatLon)
    requires reply.address.Some?
    ensures var cs := CityCandidates(reply.address.value);
            var p := PlaceOf(reply, at);
            && (Truthy(p.city) <==> Truthy(cs[0]) || Truthy(cs[1]) || Truthy(cs[2]))
            && (Truthy(cs[0]) ==> p.city == cs[0])
            && (!Truthy(cs[0]) && Truthy(cs[1]) ==> p.city == cs[1])
            && (!Truthy(cs[0]) && !Truthy(cs[1]) ==> p.city == cs[2])
  {
    var cs := CityCandidates(reply.address.value);
    OrChainPicksFirstTruthy(cs);
    if Truthy(cs[0]) || Truthy(cs[1]) || Truthy(cs[2]) {
      assert Truthy(OrChain(cs));
    }
  }

  /** `geocoder.reverse(lat, lon)`: one request, then the mapping. */
  function Reverse(g: Geocoder, w: World, at: LatLon): (t: Traced<PlaceInfo>)
    ensures t.calls == [Call.ReverseGeocode(g.baseUrl, at)]
  {
    Traced(PlaceOf(w.nominatim(g.baseUrl, at), at), [Call.ReverseGeocode(g.baseUrl, at)])
  }
}
