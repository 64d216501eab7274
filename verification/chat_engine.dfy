/** `ChatEngine`: one point on the map and the user's question become a
    single generation over the place record and the POIs nearby. */
module ChatEngine {
  import opened Common
  import opened Text
  import opened Net
  import opened Geocoding
  import opened Pois
  import opened AbstractEngine

  /** The rules the chat engine layers on top of the caller's. */
  const ChatRules: seq<string> := [
    "You receive a verified location and a small list of nearby POIs.",
    "If the user did not specify a search radius, assume 3000 meters.",
    "Summarize the area, notable POIs, and give a few practical tips."]

  /** The positional argument `_build_facts` passes to `around` after the
      coordinate: the radius, in meters. */
  const ChatRadiusM: int := 30

  /** A chat engine: the shared engine part plus the two services it asks. */
  datatype Engine = Engine(base: BaseEngine, geocoder: Geocoder, poi: OverpassPoi)

  /** `ChatEngine(geocoder, poi, llm, prompt_rules=...)`: the caller's rules,
      none when the argument is `None` or empty, then the chat rules. */
  function New(geocoder: Geocoder, poi: OverpassPoi, llm: LlmService, promptRules: Option<seq<string>>): (e: Engine)
    ensures e.geocoder == geocoder && e.poi == poi && e.base.llm == llm
    ensures |e.base.rules| == |promptRules.GetOr([])| + |ChatRules|
    ensures e.base.rules[..|promptRules.GetOr([])|] == promptRules.GetOr([])
    ensures e.base.rules[|promptRules.GetOr([])|..] == ChatRules
  {
    Engine(BaseEngine(llm, promptRules.GetOr([]) + ChatRules), geocoder, poi)
  }

  /** The chat rules always close the rules block, after every rule the
      caller gave; with no caller rules they are the whole block. */
  lemma ChatRulesCloseBlock(geocoder: Geocoder, poi: OverpassPoi, llm: LlmService, given: seq<string>)
    ensures var e := New(geocoder, poi, llm, Some(given));
            && (given == [] ==> RulesBlock(e.base.rules) == RulesBlock(ChatRules))
            && (given != [] ==> RulesBlock(e.base.rules) == RulesBlock(given) + "\n" + RulesBlock(ChatRules))
  {
    if given == [] {
      assert given + ChatRules == ChatRules;
    } else {
      RulesBlockAppend(given, ChatRules);
    }
  }

  /** The facts dictionary: `location`, `pois`, `user_prompt`. */
  datatype ChatFacts = ChatFacts(location: PlaceInfo, pois: seq<Poi>, userPrompt: string)

  /** `_build_facts(loc, user_prompt)`: a reverse look-up of the point, then
      one POI search around it. `limit` is the argument the source leaves
      out of its `around` call. */
  function BuildFacts(e: Engine, w: World, loc: LatLon, userPrompt: string, limit: int): (t: Traced<ChatFacts>)
    ensures t.calls == [ReverseGeocode(e.geocoder.baseUrl, loc),
                        Overpass(e.poi.url, PoiQuery(PoiRegion.Around(loc, ChatRadiusM), limit))]
    ensures t.value.location == PlaceOf(w.nominatim(e.geocoder.baseUrl, loc), loc)
    ensures t.value.pois == Normalize(w.overpass(e.poi.url, PoiQuery(PoiRegion.Around(loc, ChatRadiusM), limit)), limit)
    ensures 0 <= limit ==> |t.value.pois| <= limit
    ensures t.value.userPrompt == userPrompt
  {
    var place := Reverse(e.geocoder, w, loc);
    var pois := Pois.Around(e.poi, w, loc.lat, loc.lon, ChatRadiusM, limit);
    Traced(ChatFacts(place.value, pois.value, userPrompt), place.calls + pois.calls)
  }

  /** `run(loc, user_prompt)`: the two look-ups, then exactly one generation
      whose prompt holds the serialised facts; its answer is returned as is.
      `dumps` stands for `json.dumps`. */
  function Run(e: Engine, w: World, loc: LatLon, userPrompt: string, limit: int, dumps: ChatFacts -> string)
    : (t: Traced<string>)
    ensures var f := BuildFacts(e, w, loc, userPrompt, limit);
            && |t.calls| == 3
            && t.calls[..2] == f.calls
            && t.calls[2] == Call.Generate(e.base.llm, BuildPrompt(e.base.rules, dumps(f.value)))
            && t.value == w.generate(e.base.llm, t.calls[2].prompt)
  {
    var facts := BuildFacts(e, w, loc, userPrompt, limit);
    var answer := AbstractEngine.Generate(e.base, w, dumps(facts.value));
    assert (facts.calls + answer.calls)[..2] == facts.calls;
    Traced(answer.value, facts.calls + answer.calls)
  }

  /** The question reaches the model: when serialisation loses nothing,
      two different questions about the same point send different prompts. */
  lemma UserPromptReachesModel(e: Engine, w: World, loc: LatLon, p1: string, p2: string, limit: int,
                               dumps: ChatFacts -> string)
    requires forall a, b :: dumps(a) == dumps(b) ==> a == b
    requires p1 != p2
    ensures Run(e, w, loc, p1, limit, dumps).calls[2] != Run(e, w, loc, p2, limit, dumps).calls[2]
  {
    var f1 := BuildFacts(e, w, loc, p1, limit).value;
    var f2 := BuildFacts(e, w, loc, p2, limit).value;
    assert f1.userPrompt != f2.userPrompt;
    assert dumps(f1) != dumps(f2);
    if BuildPrompt(e.base.rules, dumps(f1)) == BuildPrompt(e.base.rules, dumps(f2)) {
      BuildPromptInjective(e.base.rules, dumps(f1), dumps(f2));
    }
  }
}
