/** The legacy module-level pipeline of `engines/llm_engine.py`: settings read
    from the environment at import, the structured-JSON prompt to Ollama, and
    the two public entry points `chat_recommendation` and
    `route_recommendation`. Facts are serialised by a JSON encoder and the
    reply is decoded by a JSON decoder; both are parameters. */
module LlmEngine {
  import opened Common
  import opened Text
  import opened Net
  import opened Geocoding
  import opened Pois
  import opened Routing
  import opened Corridor
  import opened Narration

  /** The module-level constants read with `os.getenv(name, default)`. */
  datatype LegacySettings = LegacySettings(
    ollamaUrl: string,
    model: string,
    router: string,
    orsKey: string,
    nominatimUrl: string,
    overpassUrl: string)

  const DefaultOllamaUrl: string := "http://localhost:11434"
  const DefaultModel: string := "llama3.1:8b"
  const DefaultRouter: string := "osrm"
  const DefaultNominatimUrl: string := "https://nominatim.openstreetmap.org"
  const DefaultOverpassUrl: string := "https://overpass-api.de/api/interpreter"

  /** `os.getenv(name, default)`: a variable that is set wins even when it is
      empty. */
  function GetEnv(env: map<string, string>, name: string, default: string): string {
    if name in env then env[name] else default
  }

  /** The settings as the module computes them at import. `ROUTER` is read
      and lower-cased but nothing uses it. */
  function LegacyConfig(env: map<string, string>): (s: LegacySettings)
    ensures "OLLAMA_URL" in env ==> s.ollamaUrl == env["OLLAMA_URL"]
    ensures "OLLAMA_URL" !in env ==> s.ollamaUrl == DefaultOllamaUrl
    ensures "LLM_MODEL" in env ==> s.model == env["LLM_MODEL"]
    ensures "LLM_MODEL" !in env ==> s.model == DefaultModel
    ensures "ROUTER" in env ==> s.router == AsciiLower(env["ROUTER"])
    ensures "ORS_API_KEY" in env ==> s.orsKey == env["ORS_API_KEY"]
    ensures "ORS_API_KEY" !in env ==> s.orsKey == ""
    ensures "NOMINATIM_URL" in env ==> s.nominatimUrl == env["NOMINATIM_URL"]
    ensures "NOMINATIM_URL" !in env ==> s.nominatimUrl == DefaultNominatimUrl
    ensures "OVERPASS_URL" in env ==> s.overpassUrl == env["OVERPASS_URL"]
    ensures "OVERPASS_URL" !in env ==> s.overpassUrl == DefaultOverpassUrl
  {
    LegacySettings(
      GetEnv(env, "OLLAMA_URL", DefaultOllamaUrl),
      GetEnv(env, "LLM_MODEL", DefaultModel),
      AsciiLower(GetEnv(env, "ROUTER", DefaultRouter)),
      GetEnv(env, "ORS_API_KEY", ""),
      GetEnv(env, "NOMINATIM_URL", DefaultNominatimUrl),
      GetEnv(env, "OVERPASS_URL", DefaultOverpassUrl))
  }

  /** With nothing set, the pipeline talks to a local Ollama and the public
      OpenStreetMap services, and has no ORS key, so it routes with OSRM. */
  lemma LegacyDefaults(w: World, start: LatLon, end: LatLon)
    ensures LegacyConfig(map[]).ollamaUrl == DefaultOllamaUrl
    ensures LegacyConfig(map[]).model == DefaultModel
    ensures LegacyConfig(map[]).nominatimUrl == DefaultNominatimUrl
    ensures LegacyConfig(map[]).overpassUrl == DefaultOverpassUrl
    ensures FallbackRoute(LegacyConfig(map[]).orsKey, w, start, end) == Routing.OsrmRoute(w, start, end)
  {
    FallbackOrder(LegacyConfig(map[]).orsKey, w, start, end);
  }

  /** The first line of each system prompt. */
  const RouteIntro: string := "You are GeoCopilot. You receive verified routing facts and POIs.\n"
  const PointIntro: string := "You are GeoCopilot. You receive a verified location and nearby POIs.\n"

  /** The JSON-only instructions both system prompts end with. */
  const StrictJson: string :=
    "Return STRICT JSON with keys: summary, highlights, practical, border_notes.\n"
    + "English only."

  const SystemRoute: string :=
    RouteIntro
    + "Do NOT invent coordinates, distances, or times. If data is missing, say so.\n"
    + StrictJson

  const SystemPoint: string := PointIntro + StrictJson

  /** The instructions between the system prompt and the facts. */
  const JsonInstructions: string :=
    "\n\nUse only the provided JSON FACTS.\n"
    + "- summary: 1\U{2013}2 sentences.\n"
    + "- highlights: list of {name, why, approx_km_from_start?}.\n"
    + "- practical: list of short tips.\n"
    + "- border_notes: null or short string.\n\n"
    + "FACTS = "

  const ReturnOnly: string := "\n\nReturn ONLY the JSON object."

  /** The `_ollama_generate` prompt: system prompt, instructions, the facts,
      and the closing request. */
  function NarrativePrompt(system: string, facts: string): (p: string)
    ensures |p| == |system| + |JsonInstructions| + |facts| + |ReturnOnly|
  {
    system + JsonInstructions + facts + ReturnOnly
  }

  /** The four parts sit in order, each at its own offset: the system prompt
      leads, the facts sit between the instructions and the closing line. */
  lemma NarrativePromptLayout(system: string, facts: string)
    ensures var p := NarrativePrompt(system, facts);
            && p[..|system|] == system
            && p[|system|..|system| + |JsonInstructions|] == JsonInstructions
            && p[|system| + |JsonInstructions|..|p| - |ReturnOnly|] == facts
            && p[|p| - |ReturnOnly|..] == ReturnOnly
            && system <= p
  {
  }

  /** Under one system prompt, different facts give different prompts. */
  lemma NarrativePromptInjective(system: string, f1: string, f2: string)
    requires NarrativePrompt(system, f1) == NarrativePrompt(system, f2)
    ensures f1 == f2
  {
    NarrativePromptLayout(system, f1);
    NarrativePromptLayout(system, f2);
  }

  /** The route and the point prompts never coincide: the system prompts
      differ within their first line. */
  lemma SystemPromptsDiffer(f1: string, f2: string)
    ensures NarrativePrompt(SystemRoute, f1) != NarrativePrompt(SystemPoint, f2)
  {
    var p, q := NarrativePrompt(SystemRoute, f1), NarrativePrompt(SystemPoint, f2);
    NarrativePromptLayout(SystemRoute, f1);
    NarrativePromptLayout(SystemPoint, f2);
    assert RouteIntro[32] == 'v' && PointIntro[32] == 'a';
    assert SystemRoute[32] == RouteIntro[32];
    assert SystemPoint[32] == PointIntro[32];
    assert p[32] == SystemRoute[32];
    assert q[32] == SystemPoint[32];
  }

  /** `_ollama_generate(system_prompt, facts)`: one request with the
      configured URL and model; the stripped reply is decoded, or degraded to
      a summary-only structure when it does not decode. */
  function OllamaGenerate(cfg: LegacySettings, w: World, system: string, facts: string,
                          parse: string -> Option<Narrative>): (t: Traced<Narrative>)
    ensures t.calls == [OllamaPost(cfg.ollamaUrl, cfg.model, NarrativePrompt(system, facts))]
    ensures var txt := Strip(w.ollama(cfg.ollamaUrl, cfg.model, NarrativePrompt(system, facts)).response.GetOr(""));
            && (parse(txt).Some? ==> t.value == parse(txt).value)
            && (parse(txt).None? ==> t.value == Degraded(txt))
  {
    var prompt := NarrativePrompt(system, facts);
    var txt := Strip(w.ollama(cfg.ollamaUrl, cfg.model, prompt).response.GetOr(""));
    Traced(ParseReply(txt, parse), [OllamaPost(cfg.ollamaUrl, cfg.model, prompt)])
  }

  /** The result limit of `chat_recommendation`. */
  const PointPoiLimit: int := 30

  /** The facts `chat_recommendation` sends. */
  datatype PointFacts = PointFacts(location: PlaceInfo, radiusM: int, pois: seq<Poi>, userPrompt: string)

  /** The facts of `chat_recommendation`: the geocoded point, the radius,
      at most 30 POIs around the point, and the user's prompt. */
  function PointFactsOf(cfg: LegacySettings, w: World, at: LatLon, userPrompt: string, radiusM: int)
    : (t: Traced<PointFacts>)
    ensures t.calls == [ReverseGeocode(cfg.nominatimUrl, at),
                        Call.Overpass(cfg.overpassUrl, PoiQuery(PoiRegion.Around(at, radiusM), PointPoiLimit))]
    ensures t.value.location == PlaceOf(w.nominatim(cfg.nominatimUrl, at), at)
    ensures t.value.pois == Search(OverpassPoi(cfg.overpassUrl), w, PoiQuery(PoiRegion.Around(at, radiusM), PointPoiLimit)).value
    ensures |t.value.pois| <= PointPoiLimit
    ensures t.value.radiusM == radiusM && t.value.userPrompt == userPrompt
  {
    var loc := Reverse(Geocoder(cfg.nominatimUrl), w, at);
    var pois := Pois.Around(OverpassPoi(cfg.overpassUrl), w, at.lat, at.lon, radiusM, PointPoiLimit);
    Traced(PointFacts(loc.value, radiusM, pois.value, userPrompt), loc.calls + pois.calls)
  }

  /** `chat_recommendation(location, user_prompt, radius_m)`: geocode, search
      around the point, then one generation with the point system prompt,
      rendered as text. */
  function ChatRecommendation(cfg: LegacySettings, w: World, at: LatLon, userPrompt: string, radiusM: int,
                              dumps: PointFacts -> string, parse: string -> Option<Narrative>): (t: Traced<string>)
    ensures var facts := PointFactsOf(cfg, w, at, userPrompt, radiusM);
            && t.calls == facts.calls + [OllamaPost(cfg.ollamaUrl, cfg.model, NarrativePrompt(SystemPoint, dumps(facts.value)))]
            && t.value == AsText(OllamaGenerate(cfg, w, SystemPoint, dumps(facts.value), parse).value)
    ensures Trimmed(t.value)
  {
    var facts := PointFactsOf(cfg, w, at, userPrompt, radiusM);
    var narr := OllamaGenerate(cfg, w, SystemPoint, dumps(facts.value), parse);
    Traced(AsText(narr.value), facts.calls + narr.calls)
  }

  /** The facts `route_recommendation` sends; unlike the engine's, they carry
      the user's prompt and no provider. */
  datatype LegacyRouteFacts = LegacyRouteFacts(
    start: PlaceInfo,
    end: PlaceInfo,
    distanceM: real,
    durationS: real,
    via: seq<string>,
    pois: seq<Poi>,
    userPrompt: string)

  /** The facts of `route_recommendation`, after both endpoints are
      geocoded and ORS then OSRM asked for a route: `Ok(None)` when no
      provider finds one; a route without points makes `min()` raise. */
  function LegacyFactsOf(cfg: LegacySettings, w: World, start: LatLon, end: LatLon, userPrompt: string)
    : (t: Traced<Outcome<Option<LegacyRouteFacts>>>)
    ensures var route := FallbackRoute(cfg.orsKey, w, start, end);
            var ends := [ReverseGeocode(cfg.nominatimUrl, start), ReverseGeocode(cfg.nominatimUrl, end)];
            && (route.value.None? ==> t == Traced(Ok(None), ends + route.calls))
            && (route.value.Some? ==>
                  var survey := SurveyRoute(Geocoder(cfg.nominatimUrl), OverpassPoi(cfg.overpassUrl), w,
                                            route.value.value.points);
                  && t.calls == ends + route.calls + survey.calls
                  && (survey.value.Raised? ==> t.value == Raised(survey.value.error))
                  && (survey.value.Ok? ==>
                        t.value == Ok(Some(LegacyRouteFacts(
                          Reverse(Geocoder(cfg.nominatimUrl), w, start).value,
                          Reverse(Geocoder(cfg.nominatimUrl), w, end).value,
                          route.value.value.distanceM, route.value.value.durationS,
                          survey.value.value.via, survey.value.value.pois, userPrompt)))))
  {
    var g := Geocoder(cfg.nominatimUrl);
    var s := Reverse(g, w, start);
    var e := Reverse(g, w, end);
    var route := FallbackRoute(cfg.orsKey, w, start, end);
    var head := [ReverseGeocode(cfg.nominatimUrl, start), ReverseGeocode(cfg.nominatimUrl, end)] + route.calls;
    match route.value
    case None => Traced(Ok(None), head)
    case Some(r) =>
      var survey := SurveyRoute(g, OverpassPoi(cfg.overpassUrl), w, r.points);
      match survey.value
      case Raised(err) => Traced(Raised(err), head + survey.calls)
      case Ok(sv) =>
        Traced(Ok(Some(LegacyRouteFacts(s.value, e.value, r.distanceM, r.durationS, sv.via, sv.pois, userPrompt))),
               head + survey.calls)
  }

  /** `route_recommendation(start, end, user_prompt)`: without a route the
      fixed message is returned and nothing else is requested; with one, a
      single generation with the route system prompt follows the facts'
      requests, and its narrative is rendered as text. */
  function RouteRecommendation(cfg: LegacySettings, w: World, start: LatLon, end: LatLon, userPrompt: string,
                               dumps: LegacyRouteFacts -> string, parse: string -> Option<Narrative>)
    : (t: Traced<Outcome<string>>)
    ensures var facts := LegacyFactsOf(cfg, w, start, end, userPrompt);
            && (facts.value == Ok(None) ==> t == Traced(Ok(NoRouteMessage), facts.calls))
            && (facts.value.Raised? ==> t == Traced(Raised(facts.value.error), facts.calls))
            && (facts.value.Ok? && facts.value.value.Some? ==>
                  var f := facts.value.value.value;
                  && t.calls == facts.calls + [OllamaPost(cfg.ollamaUrl, cfg.model, NarrativePrompt(SystemRoute, dumps(f)))]
                  && t.value == Ok(AsText(OllamaGenerate(cfg, w, SystemRoute, dumps(f), parse).value)))
    ensures t.value.Ok? && t.value.value != NoRouteMessage ==> Trimmed(t.value.value)
  {
    var facts := LegacyFactsOf(cfg, w, start, end, userPrompt);
    match facts.value
    case Raised(err) => Traced(Raised(err), facts.calls)
    case Ok(None) => Traced(Ok(NoRouteMessage), facts.calls)
    case Ok(Some(f)) =>
      var narr := OllamaGenerate(cfg, w, SystemRoute, dumps(f), parse);
      Traced(Ok(AsText(narr.value)), facts.calls + narr.calls)
  }

  /** Without a route the answer is the fixed message after exactly the two
      endpoint look-ups and the routing requests: no POI search, no via
      look-ups, no generation. */
  lemma NoRouteShortCircuits(cfg: LegacySettings, w: World, start: LatLon, end: LatLon, userPrompt: string,
                             dumps: LegacyRouteFacts -> string, parse: string -> Option<Narrative>)
    requires FallbackRoute(cfg.orsKey, w, start, end).value.None?
    ensures var t := RouteRecommendation(cfg, w, start, end, userPrompt, dumps, parse);
            && t.value == Ok(NoRouteMessage)
            && t.calls == [ReverseGeocode(cfg.nominatimUrl, start), ReverseGeocode(cfg.nominatimUrl, end)]
                          + FallbackRoute(cfg.orsKey, w, start, end).calls
            && forall c :: c in t.calls ==> !c.Overpass? && !c.OllamaPost?
  {
    var facts := LegacyFactsOf(cfg, w, start, end, userPrompt);
    assert facts.calls == facts.calls[..|facts.calls|];
  }

  /** After `n` earlier requests: the corridor POI search `search`, four
      reverse look-ups, then one generation whose prompt opens with the route
      system prompt, and nothing after it. */
  predicate NarratedAfterSurvey(calls: seq<Call>, n: nat, search: Call) {
    && |calls| == n + 6
    && calls[n] == search
    && (forall k :: n + 1 <= k < n + 5 ==> calls[k].ReverseGeocode?)
    && calls[n + 5].OllamaPost? && SystemRoute <= calls[n + 5].prompt
  }

  /** The order holds for any earlier requests, a survey of the POI search and
      four look-ups, and a generation whose prompt opens with the route
      system prompt. */
  lemma NarratedAfterSurveyIntro(head: seq<Call>, survey: seq<Call>, last: Call, search: Call)
    requires |survey| == 5 && survey[0] == search
    requires forall k :: 1 <= k < 5 ==> survey[k].ReverseGeocode?
    requires last.OllamaPost? && SystemRoute <= last.prompt
    ensures NarratedAfterSurvey(head + survey + [last], |head|, search)
  {
    var calls := head + survey + [last];
    forall k | |head| <= k < |head| + 5 ensures calls[k] == survey[k - |head|] { }
  }

  /** With a route of at least three points the requests run in the source's
      order: endpoints, routing, the corridor POI search, four via look-ups,
      then one generation with the route system prompt. */
  lemma RouteRequestOrder(cfg: LegacySettings, w: World, start: LatLon, end: LatLon, userPrompt: string,
                          dumps: LegacyRouteFacts -> string, parse: string -> Option<Narrative>)
    requires FallbackRoute(cfg.orsKey, w, start, end).value.Some?
    requires |FallbackRoute(cfg.orsKey, w, start, end).value.value.points| >= 3
    ensures var route := FallbackRoute(cfg.orsKey, w, start, end);
            var t := RouteRecommendation(cfg, w, start, end, userPrompt, dumps, parse);
            NarratedAfterSurvey(t.calls, 2 + |route.calls|,
                                Call.Overpass(cfg.overpassUrl,
                                              PoiQuery(Within(Padded(Bbox(route.value.value.points), Pad)), CorridorPoiLimit)))
  {
    var route := FallbackRoute(cfg.orsKey, w, start, end);
    var ends := [ReverseGeocode(cfg.nominatimUrl, start), ReverseGeocode(cfg.nominatimUrl, end)];
    var survey := SurveyRoute(Geocoder(cfg.nominatimUrl), OverpassPoi(cfg.overpassUrl), w, route.value.value.points);
    SurveyLongRoute(Geocoder(cfg.nominatimUrl), OverpassPoi(cfg.overpassUrl), w, route.value.value.points);
    var f := LegacyFactsOf(cfg, w, start, end, userPrompt).value.value.value;
    NarrativePromptLayout(SystemRoute, dumps(f));
    NarratedAfterSurveyIntro(ends + route.calls, survey.calls,
                             OllamaPost(cfg.ollamaUrl, cfg.model, NarrativePrompt(SystemRoute, dumps(f))),
                             Call.Overpass(cfg.overpassUrl,
                                           PoiQuery(Within(Padded(Bbox(route.value.value.points), Pad)), CorridorPoiLimit)));
  }

  /** With a route of at least three points the answer is a rendered narrative
      whose facts carry the route's distance and duration unchanged. */
  lemma RouteFactsCopyRoute(cfg: LegacySettings, w: World, start: LatLon, end: LatLon, userPrompt: string,
                            dumps: LegacyRouteFacts -> string, parse: string -> Option<Narrative>)
    requires FallbackRoute(cfg.orsKey, w, start, end).value.Some?
    requires |FallbackRoute(cfg.orsKey, w, start, end).value.value.points| >= 3
    ensures var r := FallbackRoute(cfg.orsKey, w, start, end).value.value;
            var facts := LegacyFactsOf(cfg, w, start, end, userPrompt);
            && facts.value.Ok? && facts.value.value.Some?
            && facts.value.value.value.distanceM == r.distanceM
            && facts.value.value.value.durationS == r.durationS
            && facts.value.value.value.userPrompt == userPrompt
    ensures RouteRecommendation(cfg, w, start, end, userPrompt, dumps, parse).value.Ok?
  {
    SurveyLongRoute(Geocoder(cfg.nominatimUrl), OverpassPoi(cfg.overpassUrl), w,
                    FallbackRoute(cfg.orsKey, w, start, end).value.value.points);
  }

  /** A route of one or two points makes the via loop raise `IndexError`
      once the corridor POI search and one look-up of each point are done. */
  lemma ShortRouteFacts(cfg: LegacySettings, w: World, start: LatLon, end: LatLon, userPrompt: string)
    requires FallbackRoute(cfg.orsKey, w, start, end).value.Some?
    requires 1 <= |FallbackRoute(cfg.orsKey, w, start, end).value.value.points| <= 2
    ensures var route := FallbackRoute(cfg.orsKey, w, start, end);
            var pts := route.value.value.points;
            LegacyFactsOf(cfg, w, start, end, userPrompt)
              == Traced(Raised(IndexOutOfRange),
                        [ReverseGeocode(cfg.nominatimUrl, start), ReverseGeocode(cfg.nominatimUrl, end)]
                        + route.calls
                        + ([Call.Overpass(cfg.overpassUrl, PoiQuery(Within(Padded(Bbox(pts), Pad)), CorridorPoiLimit))]
                           + Lookups(cfg.nominatimUrl, pts)))
  {
    SurveyShortRoute(Geocoder(cfg.nominatimUrl), OverpassPoi(cfg.overpassUrl), w,
                     FallbackRoute(cfg.orsKey, w, start, end).value.value.points);
  }

  /** So `route_recommendation` raises on such a route: its requests are
      exactly those of the facts, and the model is never asked. */
  lemma ShortRouteRaises(cfg: LegacySettings, w: World, start: LatLon, end: LatLon, userPrompt: string,
                         dumps: LegacyRouteFacts -> string, parse: string -> Option<Narrative>)
    requires FallbackRoute(cfg.orsKey, w, start, end).value.Some?
    requires 1 <= |FallbackRoute(cfg.orsKey, w, start, end).value.value.points| <= 2
    ensures var t := RouteRecommendation(cfg, w, start, end, userPrompt, dumps, parse);
            && t.value == Raised(IndexOutOfRange)
            && t.calls == LegacyFactsOf(cfg, w, start, end, userPrompt).calls
  {
    ShortRouteFacts(cfg, w, start, end, userPrompt);
  }
}
