/** `RouteEngine`: a (start, end) pair becomes either the fixed no-route
    answer or one generation over the route, the corridor's POIs and the
    towns it passes through. */
module RouteEngine {
  import opened Common
  import opened Text
  import opened Net
  import opened Geocoding
  import opened Pois
  import opened Routing
  import opened Corridor
  import opened Config
  import opened AbstractEngine

  /** A route engine: the shared engine part plus the three services it asks. */
  datatype Engine = Engine(base: BaseEngine, geocoder: Geocoder, poi: OverpassPoi, router: Router)

  /** `RouteEngine(geocoder, poi, router, llm)`: its rules are the configured
      base rules followed by the configured route rules. */
  function New(c: Settings, geocoder: Geocoder, poi: OverpassPoi, router: Router, llm: LlmService): (e: Engine)
    ensures e.geocoder == geocoder && e.poi == poi && e.router == router && e.base.llm == llm
    ensures |e.base.rules| == |c.base| + |c.route|
    ensures e.base.rules[..|c.base|] == c.base
    ensures e.base.rules[|c.base|..] == c.route
  {
    Engine(BaseEngine(llm, CombinedRules(c, "route")), geocoder, poi, router)
  }

  /** The facts dictionary of a found route: `start`, `end`, `distance_m`,
      `duration_s`, `provider`, `via_summary`, `pois`. */
  datatype RouteFacts = RouteFacts(
    start: PlaceInfo,
    end: PlaceInfo,
    distanceM: real,
    durationS: real,
    provider: string,
    via: seq<string>,
    pois: seq<Poi>)

  /** `_build_facts(start, end)`: both endpoints are geocoded, then the
      engine's router is asked. `Ok(None)` stands for `{"error": "no_route"}`;
      a route without points makes `min()` raise. */
  function BuildFacts(e: Engine, w: World, start: LatLon, end: LatLon): (t: Traced<Outcome<Option<RouteFacts>>>)
    ensures var route := RouteWith(e.router, w, start, end);
            var ends := [ReverseGeocode(e.geocoder.baseUrl, start), ReverseGeocode(e.geocoder.baseUrl, end)];
            && (route.value.None? ==> t == Traced(Ok(None), ends + route.calls))
            && (route.value.Some? ==>
                  var r := route.value.value;
                  var survey := SurveyRoute(e.geocoder, e.poi, w, r.points);
                  && t.calls == ends + route.calls + survey.calls
                  && (survey.value.Raised? ==> t.value == Raised(survey.value.error))
                  && (survey.value.Ok? ==>
                        t.value == Ok(Some(RouteFacts(
                          PlaceOf(w.nominatim(e.geocoder.baseUrl, start), start),
                          PlaceOf(w.nominatim(e.geocoder.baseUrl, end), end),
                          r.distanceM, r.durationS, r.provider.Tag(),
                          survey.value.value.via, survey.value.value.pois)))))
  {
    var s := Reverse(e.geocoder, w, start);
    var t := Reverse(e.geocoder, w, end);
    var route := RouteWith(e.router, w, start, end);
    var head := [ReverseGeocode(e.geocoder.baseUrl, start), ReverseGeocode(e.geocoder.baseUrl, end)] + route.calls;
    match route.value
    case None => Traced(Ok(None), head)
    case Some(r) =>
      var survey := SurveyRoute(e.geocoder, e.poi, w, r.points);
      match survey.value
      case Raised(err) => Traced(Raised(err), head + survey.calls)
      case Ok(sv) =>
        Traced(Ok(Some(RouteFacts(s.value, t.value, r.distanceM, r.durationS, r.provider.Tag(), sv.via, sv.pois))),
               head + survey.calls)
  }

  /** The question `run` goes on with: a missing or blank one is replaced by
      the configured default. */
  function EffectivePrompt(userPrompt: string, defaultPrompt: string): (p: string)
    ensures Blank(userPrompt) ==> p == defaultPrompt
    ensures !Blank(userPrompt) ==> p == userPrompt
  {
    if userPrompt == "" || Strip(userPrompt) == "" then defaultPrompt else userPrompt
  }

  /** Only white space counts as blank: a question with any other character
      is kept, however much white space surrounds it. */
  lemma EffectivePromptKeepsQuestions(userPrompt: string, defaultPrompt: string)
    ensures EffectivePrompt(userPrompt, defaultPrompt) == userPrompt
            <==> (exists k :: 0 <= k < |userPrompt| && !IsSpace(userPrompt[k])) || userPrompt == defaultPrompt
  {
    BlankIffAllSpace(userPrompt);
  }

  /** `run(start, end, user_prompt)`: without a route the fixed message and
      nothing more; with one, exactly one generation whose prompt holds the
      serialised facts and question. `serialise` stands for the rendering of
      the facts together with the question. */
  function Run(e: Engine, w: World, start: LatLon, end: LatLon, userPrompt: string, defaultPrompt: string,
               serialise: (RouteFacts, string) -> string)
    : (t: Traced<Outcome<string>>)
    ensures var facts := BuildFacts(e, w, start, end);
            && (facts.value == Ok(None) ==> t == Traced(Ok(NoRouteMessage), facts.calls))
            && (facts.value.Raised? ==> t == Traced(Raised(facts.value.error), facts.calls))
            && (facts.value.Ok? && facts.value.value.Some? ==>
                  var prompt := BuildPrompt(e.base.rules,
                                            serialise(facts.value.value.value, EffectivePrompt(userPrompt, defaultPrompt)));
                  && t.calls == facts.calls + [Call.Generate(e.base.llm, prompt)]
                  && t.value == Ok(w.generate(e.base.llm, prompt)))
  {
    var facts := BuildFacts(e, w, start, end);
    match facts.value
    case Raised(err) => Traced(Raised(err), facts.calls)
    case Ok(None) => Traced(Ok(NoRouteMessage), facts.calls)
    case Ok(Some(f)) =>
      var answer := AbstractEngine.Generate(e.base, w, serialise(f, EffectivePrompt(userPrompt, defaultPrompt)));
      Traced(Ok(answer.value), facts.calls + answer.calls)
  }

  /** Without a route the answer is the fixed message after exactly the two
      endpoint look-ups and the router's requests: no POI search, no via
      look-ups, no generation. */
  lemma NoRouteShortCircuits(e: Engine, w: World, start: LatLon, end: LatLon, userPrompt: string,
                             defaultPrompt: string, serialise: (RouteFacts, string) -> string)
    requires RouteWith(e.router, w, start, end).value.None?
    ensures var t := Run(e, w, start, end, userPrompt, defaultPrompt, serialise);
            && t.value == Ok(NoRouteMessage)
            && t.calls == [ReverseGeocode(e.geocoder.baseUrl, start), ReverseGeocode(e.geocoder.baseUrl, end)]
                          + RouteWith(e.router, w, start, end).calls
            && forall c :: c in t.calls ==> !c.Overpass? && !c.Generate?
  {
  }

  /** The fixed message is the answer exactly when the facts carry the
      no-route marker, as long as the model itself never answers with that
      sentence. */
  lemma NoRouteMessageIffNoRoute(e: Engine, w: World, start: LatLon, end: LatLon, userPrompt: string,
                                 defaultPrompt: string, serialise: (RouteFacts, string) -> string)
    requires forall p :: w.generate(e.base.llm, p) != NoRouteMessage
    ensures Run(e, w, start, end, userPrompt, defaultPrompt, serialise).value == Ok(NoRouteMessage)
            <==> BuildFacts(e, w, start, end).value == Ok(None)
  {
    var facts := BuildFacts(e, w, start, end);
    if facts.value.Ok? && facts.value.value.Some? {
      var prompt := BuildPrompt(e.base.rules, serialise(facts.value.value.value, EffectivePrompt(userPrompt, defaultPrompt)));
      assert w.generate(e.base.llm, prompt) != NoRouteMessage;
    }
  }

  /** An ORS router without a key never sends a request: the answer is the
      fixed message after the two endpoint look-ups, and OSRM is not asked. */
  lemma KeylessOrsNeverRoutes(e: Engine, w: World, start: LatLon, end: LatLon, userPrompt: string,
                              defaultPrompt: string, serialise: (RouteFacts, string) -> string)
    requires e.router == OrsRouter("")
    ensures var t := Run(e, w, start, end, userPrompt, defaultPrompt, serialise);
            && t.value == Ok(NoRouteMessage)
            && t.calls == [ReverseGeocode(e.geocoder.baseUrl, start), ReverseGeocode(e.geocoder.baseUrl, end)]
  {
    NoRouteShortCircuits(e, w, start, end, userPrompt, defaultPrompt, serialise);
  }

  /** After `n` earlier requests: the corridor POI search `search`, four
      reverse look-ups, then one generation whose prompt opens with the
      rules header and the block of `rules`, and nothing after it. */
  predicate AnsweredAfterSurvey(calls: seq<Call>, n: nat, search: Call, rules: seq<string>) {
    && |calls| == n + 6
    && calls[n] == search
    && (forall k :: n + 1 <= k < n + 5 ==> calls[k].ReverseGeocode?)
    && calls[n + 5].Generate? && RulesHeader + RulesBlock(rules) <= calls[n + 5].prompt
  }

  /** The order holds for any earlier requests, a survey of the POI search and
      four look-ups, and a generation whose prompt opens with the rules. */
  lemma AnsweredAfterSurveyIntro(head: seq<Call>, survey: seq<Call>, last: Call, search: Call, rules: seq<string>)
    requires |survey| == 5 && survey[0] == search
    requires forall k :: 1 <= k < 5 ==> survey[k].ReverseGeocode?
    requires last.Generate? && RulesHeader + RulesBlock(rules) <= last.prompt
    ensures AnsweredAfterSurvey(head + survey + [last], |head|, search, rules)
  {
    var calls := head + survey + [last];
    forall k | |head| <= k < |head| + 5 ensures calls[k] == survey[k - |head|] { }
  }

  /** With a route of at least three points the requests run in the
      source's order: endpoints, routing, the corridor POI search, four via
      look-ups, then one generation with the engine's rules. */
  lemma RouteRequestOrder(e: Engine, w: World, start: LatLon, end: LatLon, userPrompt: string,
                          defaultPrompt: string, serialise: (RouteFacts, string) -> string)
    requires RouteWith(e.router, w, start, end).value.Some?
    requires |RouteWith(e.router, w, start, end).value.value.points| >= 3
    ensures var route := RouteWith(e.router, w, start, end);
            var t := Run(e, w, start, end, userPrompt, defaultPrompt, serialise);
            AnsweredAfterSurvey(t.calls, 2 + |route.calls|,
                                Call.Overpass(e.poi.url,
                                              PoiQuery(Within(Padded(Bbox(route.value.value.points), Pad)), CorridorPoiLimit)),
                                e.base.rules)
  {
    var route := RouteWith(e.router, w, start, end);
    var ends := [ReverseGeocode(e.geocoder.baseUrl, start), ReverseGeocode(e.geocoder.baseUrl, end)];
    var survey := SurveyRoute(e.geocoder, e.poi, w, route.value.value.points);
    SurveyLongRoute(e.geocoder, e.poi, w, route.value.value.points);
    var f := BuildFacts(e, w, start, end).value.value.value;
    var prompt := BuildPrompt(e.base.rules, serialise(f, EffectivePrompt(userPrompt, defaultPrompt)));
    BuildPromptLayout(e.base.rules, serialise(f, EffectivePrompt(userPrompt, defaultPrompt)));
    AnsweredAfterSurveyIntro(ends + route.calls, survey.calls, Call.Generate(e.base.llm, prompt),
                             Call.Overpass(e.poi.url,
                                           PoiQuery(Within(Padded(Bbox(route.value.value.points), Pad)), CorridorPoiLimit)),
                             e.base.rules);
  }

  /** With a route of at least three points the facts carry the route's
      distance, duration and provider tag unchanged. */
  lemma RouteFactsCopyRoute(e: Engine, w: World, start: LatLon, end: LatLon)
    requires RouteWith(e.router, w, start, end).value.Some?
    requires |RouteWith(e.router, w, start, end).value.value.points| >= 3
    ensures var r := RouteWith(e.router, w, start, end).value.value;
            var facts := BuildFacts(e, w, start, end);
            && facts.value.Ok? && facts.value.value.Some?
            && facts.value.value.value.distanceM == r.distanceM
            && facts.value.value.value.durationS == r.durationS
            && facts.value.value.value.provider == (if e.router.OsrmRouter? then "osrm" else "ors")
  {
    SurveyLongRoute(e.geocoder, e.poi, w, RouteWith(e.router, w, start, end).value.value.points);
  }

  /** A route of one or two points makes the via loop raise `IndexError`
      while the facts are built: after the endpoint look-ups, the routing
      requests, the POI search and one look-up of each route point. */
  lemma ShortRouteFacts(e: Engine, w: World, start: LatLon, end: LatLon)
    requires RouteWith(e.router, w, start, end).value.Some?
    requires 1 <= |RouteWith(e.router, w, start, end).value.value.points| <= 2
    ensures var route := RouteWith(e.router, w, start, end);
            var pts := route.value.value.points;
            BuildFacts(e, w, start, end)
              == Traced(Raised(IndexOutOfRange),
                        [ReverseGeocode(e.geocoder.baseUrl, start), ReverseGeocode(e.geocoder.baseUrl, end)]
                        + route.calls
                        + ([Call.Overpass(e.poi.url, PoiQuery(Within(Padded(Bbox(pts), Pad)), CorridorPoiLimit))]
                           + Lookups(e.geocoder.baseUrl, pts)))
  {
    SurveyShortRoute(e.geocoder, e.poi, w, RouteWith(e.router, w, start, end).value.value.points);
  }

  /** So `run` raises on such a route: its requests are exactly those of
      the facts, and no generation is asked for. */
  lemma ShortRouteRaises(e: Engine, w: World, start: LatLon, end: LatLon, userPrompt: string,
                         defaultPrompt: string, serialise: (RouteFacts, string) -> string)
    requires RouteWith(e.router, w, start, end).value.Some?
    requires 1 <= |RouteWith(e.router, w, start, end).value.value.points| <= 2
    ensures var t := Run(e, w, start, end, userPrompt, defaultPrompt, serialise);
            && t.value == Raised(IndexOutOfRange)
            && t.calls == BuildFacts(e, w, start, end).calls
  {
    ShortRouteFacts(e, w, start, end);
  }

  /** A blank question behaves exactly like asking the default question. */
  lemma BlankQuestionIsDefault(e: Engine, w: World, start: LatLon, end: LatLon, userPrompt: string,
                               defaultPrompt: string, serialise: (RouteFacts, string) -> string)
    requires Blank(userPrompt)
    ensures Run(e, w, start, end, userPrompt, defaultPrompt, serialise)
         == Run(e, w, start, end, defaultPrompt, defaultPrompt, serialise)
  {
    assert EffectivePrompt(userPrompt, defaultPrompt) == defaultPrompt;
    assert EffectivePrompt(defaultPrompt, defaultPrompt) == defaultPrompt;
  }
}
