# geo-copilot-service in Dafny

A model of the fact-assembly and prompt pipeline of the geo-copilot travel
assistant. Given one point, the assistant answers a question about the area.
Given two points, it describes the drive between them. Both answers are
built from the same steps:

- reverse-geocode the points into place records (Nominatim);
- find a driving route (OSRM, or OpenRouteService with an API key);
- search for points of interest around a point or inside the route's
  padded bounding box (Overpass);
- sample the route to name the towns it passes through;
- put the collected facts into a prompt and ask a language model;
- for the module-level pipeline, render the model's structured narrative as
  plain text.

Every external service is a function in a `World` value (`net.dfy`). Every
operation that talks to the outside returns `Traced(value, calls)`: its
result together with the exact sequence of requests it made. This lets
ordering and short-circuit properties be stated as facts about that
sequence. A Python exception that the code really raises on a modelled
input is an `Outcome.Raised` value:

- `min()` of an empty point list;
- a list index past the end;
- `int()` of a non-numeric flag.

Modules follow the source files:

| module | file | models |
|---|---|---|
| `Common`, `Text` | `common.dfy`, `text.dfy` | Python truthiness, `or` chains, slicing and indexing, `strip`, `join`, `split`, `isdigit`, `int`, `lower` |
| `Net` | `net.dfy` | service instances, requests, decoded replies, the call trace |
| `Geocoding` | `geocoding.py` | `NominatimGeocoder.reverse` |
| `Pois` | `pois.py` | `OverpassPOI.around`, `in_bbox` |
| `Routing` | `routing.py` | `OSRMRouting`, `ORSRouting`, the legacy ORS-then-OSRM chain |
| `Llm` | `llm.py` | `OllamaLLMService.summarize` |
| `Config` | `config_loader.py` | `_load_config`, `get_flag`, `base_rules`, `engine_rules`, `combined_rules` |
| `AbstractEngine` | `abstract_engine.py` | `BaseGeoCopilotEngine` |
| `Corridor` | `route_engine.py`, `llm_engine.py` | `_bbox`, padding, via sampling and de-duplication, corridor POI search |
| `Narration` | `llm_engine.py` | `_ollama_generate`'s fallback and `_as_text` |
| `LlmEngine` | `llm_engine.py` | the module-level pipeline: settings, `chat_recommendation`, `route_recommendation` |
| `ChatEngine`, `RouteEngine` | `chat_engine.py`, `route_engine.py` | the two engines |
| `EngineManager` | `engine_manager.py` | `EngineManager.__init__` |

Values are immutable. So the copies made by `list(prompt_rules)`,
`base_rules()` and `engine_rules()` are implicit: nothing a caller does
later can change an engine's rules.

Two behaviours of the code are easy to miss:

- On the `EngineManager` path, premium routing without an `ORS_API_KEY`
  does not fall back to OSRM. The ORS router answers `None` without sending
  anything, and the route engine returns the no-route message. See
  `EngineManager.PremiumWithoutKeyNeverRoutes`.
- The via sampling indices go out of range for routes of one or two points,
  so both route pipelines raise `IndexError` on such routes; see Findings.

## Model

| member | source | states |
|---|---|---|
| Common.OrChainPicksFirstTruthy | services/geocoding.py:18 | an `or` chain is truthy exactly when some operand is; it is then the first truthy operand, and otherwise the last operand |
| Common.SliceTo | services/pois.py:25 | `s[:k]` is a prefix of `s`, of length `min(k, len(s))` for non-negative `k` |
| Text.Strip | services/llm.py:22 | the stripped text neither starts nor ends with white space and is no longer than its input |
| Text.StripPadded | engines/route_engine.py:56 | stripping removes exactly the white space padded around a text that does not start or end with it |
| Text.BlankIffAllSpace | engines/route_engine.py:56 | `not s or not s.strip()` holds exactly when every character of `s` is white space |
| Text.SplitJoin | engines/abstract_engine.py:20 | splitting at the separator undoes `join` when no piece contains the separator |
| Text.ShowNatRoundTrip | config/config_loader.py:36-37 | `int()` of the decimal digits of a natural number gives back that number |
| Text.LeadingZerosIgnored | config/config_loader.py:36-37 | leading zeros do not change the value `int()` gives a digit string |
| Text.AsciiLower | config/config_loader.py:38 | position by position, the letters A to Z become a to z and every other character is kept |
| Geocoding.PlaceOf | services/geocoding.py:14-24 | the record copies `display_name` and the address fields; lat/lon fall back to the query point; a missing `address` leaves every address field `None` |
| Geocoding.CityIsFirstTruthy | services/geocoding.py:18 | the city is the first non-empty value of city, town, village, and is empty or absent only when all three are |
| Geocoding.Reverse | services/geocoding.py:9-24 | a reverse look-up makes exactly one request, for the queried coordinate |
| Pois.PoiOf | services/pois.py:23-24 | each record keeps the element's lat and lon; tags default to an empty mapping; the name is present exactly when the tags have one, and then equals it |
| Pois.KeepNodes | services/pois.py:21-24 | filtering never lengthens the list |
| Pois.KeepNodesAppend | services/pois.py:21-24 | filtering distributes over concatenation, so kept elements keep their relative order |
| Pois.KeepNodesOnlyNodes | services/pois.py:22 | a record is in the output exactly when it comes from an element of type "node" |
| Pois.Normalize | services/pois.py:19-25 | a non-200 status gives an empty list; otherwise the output is a prefix of the kept nodes, of length `min(limit, number kept)` |
| Pois.Search | services/pois.py:8-25 | one Overpass request per search, and at most `limit` records |
| Pois.Around | services/pois.py:8-25 | `around` sends one request for the circle and returns at most `limit` records |
| Pois.InBbox | services/pois.py:27-44 | `in_bbox` sends one request for the box and returns at most `limit` records |
| Pois.AroundAndInBboxAgree | services/pois.py:40-44 | given the same reply, the two searches return the same records: only the queried region differs |
| Routing.OsrmPath | services/routing.py:9 | the OSRM path holds four numbers |
| Routing.OsrmPathRoundTrip | services/routing.py:9 | the OSRM path lists start then end, each longitude first, and reads back as the two endpoints |
| Routing.OsrmRoute | services/routing.py:7-16 | one GET; no route exactly when `routes` is missing or empty; otherwise the first route's distance, duration and points, tagged "osrm" |
| Routing.Transpose | services/routing.py:31 | the points are the `[lon, lat]` pairs swapped, same length and order |
| Routing.ToWire | services/routing.py:23 | the wire form keeps the number of points |
| Routing.TransposeRoundTrip | services/routing.py:31 | swapping back to `[lon, lat]` restores the reply's coordinates exactly |
| Routing.OrsKey | services/routing.py:20 | a non-empty explicit key wins over `ORS_API_KEY`, which defaults to "" |
| Routing.OrsBody | services/routing.py:23 | the request body is two `[lon, lat]` pairs that read back as the start, then the end |
| Routing.OrsRoute | services/routing.py:21-32 | without a key there is no route and no request; with one, one POST, and the first segment's distance and duration with the transposed points, tagged "ors" |
| Routing.RouteWith | services/routing.py:7-32 | an engine's router answers with exactly its own provider's result |
| Routing.RouterHasNoFallback | managers/engine_manager.py:19 | a single router only ever asks its own provider, and a keyless ORS router never finds a route |
| Routing.FallbackRoute | engines/llm_engine.py:208 | ORS's route is used when it gives one; only otherwise is OSRM asked, after ORS |
| Routing.FallbackOrder | engines/llm_engine.py:208 | with a key, ORS is asked first and alone decides; with no key, the result is OSRM's |
| Llm.SummaryPrompt | services/llm.py:12-17 | the prompt is the system prompt, the fixed instruction with its blank lines and "FACTS = ", then the facts |
| Llm.SummaryPromptInjective | services/llm.py:12-17 | for a given prompt, the system prompt determines the facts and the facts determine the system prompt |
| Llm.ReplyText | services/llm.py:22-23 | the answer is the stripped `response`, or "No summary." when that is empty; it is never empty and has no outer white space |
| Llm.Summarize | services/llm.py:11-23 | one POST with the summary prompt, and a non-empty answer |
| Config.ConfigPath | config/config_loader.py:7 | a non-empty `CONFIG_FILE` wins over the default path |
| Config.Normalize | config/config_loader.py:14-22 | only `USE_ORS` and the three rule lists are kept; missing ones become 0 and [] |
| Config.NormalizeIgnoresOtherKeys | config/config_loader.py:14-22 | keys other than `USE_ORS` and the three rule lists do not affect the configuration |
| Config.LoadConfig | config/config_loader.py:5-24 | a readable document is normalised; anything else gives the defaults |
| Config.LoadFailureGivesDefaults | config/config_loader.py:8-9 | a missing or unreadable file gives `USE_ORS` 0 and three empty rule lists |
| Config.ParseEnvValue | config/config_loader.py:36-40 | an all-digit value becomes an int; "true"/"false" in any case a bool; anything else stays the raw string |
| Config.ParseEnvValueReadsNumbers | config/config_loader.py:36-37 | every decimal numeral in the environment reads as its number |
| Config.ParseEnvValueExamples | config/config_loader.py:36-40 | "-1", "" and "yes" stay strings |
| Config.ParseEnvValueMixedCase | config/config_loader.py:38-39 | "TrUe" and "FALSE" become the bools true and false |
| Config.GetFlag | config/config_loader.py:28-41 | the environment overrides the configuration, which overrides the caller's default |
| Config.EngineRules | config/config_loader.py:46-47 | each engine name finds its own list, and an unknown name finds [] |
| Config.CombinedRules | config/config_loader.py:49-51 | the base rules, then the engine's rules, each in original order |
| AbstractEngine.Bulleted | engines/abstract_engine.py:20 | each rule, unchanged and in order, behind "- " |
| AbstractEngine.BuildPrompt | engines/abstract_engine.py:19-27 | the prompt is exactly as long as the rules header, the rules block, the facts header, the facts and the closing line together |
| AbstractEngine.BuildPromptLayout | engines/abstract_engine.py:19-27 | the five parts sit in that order, each at its fixed position, so the prompt opens with the header and the rules block |
| AbstractEngine.Unbullet | engines/abstract_engine.py:20 | removing the bullets keeps one entry per line |
| AbstractEngine.RulesBlockRoundTrip | engines/abstract_engine.py:20 | when no rule spans several lines, the rules read back from the block exactly and in order |
| AbstractEngine.RulesBlockAppend | engines/abstract_engine.py:20 | layered rules render as the first block, a newline, then the second |
| AbstractEngine.EmptyRulesPrompt | engines/abstract_engine.py:20-26 | with no rules the block is empty and both headers are still emitted |
| AbstractEngine.BuildPromptInjective | engines/abstract_engine.py:19-27 | under the same rules, different facts never give the same prompt |
| AbstractEngine.Generate | engines/abstract_engine.py:29-30 | exactly the built prompt goes to the model, once, and its answer is returned unchanged |
| Corridor.Bbox | engines/route_engine.py:19-21 | every point lies in the box, and each edge is attained by some point |
| Corridor.PaddedBoxHoldsRoute | engines/route_engine.py:41-43 | after padding by 0.05, every route point lies strictly inside the search box |
| Corridor.PaddedBoxExample | engines/llm_engine.py:213-215 | a route spanning (10, 10) to (20, 20) is searched in (9.95, 9.95, 20.05, 20.05) |
| Corridor.SampleIndices | engines/route_engine.py:24 | four indices, starting at 0 and ending at the last point |
| Corridor.SampleIndicesValidIff | engines/route_engine.py:24 | every sampled index is valid exactly when the route has at least three points |
| Corridor.SampleIndicesIncreasing | engines/llm_engine.py:218 | from four points on, the indices strictly increase |
| Corridor.SampleIndicesSmall | engines/llm_engine.py:218 | the indices are [0,1,2,3] at four points, repeat at three, and overrun at two |
| Corridor.ClampedSampleIndices | engines/route_engine.py:24 | the corrected sampling: always in range, non-decreasing, first and last point included, and equal to the original from three points on |
| Corridor.CollectSpec | engines/route_engine.py:25-32 | the via list has no repeats, holds exactly the non-empty labels, in order of first occurrence |
| Corridor.CollectExample | engines/llm_engine.py:219-226 | a town met twice is listed once, and an empty label is skipped |
| Corridor.GeocodeAt | engines/route_engine.py:26-28 | the look-ups raise `IndexError` exactly when some index is out of range; otherwise one look-up per index, in order |
| Corridor.ViaAt | engines/route_engine.py:26-32 | the via loop raises exactly when an index is out of range, and otherwise collects the labels of the looked-up places |
| Corridor.ViaListAsWritten | engines/route_engine.py:23-32 | the via loop as written raises `IndexError` exactly when the route has fewer than three points; every request is a look-up with the engine's geocoder |
| Corridor.ViaListOverrunsShortRoute | engines/route_engine.py:24-27 | as written, a route of one or two points raises `IndexError` after one look-up of each point, in order |
| Corridor.ViaList | engines/route_engine.py:23-32 | the corrected via list makes four look-ups, has no repeats or empty labels, and equals the original whenever the route has at least three points |
| Corridor.SurveyRoute | engines/route_engine.py:41-51 | an empty route raises before any request; otherwise the POI search of the padded box comes first, and the survey raises `IndexError` exactly when the route has fewer than three points; a survey that succeeds carries the search's POIs and the via list as written |
| Corridor.SurveyShortRoute | engines/route_engine.py:41-51 | a route of one or two points raises `IndexError` after exactly the POI search and one look-up per point |
| Corridor.SurveyLongRoute | engines/route_engine.py:41-51 | from three points on the survey succeeds with the POI search, then four look-ups, at most 40 POIs and no repeated via |
| Corridor.SurveyRouteClamped | engines/route_engine.py:41-51 | the corrected survey raises only on an empty route, always makes the POI search and four look-ups, and equals the survey as written from three points on |
| Narration.Degraded | engines/llm_engine.py:56 | the fallback has the first 400 characters as summary, or "No summary.", and nothing else |
| Narration.ParseReply | engines/llm_engine.py:52-56 | a parsable reply is used as is; otherwise the degraded structure |
| Narration.HelloWorldDegrades | engines/llm_engine.py:51-56 | a non-JSON "hello world" becomes a summary-only narrative |
| Narration.Bullet | engines/llm_engine.py:72 | a bullet starts with "•" and never ends in a colon |
| Narration.NumericBulletIsExact | engines/llm_engine.py:70-72 | a numeric distance always shows as the "(~X km from start)" tail |
| Narration.NonNumericBulletHasNoTail | engines/llm_engine.py:71-72 | without a numeric distance the bullet is a prefix of name and reason, with no distance tail |
| Narration.ColonSpaceStripped | engines/llm_engine.py:72 | a trailing ": " is removed entirely |
| Narration.BareNameBullet | engines/llm_engine.py:68-72 | with no reason and no distance the bullet is just the name, without a trailing colon |
| Narration.UnnamedHighlight | engines/llm_engine.py:68 | a highlight without a name is shown as "Point of interest" |
| Narration.SectionLineAt | engines/llm_engine.py:64-79 | in a section with data, the line after the header at position i is item i rendered, for each of the first six items |
| Narration.HighlightLinesShape | engines/llm_engine.py:64-73 | the highlights section is a header, then the first six bullets in order, or nothing |
| Narration.TipLinesShape | engines/llm_engine.py:75-79 | the tips section is a header, then the first six tips in order, or nothing |
| Narration.SectionLayout | engines/llm_engine.py:60-85 | the parts are counted section by section; the summary comes first and the border line last |
| Narration.HighlightsPlaced | engines/llm_engine.py:64-73 | the highlights header follows the summary, then its bullets |
| Narration.TipsPlaced | engines/llm_engine.py:75-79 | the tips header follows the highlights section, then its tips |
| Narration.BulletsArePlain | engines/llm_engine.py:72 | no bullet can be mistaken for a header or the border line |
| Narration.TipsArePlain | engines/llm_engine.py:79 | no tip can be mistaken for a header or the border line |
| Narration.HighlightsHeaderIffData | engines/llm_engine.py:64-66 | the highlights header appears exactly when there are highlights |
| Narration.TipsHeaderIffData | engines/llm_engine.py:75-77 | the tips header appears exactly when there are tips |
| Narration.BorderLineIffNotes | engines/llm_engine.py:81-83 | a border line appears exactly when the notes are a non-empty string |
| Narration.AsText | engines/llm_engine.py:58-85 | the rendered text has no white space at either end |
| Narration.DegradedRendersSummaryOnly | engines/llm_engine.py:56-62 | a degraded reply renders as its stripped first 400 characters, or "No summary." |
| LlmEngine.LegacyConfig | engines/llm_engine.py:7-14 | each setting is its environment variable when set, and otherwise its default |
| LlmEngine.LegacyDefaults | engines/llm_engine.py:7-14 | with nothing set, a local Ollama and the public services are used, and routing is OSRM's alone |
| LlmEngine.NarrativePrompt | engines/llm_engine.py:35-44 | the prompt is exactly as long as the system prompt, the JSON instructions, the facts and the closing line together |
| LlmEngine.NarrativePromptLayout | engines/llm_engine.py:35-44 | the system prompt, the JSON instructions, the facts and "Return ONLY the JSON object." sit in that order, each at its fixed position |
| LlmEngine.NarrativePromptInjective | engines/llm_engine.py:35-44 | under one system prompt, different facts give different prompts |
| LlmEngine.SystemPromptsDiffer | engines/llm_engine.py:20-31 | a route prompt and a point prompt never coincide |
| LlmEngine.OllamaGenerate | engines/llm_engine.py:33-56 | one POST with the narrative prompt; the stripped reply is parsed, or degraded when it is not JSON |
| LlmEngine.PointFactsOf | engines/llm_engine.py:191-199 | a point look-up, then one search of the radius for at most 30 POIs; the facts carry the radius and the question unchanged |
| LlmEngine.ChatRecommendation | engines/llm_engine.py:189-201 | the facts' requests, then one generation with the point system prompt; the rendered text has no outer white space |
| LlmEngine.LegacyFactsOf | engines/llm_engine.py:203-236 | endpoints, then ORS and OSRM; no route stops there; otherwise the corridor survey as written follows, its `IndexError` propagates, and facts that are built copy distance and duration |
| LlmEngine.RouteRecommendation | engines/llm_engine.py:203-238 | no route gives the fixed message; a raising survey raises with no generation; otherwise one generation with the route system prompt follows the facts' requests |
| LlmEngine.NoRouteShortCircuits | engines/llm_engine.py:205-210 | without a route, the message follows the two endpoint look-ups and the routing requests, with no POI search and no generation |
| LlmEngine.RouteRequestOrder | engines/llm_engine.py:205-237 | with a route of at least three points: endpoints, routing, the corridor search, four via look-ups, then one route-prompt generation |
| LlmEngine.RouteFactsCopyRoute | engines/llm_engine.py:228-236 | with a route of at least three points the facts carry the route's distance, duration and the question unchanged, and the call succeeds |
| LlmEngine.ShortRouteFacts | engines/llm_engine.py:213-222 | a route of one or two points raises `IndexError` after the endpoint look-ups, the routing requests, the POI search and one look-up per point |
| LlmEngine.ShortRouteRaises | engines/llm_engine.py:203-237 | on such a route `route_recommendation` raises with exactly those requests, so the model is never asked |
| ChatEngine.New | engines/chat_engine.py:19-24 | the rules are the caller's (none when `None` or empty), then the three chat rules in order |
| ChatEngine.ChatRulesCloseBlock | engines/chat_engine.py:24 | the chat rules close the rules block, after every rule the caller gave |
| ChatEngine.BuildFacts | engines/chat_engine.py:28-34 | a look-up of the point, then one POI search around it; the question is put into the facts unchanged |
| ChatEngine.Run | engines/chat_engine.py:36-38 | two look-ups, then exactly one generation over the built facts, whose answer is returned |
| ChatEngine.UserPromptReachesModel | engines/chat_engine.py:33 | when serialisation loses nothing, different questions send different prompts |
| RouteEngine.New | engines/route_engine.py:12-16 | the rules are the base rules, then the route rules, and the services are kept as given |
| RouteEngine.BuildFacts | engines/route_engine.py:34-53 | endpoints, then the router; no route stops there; otherwise the survey as written follows, its `IndexError` propagates, and facts that are built copy distance, duration and provider |
| RouteEngine.EffectivePrompt | engines/route_engine.py:56-57 | a blank question is replaced by the default; any other is kept |
| RouteEngine.EffectivePromptKeepsQuestions | engines/route_engine.py:56-57 | the question is kept exactly when it has a character other than white space, or already is the default |
| RouteEngine.Run | engines/route_engine.py:55-61 | no route gives the fixed message; facts that raise make the run raise with no generation; otherwise one generation over the facts and the effective question |
| RouteEngine.NoRouteShortCircuits | engines/route_engine.py:35-39 | without a route, the message follows the two endpoint look-ups and the router's requests, with no POI search and no generation |
| RouteEngine.NoRouteMessageIffNoRoute | engines/route_engine.py:58-60 | the message is returned exactly when the facts carry the no-route marker, unless the model itself produces that sentence |
| RouteEngine.KeylessOrsNeverRoutes | engines/route_engine.py:37-39 | a keyless ORS router answers after only the two endpoint look-ups |
| RouteEngine.RouteRequestOrder | engines/route_engine.py:35-53 | with a route of at least three points: endpoints, routing, the POI search, four via look-ups, then one generation with the engine's rules |
| RouteEngine.RouteFactsCopyRoute | engines/route_engine.py:45-53 | with a route of at least three points the facts carry the route's distance, duration and provider tag unchanged |
| RouteEngine.ShortRouteFacts | engines/route_engine.py:41-51 | a route of one or two points raises `IndexError` after the endpoint look-ups, the router's requests, the POI search and one look-up per point |
| RouteEngine.ShortRouteRaises | engines/route_engine.py:55-61 | on such a route `run` raises with exactly those requests, so the model is never asked |
| RouteEngine.BlankQuestionIsDefault | engines/route_engine.py:56-57 | a blank question and the default question give the same run |
| EngineManager.ParseIntLiteral | managers/engine_manager.py:15 | `int()` of a string succeeds exactly when the stripped text is an optional sign and digits; a negative value has a minus sign |
| EngineManager.ShowIntParses | managers/engine_manager.py:15 | the sign-and-digits reading of `int()` gives back every integer from its decimal numeral |
| EngineManager.ShowInt | managers/engine_manager.py:15 | a decimal numeral is non-empty, with no white space at either end |
| EngineManager.ParseIntLiteralRoundTrip | managers/engine_manager.py:15 | `int()` reads back every integer's numeral, whatever white space surrounds it |
| EngineManager.ParseIntLiteralValue | managers/engine_manager.py:15 | `int` of white space, an optional sign, digits and white space is the digits' value, negated after a minus |
| EngineManager.SignedZeroPaddedNumeral | managers/engine_manager.py:15 | a sign and leading zeros before the decimal digits of `n` read as `n`, or `-n` after a minus, so "+7" and "007" are 7 |
| EngineManager.Truncate | managers/engine_manager.py:15 | `int()` of a real truncates toward zero |
| EngineManager.IntOf | managers/engine_manager.py:15 | ints are kept, bools give 1 or 0, reals are truncated, strings are parsed, other values raise |
| EngineManager.UseOrs | managers/engine_manager.py:15 | premium routing is on exactly when the flag's integer value is non-zero; an unreadable flag raises |
| EngineManager.UseOrsSources | managers/engine_manager.py:15 | the environment decides when it sets the flag; otherwise the configuration does, and the defaults mean OSRM |
| EngineManager.UseOrsNumberExamples | managers/engine_manager.py:15 | "1" turns ORS on; "0" leaves it off |
| EngineManager.UseOrsSignedExample | managers/engine_manager.py:15 | "-0" fails the digit test but `int` reads it as 0, so ORS stays off |
| EngineManager.UseOrsPaddedExample | managers/engine_manager.py:15 | " 2 " stays a string in `get_flag` but `int()` reads it as 2 |
| EngineManager.UseOrsWordExamples | managers/engine_manager.py:15 | "TRUE" turns ORS on; "yes" makes the constructor raise |
| EngineManager.New | managers/engine_manager.py:14-22 | one router, chosen by the flag; both engines share the geocoder, the POI service and the model; an unreadable flag raises |
| EngineManager.PremiumWithoutKeyNeverRoutes | managers/engine_manager.py:19 | premium routing without a key answers every route request with the no-route message and never asks OSRM |

## Left out

- HTTP transport: URLs, headers, timeouts and `raise_for_status`. Each
  service is a total function from request to decoded reply. An HTTP error
  status (other than Overpass's, which is modelled) is not modelled.
- JSON: `json.dumps` of the facts is a parameter (`dumps`, `serialise`), and
  `json.loads` of the model's reply is a parameter returning
  `Option<Narrative>`. A reply that parses to JSON other than an object
  (which makes `_as_text` fail) is not modelled.
- Overpass QL text, polyline decoding, `float()` conversion and number
  formatting are not modelled. Coordinates are `real`s; a numeric distance
  in a highlight carries its already-formatted text.
- `NominatimGeocoder.reverse` headers and `HTTP_USER_AGENT`: only the base
  URL identifies a geocoder.
- The legacy `ROUTER` setting is read but never used by the code. It is kept
  in `LegacySettings` and has no effect.
- `LlmEngine.OllamaGenerate`: a body of JSON `null` makes
  `r.json().get(...)` raise `AttributeError`. The model reads it as a
  missing `response`.
- `Narration.AsText`: the narrative's fields are typed, so replies of
  another shape are not modelled:
  - a truthy `summary` that is not a string makes `.strip()` raise;
  - a `highlights` entry that is not an object (`"highlights": ["Museum"]`,
    or a string `highlights`) makes `h.get` raise `AttributeError`, so
    `route_recommendation` and `chat_recommendation` raise;
  - a truthy `name` or `why` that is not a string makes `.strip()` raise;
  - a string `practical` (`"Bring water"`) renders one "• " tip per
    character;
  - tips and `border_notes` that are not strings are rendered with `str()`.
- The engines call `self._llm.generate(prompt)`, but the service class in
  this snapshot has only `summarize(system_prompt, facts)`. The engines'
  model call is the `World.generate` function.
- `ChatEngine.BuildFacts`: `around(lat, lon, 30)` passes one argument fewer
  than `around(lat, lon, radius_m, limit)` takes. The model binds 30 to the
  radius as written, and takes the missing limit as a parameter.
- `RouteEngine.Run`: `_generate(facts, user_prompt)` passes one argument
  more than the base class's `_generate(facts)` takes. How the question
  enters the prompt is the parameter `serialise`. The default question
  comes from `default_user_prompt("route")`, which `config_loader.py` does
  not define; it is the parameter `defaultPrompt`.
- `EngineManager.New`: the services are constructed without their required
  arguments; the constructed instances are the parameter `svc`.
- `EngineManager.ParseIntLiteral`: Python's `int()` also accepts non-ASCII
  decimal digits and underscores between digits. Only ASCII digits without
  underscores are modelled, as in `Config.ParseEnvValue`.
- `Text.AsciiLower`: only ASCII letters are lower-cased. No other character
  lower-cases into the letters of "true" or "false", so the flag comparison
  is unaffected.
- Config.ParseEnvValue: only ASCII digits count as digits. Python's
  `isdigit()` also accepts other Unicode digits: "٣" becomes the int 3 in
  Python but stays a string in the model, and "²" passes `isdigit()` but
  makes `int()` raise `ValueError`, which the model does not raise.
- Config.Normalize: rule lists are lists of strings. Python's `list()` also
  accepts a string rule value (one rule per character) and an object (its
  keys); these are not modelled. A null or numeric rule value makes
  `list()` raise, which is the `Unreadable` file.
- Llm.ReplyText: a reply's `response` (`Net.GenerateReply`) is a string or
  missing. A reply of `{"response": null}`, or one whose `response` is not a
  string, makes `.strip()` raise `AttributeError`; this is not modelled,
  here or in `LlmEngine.OllamaGenerate`.
- LlmEngine.ChatRecommendation: the `radius_m=3000` default of
  `chat_recommendation` is not modelled; callers pass the radius.
- `api/api.py` and `app.py` (the HTTP layer and start-up) are not part of
  this model.

## Findings

| source | as written | input that shows it | evidently intended | confidence | as-written member | corrected member |
|---|---|---|---|---|---|---|
| engines/route_engine.py:24 | the via indices `[0, max(1, L//3), max(2, 2*L//3), L-1]` are used unchecked; the same formula is at engines/llm_engine.py:218 | a route of 2 points gives index 2, and `points[2]` raises `IndexError` after two look-ups; a 1-point route gives index 1 | sample only indices inside the route, so any non-empty route yields a via list | high (not executed) | Corridor.ViaListOverrunsShortRoute, Corridor.SurveyRoute | Corridor.ViaList, Corridor.SurveyRouteClamped |

`Corridor.ViaListAsWritten` is the loop with the formula as written, and
`Corridor.SurveyRoute`, which both route pipelines use, calls it: a route of
one or two points makes `RouteEngine.Run` and
`LlmEngine.RouteRecommendation` raise after the POI search, without asking
the model (`RouteEngine.ShortRouteRaises`, `LlmEngine.ShortRouteRaises`).
`Corridor.ClampedSampleIndices` is the corrected sampling: every index is
clamped to `L-1`. From three points on it coincides with the original, so
`Corridor.ViaList` equals the as-written result whenever that does not
raise, and `Corridor.SurveyRouteClamped` equals `Corridor.SurveyRoute`.
