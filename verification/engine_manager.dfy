/** `EngineManager`: reads the `USE_ORS` flag once, picks the router, and
    builds both engines over one shared set of service instances. */
module EngineManager {
  import opened Common
  import opened Text
  import opened Net
  import opened Routing
  import opened Config
  import ChatEngine
  import RouteEngine

  /** Python's `int(s)` accepts, after stripping white space, an optional
      sign followed by at least one digit. Only ASCII digits are modelled. */
  predicate IntLiteral(t: string) {
    && |t| > 0
    && (IsDigit(t[0]) || ((t[0] == '+' || t[0] == '-') && |t| > 1))
    && forall k :: 1 <= k < |t| ==> IsDigit(t[k])
  }

  /** The digits part of `int(s)`, on text already stripped. */
  function ParseStripped(t: string): (r: Outcome<int>)
    ensures r.Ok? <==> IntLiteral(t)
    ensures r.Raised? ==> r.error == BadIntLiteral
    ensures r.Ok? && r.value < 0 ==> t[0] == '-'
  {
    if t != [] && (t[0] == '+' || t[0] == '-') then
      var digits := t[1..];
      if AllDigits(digits) then
        var v: int := DigitsValue(digits);
        Ok(if t[0] == '-' then -v else v)
      else Raised(BadIntLiteral)
    else if AllDigits(t) then Ok(DigitsValue(t))
    else Raised(BadIntLiteral)
  }

  /** `int(s)` for a string: `ValueError` unless the stripped text is an
      integer literal. */
  function ParseIntLiteral(s: string): (r: Outcome<int>)
    ensures r.Ok? <==> IntLiteral(Strip(s))
    ensures r.Raised? ==> r.error == BadIntLiteral
    ensures r.Ok? && r.value < 0 ==> Strip(s)[0] == '-'
  {
    ParseStripped(Strip(s))
  }

  /** Python's `str(n)` for an integer. */
  function ShowInt(n: int): (s: string)
    ensures s != [] && !IsSpace(s[0]) && !IsSpace(s[|s| - 1])
  {
    if n < 0 then "-" + ShowNat(-n) else ShowNat(n)
  }

  /** The digits part reads back every numeral `str` writes. */
  lemma ShowIntParses(n: int)
    ensures ParseStripped(ShowInt(n)) == Ok(n)
  {
    var x := ShowInt(n);
    if n < 0 {
      var d := ShowNat(-n);
      assert x[0] == '-' && x[1..] == d;
      ShowNatRoundTrip(-n);
    } else {
      assert IsDigit(x[0]);
      ShowNatRoundTrip(n);
    }
  }

  /** `int` reads back every integer `str` writes, whatever white space
      surrounds it. */
  lemma ParseIntLiteralRoundTrip(pre: string, n: int, post: string)
    requires forall k :: 0 <= k < |pre| ==> IsSpace(pre[k])
    requires forall k :: 0 <= k < |post| ==> IsSpace(post[k])
    ensures ParseIntLiteral(pre + ShowInt(n) + post) == Ok(n)
  {
    StripPadded(pre, ShowInt(n), post);
    ShowIntParses(n);
  }

  /** `int` of an optional sign and a digit string, padded with white
      space: the value of the digits, negated after a minus. */
  lemma ParseIntLiteralValue(pre: string, sign: string, digits: string, post: string)
    requires forall k :: 0 <= k < |pre| ==> IsSpace(pre[k])
    requires forall k :: 0 <= k < |post| ==> IsSpace(post[k])
    requires sign == "" || sign == "+" || sign == "-"
    requires AllDigits(digits)
    ensures ParseIntLiteral(pre + sign + digits + post)
         == Ok(if sign == "-" then -(DigitsValue(digits) as int) else DigitsValue(digits) as int)
  {
    var x := sign + digits;
    assert x[|x| - 1] == digits[|digits| - 1];
    assert pre + sign + digits + post == pre + x + post;
    StripPadded(pre, x, post);
    ParseStrippedSigned(sign, digits);
  }

  /** The unpadded case of `ParseIntLiteralValue`. */
  lemma ParseStrippedSigned(sign: string, digits: string)
    requires sign == "" || sign == "+" || sign == "-"
    requires AllDigits(digits)
    ensures ParseStripped(sign + digits) == Ok(if sign == "-" then -(DigitsValue(digits) as int) else DigitsValue(digits) as int)
  {
    var x := sign + digits;
    if sign == "" {
      assert x == digits;
    } else {
      assert x[0] == sign[0] && x[1..] == digits;
    }
  }

  /** Any sign and any number of leading zeros before the decimal digits of
      `n`: `int` reads `n`, or `-n` after a minus ("+7" and "007" are 7). */
  lemma SignedZeroPaddedNumeral(pre: string, sign: string, zeros: string, n: nat, post: string)
    requires forall k :: 0 <= k < |pre| ==> IsSpace(pre[k])
    requires forall k :: 0 <= k < |post| ==> IsSpace(post[k])
    requires sign == "" || sign == "+" || sign == "-"
    requires forall k :: 0 <= k < |zeros| ==> zeros[k] == '0'
    ensures ParseIntLiteral(pre + sign + zeros + ShowNat(n) + post) == Ok(if sign == "-" then -(n as int) else n as int)
  {
    var digits := ShowNat(n);
    var d := zeros + digits;
    assert pre + sign + zeros + digits + post == pre + sign + d + post;
    assert AllDigits(d) by {
      forall k | 0 <= k < |d| ensures IsDigit(d[k]) {
        if k >= |zeros| { assert d[k] == digits[k - |zeros|]; }
      }
    }
    ShowNatRoundTrip(n);
    LeadingZerosIgnored(zeros, digits);
    assert DigitsValue(d) == n;
    ParseIntLiteralValue(pre, sign, d, post);
  }

  /** Python's `int(x)` for a real: truncation toward zero. */
  function Truncate(x: real): (n: int)
    ensures 0.0 <= x ==> n as real <= x < n as real + 1.0
    ensures x < 0.0 ==> n as real - 1.0 < x <= n as real
  {
    if x >= 0.0 then x.Floor else -((-x).Floor)
  }

  /** Python's `int(v)` for a flag value. */
  function IntOf(f: FlagValue): (r: Outcome<int>)
    ensures f.IntFlag? ==> r == Ok(f.i)
    ensures f.BoolFlag? ==> r == Ok(if f.b then 1 else 0)
    ensures f.RealFlag? ==> r == Ok(Truncate(f.r)) && (r.value == 0 <==> -1.0 < f.r < 1.0)
    ensures f.StrFlag? ==> r == ParseIntLiteral(f.s)
    ensures f.OtherJson? ==> r == Raised(NotANumber)
  {
    match f
    case IntFlag(i) => Ok(i)
    case BoolFlag(b) => Ok(if b then 1 else 0)
    case RealFlag(x) => Ok(Truncate(x))
    case StrFlag(s) => ParseIntLiteral(s)
    case OtherJson => Raised(NotANumber)
  }

  /** `bool(int(get_flag("USE_ORS", 0)))` */
  function UseOrs(c: Settings, env: map<string, string>): (r: Outcome<bool>)
    ensures var n := IntOf(GetFlag(c, env, "USE_ORS", IntFlag(0)));
            && (n.Raised? ==> r == Raised(n.error))
            && (n.Ok? ==> r == Ok(n.value != 0))
  {
    match IntOf(GetFlag(c, env, "USE_ORS", IntFlag(0)))
    case Ok(n) => Ok(n != 0)
    case Raised(e) => Raised(e)
  }

  /** The environment decides when it sets the flag; otherwise the
      configured value does, and a default configuration means OSRM. */
  lemma UseOrsSources(c: Settings, c2: Settings, env: map<string, string>)
    ensures "USE_ORS" in env ==> UseOrs(c, env) == UseOrs(c2, env)
    ensures "USE_ORS" !in env && c.useOrs == c2.useOrs ==> UseOrs(c, env) == UseOrs(c2, env)
    ensures "USE_ORS" !in env ==> UseOrs(Defaults, env) == Ok(false)
  {
  }

  /** Digit strings in the environment. */
  lemma UseOrsNumberExamples(c: Settings)
    ensures UseOrs(c, map["USE_ORS" := "1"]) == Ok(true)
    ensures UseOrs(c, map["USE_ORS" := "0"]) == Ok(false)
  {
    assert DigitsValue("1") == 1;
    assert DigitsValue("0") == 0;
  }

  /** A sign fails the digit test of `get_flag`, but `int` still reads it. */
  lemma UseOrsSignedExample(c: Settings)
    ensures UseOrs(c, map["USE_ORS" := "-0"]) == Ok(false)
  {
    assert !IsDigit("-0"[0]);
    assert ParseEnvValue("-0") == StrFlag("-0");
    assert Strip("-0") == "-0";
    assert "-0"[1..] == "0" && DigitsValue("0") == 0;
    assert ParseIntLiteral("-0") == Ok(0);
  }

  /** White space around a number is accepted by `int` though not by the
      digit test of `get_flag`. */
  lemma UseOrsPaddedExample(c: Settings)
    ensures UseOrs(c, map["USE_ORS" := " 2 "]) == Ok(true)
  {
    assert !IsDigit(" 2 "[0]);
    ParseIntLiteralRoundTrip(" ", 2, " ");
    assert " " + ShowInt(2) + " " == " 2 ";
  }

  /** Words: "true" in any case is 1, any other word makes `int` raise. */
  lemma UseOrsWordExamples(c: Settings)
    ensures UseOrs(c, map["USE_ORS" := "TRUE"]) == Ok(true)
    ensures UseOrs(c, map["USE_ORS" := "yes"]) == Raised(BadIntLiteral)
  {
    assert !IsDigit("TRUE"[0]);
    var t := AsciiLower("TRUE");
    assert t[0] == 't' && t[1] == 'r' && t[2] == 'u' && t[3] == 'e';
    assert t == "true";
    assert !IsDigit("yes"[0]);
    assert Strip("yes") == "yes";
  }

  /** The three service instances the manager creates; their constructor
      arguments are inputs of the model. */
  datatype Services = Services(llm: LlmService, geocoder: Geocoder, poi: OverpassPoi)

  /** The manager's attributes. */
  datatype Manager = Manager(
    llm: LlmService,
    geocoder: Geocoder,
    poi: OverpassPoi,
    router: Router,
    chat: ChatEngine.Engine,
    route: RouteEngine.Engine)

  /** `EngineManager()`: a flag that is not an integer makes the constructor
      raise; otherwise one router is chosen and both engines share the same
      geocoder, POI service and LLM. The ORS router takes its key from
      `ORS_API_KEY`. */
  function New(c: Settings, env: map<string, string>, svc: Services): (m: Outcome<Manager>)
    ensures m.Raised? <==> UseOrs(c, env).Raised?
    ensures m.Raised? ==> m.error == UseOrs(c, env).error
    ensures m.Ok? ==>
              var mg := m.value;
              && mg.llm == svc.llm && mg.geocoder == svc.geocoder && mg.poi == svc.poi
              && mg.chat.geocoder == mg.geocoder && mg.route.geocoder == mg.geocoder
              && mg.chat.poi == mg.poi && mg.route.poi == mg.poi
              && mg.chat.base.llm == mg.llm && mg.route.base.llm == mg.llm
              && mg.route.router == mg.router
              && mg.chat.base.rules == ChatEngine.ChatRules
              && mg.route.base.rules == CombinedRules(c, "route")
    ensures UseOrs(c, env) == Ok(true) ==> m.Ok? && m.value.router == OrsRouter(OrsKey(None, env))
    ensures UseOrs(c, env) == Ok(false) ==> m.Ok? && m.value.router == OsrmRouter
  {
    match UseOrs(c, env)
    case Raised(e) => Raised(e)
    case Ok(useOrs) =>
      var router := if useOrs then OrsRouter(OrsKey(None, env)) else OsrmRouter;
      var chat := ChatEngine.New(svc.geocoder, svc.poi, svc.llm, None);
      assert chat.base.rules == [] + ChatEngine.ChatRules;
      Ok(Manager(svc.llm, svc.geocoder, svc.poi, router, chat,
                 RouteEngine.New(c, svc.geocoder, svc.poi, router, svc.llm)))
  }

  /** Premium routing without an `ORS_API_KEY` answers every route request
      with the no-route message: the ORS router sends nothing and the
      manager's path never falls back to OSRM. */
  lemma PremiumWithoutKeyNeverRoutes(c: Settings, env: map<string, string>, svc: Services, w: World,
                                     start: LatLon, end: LatLon, userPrompt: string, defaultPrompt: string,
                                     serialise: (RouteEngine.RouteFacts, string) -> string)
    requires UseOrs(c, env) == Ok(true)
    requires "ORS_API_KEY" !in env || env["ORS_API_KEY"] == ""
    ensures New(c, env, svc).Ok?
    ensures var t := RouteEngine.Run(New(c, env, svc).value.route, w, start, end, userPrompt, defaultPrompt, serialise);
            && t.value == Ok(NoRouteMessage)
            && t.calls == [ReverseGeocode(svc.geocoder.baseUrl, start), ReverseGeocode(svc.geocoder.baseUrl, end)]
  {
    var m := New(c, env, svc).value;
    assert m.route.router == OrsRouter("");
    RouteEngine.KeylessOrsNeverRoutes(m.route, w, start, end, userPrompt, defaultPrompt, serialise);
  }
}
