/** The server actions of the model "Brian": the shaping of what the
    language and vision models answer into results, the guard on the API
    key, and the island telemetry. The model calls, the weather fetch, the
    clock and `Math.random` are foreign: their answers are parameters. */
module Brian {
  import opened Wrappers
  import opened Json
  import Text

  const KeyNotConfigured :=
    "GOOGLE_API_KEY environment variable not " +
    "configured"
  const ChatKeyMissing := "GOOGLE_API_KEY missing"

  /** `!apiKey`: the key is absent or empty. */
  predicate KeyMissing(apiKey: Option<string>) { apiKey.None? || apiKey.value == "" }

  // ------------------------------------------------------------ processUserContext

  datatype ContextResult = ContextResult(success: bool, a2uiPayload: Option<Json>, rawResponse: string)

  /** `processUserContext` given the model's `response`. The brace span that
      fails to parse is caught, so the action succeeds whatever the model says. */
  function ProcessUserContext(env: Foreign, apiKey: Option<string>, response: string): (r: Result<ContextResult>)
    ensures KeyMissing(apiKey) <==> r.Failure?
    ensures r.Failure? ==> r.error == KeyNotConfigured
    ensures r.Success? ==> r.value.success && r.value.rawResponse == response
    ensures r.Success? && Text.BraceSpan(response).None? ==> r.value.a2uiPayload.None?
    ensures r.Success? && Text.BraceSpan(response).Some? ==>
      var (i, j) := Text.BraceSpan(response).value;
      r.value.a2uiPayload == env.parse(response[i..j])
  {
    if KeyMissing(apiKey) then Failure(KeyNotConfigured)
    else
      var payload :=
        match Text.BraceSpan(response)
        case None => None
        case Some((i, j)) => env.parse(response[i..j]);
      Success(ContextResult(true, payload, response))
  }

  /** A payload comes back only when the response holds a `{` before a `}`. */
  lemma ContextPayloadNeedsBraces(env: Foreign, apiKey: Option<string>, response: string)
    requires !KeyMissing(apiKey)
    requires forall k :: 0 <= k < |response| ==> response[k] != '}'
    ensures ProcessUserContext(env, apiKey, response) == Success(ContextResult(true, None, response))
  {
  }

  // ------------------------------------------------------------ generateA2UI

  datatype GenerateResult = Generated(a2uiPayload: Json) | NoJson(error: string, rawResponse: string)

  /** `generateA2UI` given the model's `response`: a parsed brace span, or
      the "No JSON" result; a span that is not JSON makes `JSON.parse` throw
      its `syntaxError` out of the action. */
  function GenerateA2UI(env: Foreign, apiKey: Option<string>, response: string, syntaxError: string)
    : (r: Result<GenerateResult>)
    ensures KeyMissing(apiKey) ==> r == Failure(KeyNotConfigured)
    ensures !KeyMissing(apiKey) && Text.BraceSpan(response).None? ==> r == Success(NoJson("No JSON", response))
    ensures !KeyMissing(apiKey) && Text.BraceSpan(response).Some? ==>
      var (i, j) := Text.BraceSpan(response).value;
      match env.parse(response[i..j])
      case Some(p) => r == Success(Generated(p))
      case None => r == Failure(syntaxError)
  {
    if KeyMissing(apiKey) then Failure(KeyNotConfigured)
    else match Text.BraceSpan(response)
      case None => Success(NoJson("No JSON", response))
      case Some((i, j)) =>
        match env.parse(response[i..j])
        case Some(p) => Success(Generated(p))
        case None => Failure(syntaxError)
  }

  // ------------------------------------------------------------ analyseVisual

  /** What the vision endpoint returned: whether the HTTP status was OK, and
      the text of the first part of the first candidate, if any; or the
      `${error}` text of what a rejected `fetch` or `response.json()` threw. */
  datatype VisionReply =
    | Received(ok: bool, text: Option<string>)
    | Rejected(error: string)

  /** `${error}` for an `Error(message)` the action throws itself. */
  function ErrorText(message: string): (r: string) { "Error: " + message }

  function VisionFailed(cause: string): (r: string) { "Vision analysis failed: " + cause }

  /** `analyseVisual`: everything that goes wrong after the key check, the
      parse included, is rethrown as "Vision analysis failed: ...". */
  function AnalyseVisual(env: Foreign, apiKey: Option<string>, reply: VisionReply, syntaxError: string)
    : (r: Result<Json>)
    ensures KeyMissing(apiKey) ==> r == Failure(KeyNotConfigured)
    ensures !KeyMissing(apiKey) && reply.Rejected? ==> r == Failure(VisionFailed(reply.error))
    ensures r.Success? ==> reply.Received? && reply.ok && reply.text.Some? && Text.BraceSpan(reply.text.value).Some?
  {
    if KeyMissing(apiKey) then Failure(KeyNotConfigured)
    else if reply.Rejected? then Failure(VisionFailed(reply.error))
    else if !reply.ok then Failure(VisionFailed(ErrorText("Vision API Failed")))
    else if reply.text.None? || reply.text.value == "" then Failure(VisionFailed(ErrorText("No text response from Vision API")))
    else
      var text := reply.text.value;
      match Text.BraceSpan(text)
      case None => Failure(VisionFailed(ErrorText("No JSON found")))
      case Some((i, j)) =>
        match env.parse(text[i..j])
        case Some(p) => Success(p)
        case None => Failure(VisionFailed(syntaxError))
  }

  /** The analysis succeeds exactly when the key is set, the reply arrived and is OK, its
      text is non-empty and holds a brace span that parses, and then yields
      that parse; every other failure after the key check carries the
      "Vision analysis failed" prefix. */
  lemma AnalyseVisualOutcomes(env: Foreign, apiKey: Option<string>, reply: VisionReply, syntaxError: string)
    ensures var r := AnalyseVisual(env, apiKey, reply, syntaxError);
      (r.Success? <==>
        !KeyMissing(apiKey) && reply.Received? && reply.ok && reply.text.Some? && reply.text.value != "" &&
        Text.BraceSpan(reply.text.value).Some? &&
        var (i, j) := Text.BraceSpan(reply.text.value).value;
        env.parse(reply.text.value[i..j]).Some?) &&
      (r.Success? ==>
        var (i, j) := Text.BraceSpan(reply.text.value).value;
        r.value == env.parse(reply.text.value[i..j]).value) &&
      (KeyMissing(apiKey) ==> r == Failure(KeyNotConfigured)) &&
      (!KeyMissing(apiKey) && reply.Rejected? ==> r == Failure(VisionFailed(reply.error))) &&
      (!KeyMissing(apiKey) && r.Failure? ==> Text.OccursAt(r.error, "Vision analysis failed: ", 0))
  {
    var r := AnalyseVisual(env, apiKey, reply, syntaxError);
    if !KeyMissing(apiKey) && r.Failure? {
      var p := "Vision analysis failed: ";
      assert r.error[..|p|] == p;
    }
  }

  /** How the vision reply fails, in the order the action checks. */
  lemma AnalyseVisualErrorOrder(env: Foreign, apiKey: Option<string>, reply: VisionReply, syntaxError: string)
    requires !KeyMissing(apiKey)
    ensures reply.Rejected? ==> AnalyseVisual(env, apiKey, reply, syntaxError) == Failure(VisionFailed(reply.error))
    ensures reply.Received? && !reply.ok ==> AnalyseVisual(env, apiKey, reply, syntaxError) == Failure(VisionFailed(ErrorText("Vision API Failed")))
    ensures reply.Received? && reply.ok && (reply.text.None? || reply.text.value == "") ==>
      AnalyseVisual(env, apiKey, reply, syntaxError) == Failure(VisionFailed(ErrorText("No text response from Vision API")))
    ensures reply.Received? && reply.ok && reply.text.Some? && reply.text.value != "" && Text.BraceSpan(reply.text.value).None? ==>
      AnalyseVisual(env, apiKey, reply, syntaxError) == Failure(VisionFailed(ErrorText("No JSON found")))
  {
  }

  // ------------------------------------------------------------ chat

  /** The fallback `chat` action: the model's text, once the key is set. */
  function Chat(apiKey: Option<string>, response: string): (r: Result<string>)
    ensures KeyMissing(apiKey) ==> r == Failure(ChatKeyMissing)
    ensures !KeyMissing(apiKey) ==> r == Success(response)
  {
    if KeyMissing(apiKey) then Failure(ChatKeyMissing) else Success(response)
  }

  /** Without a key every action fails before the model is asked: its
      outcome does not depend on anything the model would have answered. */
  lemma MissingKeyFailsFirst(env: Foreign, apiKey: Option<string>, a: string, b: string, e1: string, e2: string,
                             ra: VisionReply, rb: VisionReply)
    requires KeyMissing(apiKey)
    ensures ProcessUserContext(env, apiKey, a) == ProcessUserContext(env, apiKey, b) == Failure(KeyNotConfigured)
    ensures GenerateA2UI(env, apiKey, a, e1) == GenerateA2UI(env, apiKey, b, e2) == Failure(KeyNotConfigured)
    ensures AnalyseVisual(env, apiKey, ra, e1) == AnalyseVisual(env, apiKey, rb, e2) == Failure(KeyNotConfigured)
    ensures Chat(apiKey, a) == Chat(apiKey, b) == Failure(ChatKeyMissing)
  {
  }

  // ------------------------------------------------------------ weather

  /** `decodeWeatherCode`: the WMO weather code bands the telemetry names. */
  function DecodeWeatherCode(code: real): (name: string)
    ensures code == 0.0 <==> name == "Clear Sky"
    ensures 1.0 <= code <= 3.0 <==> name == "Overcast"
    ensures 45.0 <= code <= 48.0 <==> name == "Fog"
    ensures 51.0 <= code <= 55.0 <==> name == "Drizzle"
    ensures 61.0 <= code <= 65.0 <==> name == "Rain"
    ensures 80.0 <= code <= 82.0 <==> name == "Showers"
    ensures name in {"Clear Sky", "Overcast", "Fog", "Drizzle", "Rain", "Showers", "Variable"}
  {
    if code == 0.0 then "Clear Sky"
    else if 1.0 <= code <= 3.0 then "Overcast"
    else if 45.0 <= code <= 48.0 then "Fog"
    else if 51.0 <= code <= 55.0 then "Drizzle"
    else if 61.0 <= code <= 65.0 then "Rain"
    else if 80.0 <= code <= 82.0 then "Showers"
    else "Variable"
  }

  /** `weather_code >= 51`. */
  /** `weather_code >= 51`; no code the decoder calls dry counts as rain. */
  function IsRaining(code: real): (r: bool)
    ensures r ==> DecodeWeatherCode(code) !in {"Clear Sky", "Overcast", "Fog"}
  {
    code >= 51.0
  }

  /** Every wet label is reported as raining and no dry one is; a code the
      decoder calls "Variable" may still be raining (thunder, snow). */
  lemma RainAgreesWithLabel(code: real)
    ensures DecodeWeatherCode(code) in {"Drizzle", "Rain", "Showers"} ==> IsRaining(code)
    ensures DecodeWeatherCode(code) in {"Clear Sky", "Overcast", "Fog"} ==> !IsRaining(code)
    ensures code == 95.0 ==> DecodeWeatherCode(code) == "Variable" && IsRaining(code)
  {
  }

  // ------------------------------------------------------------ telemetry

  /** `hours`-based tide band of the simulated height. */
  function TideLevel(height: real): (level: string)
    ensures level == "HIGH" <==> height > 3.0
    ensures level == "LOW" <==> height < 1.5
    ensures level == "MID" <==> 1.5 <= height <= 3.0
  {
    if height > 3.0 then "HIGH" else if height < 1.5 then "LOW" else "MID"
  }

  /** `x + "suffix"` in JavaScript for a value read from the weather body. */
  function ConcatText(env: Foreign, v: Option<Json>): string {
    match v
    case None => "undefined"
    case Some(JNull) => "null"
    case Some(j) => ElementText(env, j)
  }

  /** The draws of `Math.random` the action makes, each in [0, 1). */
  datatype Draws = Draws(stable: real, ping: real)

  predicate ValidDraws(d: Draws) { 0.0 <= d.stable < 1.0 && 0.0 <= d.ping < 1.0 }

  datatype Network = Network(provider: string, link: string, status: string, pingMs: int)

  datatype Telemetry =
    | Reading(location: string, timestamp: string, temp: string, condition: string, isRaining: bool,
              windSpeed: string, tideLevel: string, network: Network)
    | Unavailable(error: string, timestamp: string)

  /** The simulated fibre link: optimal 95% of the time with a 2-6 ms ping,
      otherwise a 100-149 ms spike. */
  function NetworkStatus(d: Draws): (n: Network)
    requires ValidDraws(d)
    ensures n.status == "OPTIMAL" <==> d.stable > 0.05
    ensures n.status == "OPTIMAL" ==> 2 <= n.pingMs <= 6
    ensures n.status == "LATENCY_DETECTED" ==> 100 <= n.pingMs <= 149
    ensures n.status in {"OPTIMAL", "LATENCY_DETECTED"}
  {
    var stable := d.stable > 0.05;
    var ping := if stable then (d.ping * 5.0).Floor + 2 else (d.ping * 50.0).Floor + 100;
    Network("WightFibre", "Gigabit Symmetric", if stable then "OPTIMAL" else "LATENCY_DETECTED", ping)
  }

  /** The weather code as the comparisons read it: a number, or none, for
      which every comparison is false. */
  function CodeOf(current: Option<Json>): Option<real> {
    match Prop(current, "weather_code")
    case Some(JNum(n)) => Some(n)
    case _ => None
  }

  /** `getIslandTelemetry` given the weather body (`None` when the fetch or
      its decoding fails), the simulated tide height, the random draws and
      the ISO time. Reading a field of a `current` that is missing or `null`
      throws, and the catch turns every failure into the "Telemetry
      Unavailable" result. */
  function IslandTelemetry(env: Foreign, weather: Option<Json>, tideHeight: real, d: Draws, isoNow: string)
    : (t: Telemetry)
    requires ValidDraws(d)
    ensures t.Unavailable? <==> Prop(weather, "current") in {None, Some(JNull)}
    ensures t.Unavailable? ==> t == Unavailable("Telemetry Unavailable", isoNow)
    ensures t.Reading? ==>
      t.timestamp == isoNow &&
      (t.isRaining <==> CodeOf(Prop(weather, "current")).Some? && IsRaining(CodeOf(Prop(weather, "current")).value)) &&
      t.condition == (match CodeOf(Prop(weather, "current"))
                      case Some(c) => DecodeWeatherCode(c)
                      case None => "Variable") &&
      t.tideLevel == TideLevel(tideHeight) &&
      t.network == NetworkStatus(d)
  {
    var current := Prop(weather, "current");
    if current.None? || current == Some(JNull) then Unavailable("Telemetry Unavailable", isoNow)
    else
      var code := CodeOf(current);
      Reading("Seaview, Isle of Wight (PO34)", isoNow,
        ConcatText(env, Prop(current, "temperature_2m")) + "\U{00B0}C",
        if code.Some? then DecodeWeatherCode(code.value) else "Variable",
        code.Some? && IsRaining(code.value),
        ConcatText(env, Prop(current, "wind_speed_10m")) + " km/h",
        TideLevel(tideHeight), NetworkStatus(d))
  }
}
