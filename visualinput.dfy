/** The visual scan: an image is downscaled until it fits the size budget,
    analysed by the vision model, and then either booked as a financial
    document or turned into one projection for the Visual Cortex window.
    Window events, chat events and the mutations the scan issues are kept,
    in order, as an output log of effects. The model calls (vision analysis
    and A2UI generation) and the canvas encoder are parameters. */
module VisualInput {
  import opened Wrappers
  import opened Json
  import Text
  import Registry
  import RoomState
  import Ledger

  // ---------------------------------------------------------------- downscaling

  datatype Dims = Dims(width: nat, height: nat)

  /** One encoding attempt: the longest side allowed and the JPEG quality. */
  datatype Attempt = Attempt(maxSize: nat, quality: real)

  const Attempts: seq<Attempt> := [Attempt(1024, 0.75), Attempt(768, 0.6), Attempt(512, 0.5)]

  /** 4.5 MiB, the budget for the decoded image. */
  const MaxBytes: nat := 4718592

  const ImageError := "Image load failed"
  const CanvasError := "Canvas context unavailable"

  /** The 2D canvas: given a width, a height and a quality it yields the
      JPEG data URL, or `None` when no drawing context is available. */
  type Canvas = (nat, nat, real) -> Option<string>

  /** `Math.round(dim * Math.min(1, maxSize / longest))`, computed exactly:
      rounding half up is `(2a + b) / 2b` for the quotient `a / b`. */
  function Scaled(dim: nat, maxSize: nat, longest: nat): nat {
    if longest <= maxSize then dim else (2 * dim * maxSize + longest) / (2 * longest)
  }

  lemma MulMono(a: nat, b: nat, c: nat)
    ensures b <= c ==> b * a <= c * a
  {
    if b <= c {
      assert c * a == b * a + (c - b) * a;
    }
  }

  lemma DivBetween(a: nat, b: nat, q: nat)
    requires b > 0 && q * b <= a < q * b + b
    ensures a / b == q
  {
    assert a == a / b * b + a % b;
    MulMono(b, q + 1, a / b);
    MulMono(b, a / b + 1, q);
  }

  lemma DivBelow(a: nat, b: nat, d: nat)
    requires b > 0 && a < (d + 1) * b
    ensures a / b <= d
  {
    assert a == a / b * b + a % b;
    MulMono(b, d + 1, a / b);
  }

  /** Scaling never enlarges a side, and the longest side ends at the
      attempt's bound when it was over it. */
  lemma ScaledBounds(dim: nat, maxSize: nat, longest: nat)
    requires dim <= longest
    ensures Scaled(dim, maxSize, longest) <= dim
    ensures Scaled(longest, maxSize, longest) == if longest <= maxSize then longest else maxSize
  {
    if longest > maxSize {
      var b := 2 * longest;
      MulMono(dim, maxSize, longest);
      assert 2 * dim * maxSize + longest < (dim + 1) * b;
      DivBelow(2 * dim * maxSize + longest, b, dim);
      assert 2 * longest * maxSize + longest == maxSize * b + longest;
      DivBetween(2 * longest * maxSize + longest, b, maxSize);
    }
  }

  /** `dataUrl.split(",")[1] || ""`. */
  function Base64Part(dataUrl: string): string {
    var parts := Text.Split(dataUrl, ',');
    if |parts| > 1 then parts[1] else ""
  }

  /** The estimated decoded size, three bytes per four characters, is within
      the budget. */
  predicate Fits(b64: string) {
    |b64| * 3 / 4 <= MaxBytes
  }

  /** The base64 payload of one attempt, or `None` without a context. */
  function Encode(img: Dims, canvas: Canvas, a: Attempt): Option<string> {
    var longest := if img.width >= img.height then img.width else img.height;
    match canvas(Scaled(img.width, a.maxSize, longest), Scaled(img.height, a.maxSize, longest), a.quality)
    case None => None
    case Some(url) => Some(Base64Part(url))
  }

  /** The attempts from `i` on, with `last` the payload of the one before. */
  function ChooseFrom(img: Dims, canvas: Canvas, i: nat, last: string): (r: Result<string>)
    requires i <= |Attempts|
    ensures r.Failure? ==> r.error == CanvasError
    ensures r.Success? ==>
      (i == |Attempts| && r.value == last) ||
      exists j :: i <= j < |Attempts| && Encode(img, canvas, Attempts[j]) == Some(r.value)
    decreases |Attempts| - i
  {
    if i == |Attempts| then Success(last)
    else match Encode(img, canvas, Attempts[i])
      case None => Failure(CanvasError)
      case Some(b64) => if Fits(b64) then Success(b64) else ChooseFrom(img, canvas, i + 1, b64)
  }

  /** The downscaled payload of an image, `None` when it failed to load. */
  function Downscaled(image: Option<Dims>, canvas: Canvas): (r: Result<string>)
    ensures image.None? <==> r == Failure(ImageError)
    ensures r.Failure? ==> r.error == ImageError || r.error == CanvasError
    ensures r.Success? ==> exists j :: 0 <= j < |Attempts| && Encode(image.value, canvas, Attempts[j]) == Some(r.value)
  {
    match image
    case None => Failure(ImageError)
    case Some(img) => ChooseFrom(img, canvas, 0, "")
  }

  /** Attempt `j` produced a payload over the budget. */
  predicate TooBig(img: Dims, canvas: Canvas, j: nat)
    requires j < |Attempts|
  {
    Encode(img, canvas, Attempts[j]).Some? && !Fits(Encode(img, canvas, Attempts[j]).value)
  }

  lemma {:induction false} ChooseFromFirstFit(img: Dims, canvas: Canvas, i: nat, last: string, k: nat)
    requires i <= k <= |Attempts|
    requires forall j :: i <= j < k ==> TooBig(img, canvas, j)
    requires i > 0 ==> Encode(img, canvas, Attempts[i - 1]) == Some(last)
    ensures k < |Attempts| && Encode(img, canvas, Attempts[k]).None? ==>
      ChooseFrom(img, canvas, i, last) == Failure(CanvasError)
    ensures k < |Attempts| && Encode(img, canvas, Attempts[k]).Some? && Fits(Encode(img, canvas, Attempts[k]).value) ==>
      ChooseFrom(img, canvas, i, last) == Success(Encode(img, canvas, Attempts[k]).value)
    ensures k == |Attempts| && k > i ==>
      (ChooseFrom(img, canvas, i, last).Success? &&
       Some(ChooseFrom(img, canvas, i, last).value) == Encode(img, canvas, Attempts[|Attempts| - 1]))
    decreases k - i
  {
    if i < k {
      assert TooBig(img, canvas, i);
      ChooseFromFirstFit(img, canvas, i + 1, Encode(img, canvas, Attempts[i]).value, k);
    }
  }

  /** The first attempt within the budget wins; a missing context fails
      the scan at the attempt that meets it; when all three are too large
      the smallest is sent anyway. A failed image load fails at once. */
  lemma DownscaleFirstFit(image: Option<Dims>, canvas: Canvas, k: nat)
    requires image.Some? ==> k <= |Attempts| && forall j :: 0 <= j < k ==> TooBig(image.value, canvas, j)
    ensures image.None? ==> Downscaled(image, canvas) == Failure(ImageError)
    ensures image.Some? && k < |Attempts| && Encode(image.value, canvas, Attempts[k]).None? ==>
      Downscaled(image, canvas) == Failure(CanvasError)
    ensures (image.Some? && k < |Attempts| && Encode(image.value, canvas, Attempts[k]).Some? &&
             Fits(Encode(image.value, canvas, Attempts[k]).value)) ==>
      Downscaled(image, canvas) == Success(Encode(image.value, canvas, Attempts[k]).value)
    ensures image.Some? && k == |Attempts| ==>
      (Downscaled(image, canvas).Success? &&
       Some(Downscaled(image, canvas).value) == Encode(image.value, canvas, Attempts[2]))
  {
    if image.Some? {
      ChooseFromFirstFit(image.value, canvas, 0, "", k);
    }
  }

  /** `downscaleImage`: the attempts in order, stopping at the first that
      fits or at a missing context. */
  method Downscale(image: Option<Dims>, canvas: Canvas) returns (r: Result<string>)
    ensures r == Downscaled(image, canvas)
  {
    if image.None? {
      return Failure(ImageError);
    }
    var img := image.value;
    var lastBase64 := "";
    var i := 0;
    while i < |Attempts|
      invariant 0 <= i <= |Attempts|
      invariant ChooseFrom(img, canvas, i, lastBase64) == ChooseFrom(img, canvas, 0, "")
    {
      var a := Attempts[i];
      var longest := if img.width >= img.height then img.width else img.height;
      var width := Scaled(img.width, a.maxSize, longest);
      var height := Scaled(img.height, a.maxSize, longest);
      var dataUrl := canvas(width, height, a.quality);
      if dataUrl.None? {
        return Failure(CanvasError);
      }
      var base64 := Base64Part(dataUrl.value);
      lastBase64 := base64;
      if |base64| * 3 / 4 <= MaxBytes {
        return Success(base64);
      }
      i := i + 1;
    }
    return Success(lastBase64);
  }

  // ---------------------------------------------------------------- the analysis

  /** The fields read from the analysis, each with its type check. */
  datatype Scan = Scan(
    parseFailed: bool,
    alignmentScore: Option<real>,
    roomVibe: Option<string>,
    telemetryLines: Option<seq<Json>>,
    scanTarget: string,
    verdict: string,
    documentDetected: bool,
    merchant: Option<string>,
    total: Option<string>,
    documentDate: Option<string>,
    category: Option<string>)

  /** `typeof v?.key === "number" ? v.key : null`. */
  function NumProp(v: Option<Json>, key: string): (r: Option<real>)
    ensures r.Some? <==> IsNumber(Prop(v, key))
    ensures r.Some? ==> Prop(v, key) == Some(JNum(r.value))
  {
    match Prop(v, key)
    case Some(JNum(n)) => Some(n)
    case _ => None
  }

  /** The fields of `environmentalIntelligence`: a missing or falsy value,
      which the source turns into `null`, reads like any non-object. */
  function ReadScan(data: Option<Json>): (s: Scan)
    ensures s.parseFailed <==> !IsObjectLike(data)
    ensures s.documentDetected ==> data.Some? && data.value.JObj?
    ensures s.alignmentScore.Some? ==> Prop(data, "alignment_score") == Some(JNum(s.alignmentScore.value))
    ensures s.telemetryLines.Some? ==> Prop(data, "telemetry_lines") == Some(JArr(s.telemetryLines.value))
  {
    Scan(
      !IsObjectLike(data),
      NumProp(data, "alignment_score"),
      OptStringProp(data, "room_vibe"),
      match Prop(data, "telemetry_lines") case Some(JArr(xs)) => Some(xs) case _ => None,
      StringProp(data, "scan_target", "UNKNOWN TARGET"),
      StringProp(data, "verdict", "NO VERDICT"),
      Truthy(Prop(data, "document_detected")),
      OptStringProp(data, "merchant"),
      OptStringProp(data, "total"),
      OptStringProp(data, "date"),
      OptStringProp(data, "category"))
  }

  /** A data value that is not an object reads as a failed parse with every
      default, and never as a document. */
  lemma NonObjectReadsDefaults(data: Option<Json>)
    requires !IsObjectLike(data)
    ensures var s := ReadScan(data);
      s.parseFailed && !s.documentDetected && s.alignmentScore.None? && s.telemetryLines.None? &&
      s.roomVibe.None? && s.scanTarget == "UNKNOWN TARGET" && s.verdict == "NO VERDICT" && s.total.None?
  {
  }

  /** `roomId || "control_room"`. */
  function CurrentRoom(roomId: string): string {
    if roomId != "" then roomId else "control_room"
  }

  /** The room the scan is filed under: a non-empty room vibe, otherwise the
      current room. */
  function ResolvedRoom(scan: Scan, current: string): string {
    if RoomState.Given(scan.roomVibe) then scan.roomVibe.value else current
  }

  /** `${alignmentScore ?? "N/A"}`. */
  function ScoreText(env: Foreign, score: Option<real>): string {
    if score.Some? then NumberText(env, score.value) else "N/A"
  }

  const Rule := "--------------------------------"

  /** The fallback terminal lines: a report around the telemetry when the
      analysis parsed and carried telemetry, otherwise the error pair. */
  function TerminalLines(env: Foreign, scan: Scan, current: string): (r: seq<Json>)
    ensures |r| > 0
    ensures !scan.parseFailed && scan.telemetryLines.Some? ==>
      var tel := scan.telemetryLines.value;
      |r| == |tel| + 6 && r[4..4 + |tel|] == tel &&
      r[0] == JStr("SCAN TARGET: " + scan.scanTarget) &&
      r[1] == JStr("ALIGNMENT: " + ScoreText(env, scan.alignmentScore) + "%") &&
      r[2] == JStr("VERDICT: " + scan.verdict) && r[3] == JStr(Rule) && r[|r| - 2] == JStr(Rule) &&
      r[|r| - 1] == JStr("ROOM VIBE: " + ResolvedRoom(scan, current))
    ensures !(!scan.parseFailed && scan.telemetryLines.Some?) ==>
      r == [JStr(">> ENCRYPTION ERROR"), JStr(">> RETRY SCAN")]
  {
    if !scan.parseFailed && scan.telemetryLines.Some? then
      var tel := scan.telemetryLines.value;
      var r := [JStr("SCAN TARGET: " + scan.scanTarget),
                JStr("ALIGNMENT: " + ScoreText(env, scan.alignmentScore) + "%"),
                JStr("VERDICT: " + scan.verdict), JStr(Rule)] + tel +
               [JStr(Rule), JStr("ROOM VIBE: " + ResolvedRoom(scan, current))];
      assert r[4..4 + |tel|] == tel;
      r
    else [JStr(">> ENCRYPTION ERROR"), JStr(">> RETRY SCAN")]
  }

  // ---------------------------------------------------------------- the alignment bands

  /** A score below 50 diverges. */
  predicate Diverging(score: Option<real>) {
    score.Some? && score.value < 50.0
  }

  const DivergentHeader := "VISUAL CORTEX: DIVERGENCE DETECTED"
  const SyncedHeader := "VISUAL CORTEX: SYNCED"
  const ActiveHeader := "VISUAL CORTEX: ACTIVE"

  function Header(score: Option<real>): (r: string)
    ensures r in {DivergentHeader, SyncedHeader, ActiveHeader}
    ensures r == DivergentHeader <==> Diverging(score)
  {
    if Diverging(score) then DivergentHeader
    else if score.Some? && score.value >= 80.0 then SyncedHeader
    else ActiveHeader
  }

  function Glitch(score: Option<real>): (r: real)
    ensures r == 0.8 || r == 0.0
    ensures r > 0.0 <==> Diverging(score)
  {
    if Diverging(score) then 0.8 else 0.0
  }

  /** The three header bands, and the glitch that goes with the first. */
  lemma HeaderBands(score: Option<real>)
    ensures Header(score) == DivergentHeader <==> score.Some? && score.value < 50.0
    ensures Header(score) == SyncedHeader <==> score.Some? && score.value >= 80.0
    ensures Header(score) == ActiveHeader <==> score.None? || 50.0 <= score.value < 80.0
    ensures Glitch(score) > 0.0 <==> Header(score) == DivergentHeader
    ensures Glitch(score) == 0.8 || Glitch(score) == 0.0
  {
  }

  // ---------------------------------------------------------------- projections

  /** What the Visual Cortex window is told to show. */
  datatype Projection =
    | Cortex(title: string, content: string, kind: string, imageUrl: string, caption: string)
    | Terminal(header: string, lines: seq<Json>, glitchLevel: real)
    | LedgerCard(date: string, amountGBP: real, allocation: string, verifiedBy: string)

  function Component(p: Projection): string {
    match p
    case Cortex(_, _, _, _, _) => "CortexArtifact"
    case Terminal(_, _, _) => "BunkerTerminal"
    case LedgerCard(_, _, _, _) => "BunkerLedger"
  }

  /** The props object of a projection; the artifact never persists its
      image. */
  function PropsOf(p: Projection): Json {
    match p
    case Cortex(title, content, kind, imageUrl, caption) =>
      JObj(map["title" := JStr(title), "content" := JStr(content), "type" := JStr(kind),
               "imageUrl" := JStr(imageUrl), "caption" := JStr(caption), "persistImage" := JBool(false)])
    case Terminal(header, lines, glitch) =>
      JObj(map["header" := JStr(header), "lines" := JArr(lines), "glitchLevel" := JNum(glitch)])
    case LedgerCard(date, amount, allocation, verifiedBy) =>
      JObj(map["date" := JStr(date), "amountGBP" := JNum(amount), "allocation" := JStr(allocation),
               "verifiedBy" := JStr(verifiedBy)])
  }

  /** Every projection names a registered component. */
  lemma ProjectionsRegistered(p: Projection)
    ensures Component(p) in Registry.Keys
    ensures Component(p) in {"CortexArtifact", "BunkerTerminal", "BunkerLedger"}
  {
  }

  /** What the normalizer falls back on, fixed by the analysis. */
  datatype Defaults = Defaults(score: Option<real>, scanTarget: string, lines: seq<Json>, content: string, imageUrl: string)

  /** The artifact's text: verdict, a blank line, the score and the joined
      telemetry. */
  function ArtifactContent(env: Foreign, scan: Scan): string {
    Text.Join([scan.verdict, "",
               "Alignment: " + ScoreText(env, scan.alignmentScore) + "%",
               "Telemetry: " + (if scan.telemetryLines.Some? then JoinJson(env, scan.telemetryLines.value, " | ") else "N/A")],
              "\n")
  }

  function DefaultsOf(env: Foreign, scan: Scan, current: string, imageUrl: string): Defaults {
    Defaults(scan.alignmentScore, scan.scanTarget, TerminalLines(env, scan, current), ArtifactContent(env, scan), imageUrl)
  }

  /** The projection shown when the generated payload is unusable. */
  function DefaultProjection(d: Defaults): Projection {
    Cortex(d.scanTarget, d.content, if Diverging(d.score) then "Signal" else "Reflection", d.imageUrl, d.scanTarget)
  }

  /** `JSON.parse(s)`, with `{}` when it throws. */
  function ParseOrEmpty(env: Foreign, s: string): Json {
    match env.parse(s)
    case Some(j) => j
    case None => JObj(map[])
  }

  /** The props of a payload after the two unwrapping steps: a string is
      parsed, and a `ui_data` member, string or object, replaces them. */
  function UnwrapProps(env: Foreign, payload: Json): (r: Option<Json>)
    ensures var p0 := Prop(Some(payload), "props");
      var p1 := if IsString(p0) then Some(ParseOrEmpty(env, p0.value.s)) else p0;
      (!HasKey(p1, "ui_data") ==> r == p1) &&
      (HasKey(p1, "ui_data") && p1.value.fields["ui_data"].JStr? ==>
        r == Some(ParseOrEmpty(env, p1.value.fields["ui_data"].s))) &&
      (HasKey(p1, "ui_data") && IsObjectLike(Some(p1.value.fields["ui_data"])) ==>
        r == Some(p1.value.fields["ui_data"])) &&
      (HasKey(p1, "ui_data") && !p1.value.fields["ui_data"].JStr? && !IsObjectLike(Some(p1.value.fields["ui_data"])) ==>
        r == p1)
  {
    var p0 := Prop(Some(payload), "props");
    var p1 := if IsString(p0) then Some(ParseOrEmpty(env, p0.value.s)) else p0;
    if IsObjectLike(p1) && HasKey(p1, "ui_data") then
      var ui := p1.value.fields["ui_data"];
      if ui.JStr? then Some(ParseOrEmpty(env, ui.s))
      else if Truthy(Some(ui)) && IsObjectLike(Some(ui)) then Some(ui)
      else p1
    else p1
  }

  /** Props given as a JSON string are read as the parsed value; text that
      does not parse gives empty props. */
  lemma StringPropsParsed(env: Foreign, payload: Json, s: string)
    requires Prop(Some(payload), "props") == Some(JStr(s))
    ensures env.parse(s).None? ==> UnwrapProps(env, payload) == Some(JObj(map[]))
    ensures env.parse(s).Some? && !HasKey(env.parse(s), "ui_data") ==> UnwrapProps(env, payload) == env.parse(s)
  {
  }

  /** The terminal's lines: an array as given, a string split on line
      breaks without the empty pieces, and the defaults when that is empty. */
  function ResolvedLines(props: Option<Json>, dflt: seq<Json>): (r: seq<Json>)
    ensures IsArray(Prop(props, "lines")) && |Prop(props, "lines").value.items| > 0 ==> r == Prop(props, "lines").value.items
    ensures IsString(Prop(props, "lines")) && |Text.NonEmpty(Text.Split(Prop(props, "lines").value.s, '\n'))| > 0 ==>
      r == Strings(Text.NonEmpty(Text.Split(Prop(props, "lines").value.s, '\n')))
    ensures !IsArray(Prop(props, "lines")) && !IsString(Prop(props, "lines")) ==> r == dflt
    ensures |dflt| > 0 ==> |r| > 0
  {
    var parsed := match Prop(props, "lines")
      case Some(JArr(xs)) => xs
      case Some(JStr(s)) => Strings(Text.NonEmpty(Text.Split(s, '\n')))
      case _ => [];
    if |parsed| > 0 then parsed else dflt
  }

  /** The artifact type: one of the three named kinds as given, otherwise by
      the score. */
  function ArtifactKind(props: Option<Json>, score: Option<real>): (k: string)
    ensures k in {"Myth", "Signal", "Reflection"}
    ensures Prop(props, "type") in {Some(JStr("Myth")), Some(JStr("Signal")), Some(JStr("Reflection"))} ==>
      Some(JStr(k)) == Prop(props, "type")
  {
    match Prop(props, "type")
    case Some(JStr(t)) =>
      if t == "Myth" || t == "Signal" || t == "Reflection" then t
      else if Diverging(score) then "Signal" else "Reflection"
    case _ => if Diverging(score) then "Signal" else "Reflection"
  }

  /** `normalizeA2UIPayload`: a terminal payload or an artifact payload
      becomes a projection; anything else is refused. */
  function Normalize(env: Foreign, payload: Option<Json>, d: Defaults): (r: Option<Projection>)
    ensures r.Some? <==>
      IsObjectLike(payload) &&
      (Prop(payload, "component") == Some(JStr("BunkerTerminal")) || Prop(payload, "component") == Some(JStr("ArtifactCard")))
    ensures r.Some? ==> (r.value.Terminal? <==> Prop(payload, "component") == Some(JStr("BunkerTerminal")) && Diverging(d.score))
  {
    if !IsObjectLike(payload) then None
    else
      var props := UnwrapProps(env, payload.value);
      var comp := Prop(payload, "component");
      if comp == Some(JStr("BunkerTerminal")) then
        if !Diverging(d.score) then
          Some(Cortex(d.scanTarget, d.content, "Reflection", d.imageUrl, d.scanTarget))
        else
          var glitch := match Prop(props, "glitchLevel") case Some(JNum(n)) => n case _ => Glitch(d.score);
          Some(Terminal(StringProp(props, "header", Header(d.score)), ResolvedLines(props, d.lines), glitch))
      else if comp == Some(JStr("ArtifactCard")) then
        Some(Cortex(StringProp(props, "title", d.scanTarget), StringProp(props, "content", d.content),
                    ArtifactKind(props, d.score), d.imageUrl, d.scanTarget))
      else None
  }

  /** Only the two requested components are accepted; a terminal is shown
      only for a diverging scan, and then always with some lines; any other
      score turns a terminal request into a reflection artifact. */
  lemma NormalizeOutcomes(env: Foreign, payload: Option<Json>, d: Defaults)
    requires |d.lines| > 0
    ensures var comp := Prop(payload, "component");
      Normalize(env, payload, d).Some? <==>
        IsObjectLike(payload) && (comp == Some(JStr("BunkerTerminal")) || comp == Some(JStr("ArtifactCard")))
    ensures var n := Normalize(env, payload, d);
      n.Some? ==>
        (Component(n.value) in {"CortexArtifact", "BunkerTerminal"} &&
         (n.value.Terminal? ==> Diverging(d.score) && |n.value.lines| > 0) &&
         (n.value.Cortex? ==> n.value.imageUrl == d.imageUrl && n.value.caption == d.scanTarget))
    ensures IsObjectLike(payload) && Prop(payload, "component") == Some(JStr("BunkerTerminal")) && !Diverging(d.score) ==>
      Normalize(env, payload, d) == Some(Cortex(d.scanTarget, d.content, "Reflection", d.imageUrl, d.scanTarget))
    ensures IsObjectLike(payload) && Prop(payload, "component") == Some(JStr("BunkerTerminal")) && Diverging(d.score) ==>
      Normalize(env, payload, d).value.Terminal?
  {
  }

  /** A terminal payload without usable props shows the analysis' own
      header, lines and glitch. */
  lemma TerminalFallsBack(env: Foreign, d: Defaults)
    requires Diverging(d.score)
    ensures Normalize(env, Some(JObj(map["component" := JStr("BunkerTerminal")])), d) ==
      Some(Terminal(DivergentHeader, d.lines, 0.8))
  {
  }

  // ---------------------------------------------------------------- the amount of a document

  /** The match of `/([0-9]+(?:\.[0-9]{1,2})?)/`: the decimal at the first
      digit. */
  function AmountMatch(total: string): (r: Option<(string, string)>)
    ensures r.Some? ==> |r.value.0| > 0 && Text.AllDigits(r.value.0) && Text.AllDigits(r.value.1) && |r.value.1| <= 2
    ensures r.None? <==> forall k :: 0 <= k < |total| ==> !Text.IsDigit(total[k])
    ensures r.Some? ==>
      exists i :: 0 <= i < |total| && Text.IsDigit(total[i]) &&
        (forall k :: 0 <= k < i ==> !Text.IsDigit(total[k])) && r.value == Text.DecimalAt(total, i)
  {
    match Text.FirstDigit(total, 0)
    case None => None
    case Some(i) => Some(Text.DecimalAt(total, i))
  }

  /** `amountMatch ? Number(amountMatch[1]) : 0`. */
  function AmountGBP(total: string): (r: real) {
    match AmountMatch(total)
    case None => 0.0
    case Some((whole, frac)) => Text.DecimalValue(whole, frac)
  }

  /** The amount is never negative and has at most two decimals. */
  lemma AmountInPence(total: string)
    ensures AmountGBP(total) >= 0.0
    ensures Text.WholePence(AmountGBP(total))
  {
    if AmountMatch(total).Some? {
      var (whole, frac) := AmountMatch(total).value;
      Text.DecimalInPence(whole, frac);
    }
  }

  /** The amount of a receipt total with a currency sign. */
  lemma AmountExample()
    ensures AmountGBP("£12.34") == 12.34
    ensures AmountGBP("none") == 0.0
  {
    SampleAmountMatch("£12.34");
    SampleDecimalValue();
    NoDigitNoAmount("none");
  }

  /** `Number("12.34")`. */
  lemma SampleDecimalValue()
    ensures Text.DecimalValue("12", "34") == 12.34
  {
    assert Text.DigitsValue("12") == 12 by {
      assert "12"[..1] == "1";
      assert "1"[..0] == "";
    }
    assert Text.DigitsValue("34") == 34 by {
      assert "34"[..1] == "3";
      assert "3"[..0] == "";
    }
    assert Text.Pow10(2) == 100 by {
      assert Text.Pow10(1) == 10 by { assert Text.Pow10(0) == 1; }
    }
  }

  /** A total without any digit has no match. */
  lemma NoDigitNoAmount(t: string)
    requires t == "none"
    ensures AmountMatch(t).None?
  {
    assert forall k :: 0 <= k < |t| ==> !Text.IsDigit(t[k]);
  }

  /** The sample total's match: "12" before the point and "34" after it. */
  lemma SampleAmountMatch(t: string)
    requires t == "£12.34"
    ensures AmountMatch(t) == Some(("12", "34"))
  {
    assert t[1] == '1' && t[2] == '2' && t[3] == '.' && t[4] == '3' && t[5] == '4';
    assert Text.FirstDigit(t, 0) == Some(1);
    assert Text.DigitRunEnd(t, 3) == 3;
    assert Text.DigitRunEnd(t, 1) == 3;
    assert t[1..3] == "12" && t[4..6] == "34";
  }

  // ---------------------------------------------------------------- effects

  /** What the scan does outside itself, in order. */
  datatype Effect =
    | Project(p: Projection)
    | ScanLock(durationMs: nat)
    | Chat(role: string, content: string)
    | ChangeRoom(roomId: string)
    | UpdateRoom(u: RoomState.RoomUpdate)
    | LogSpend(args: Ledger.LogSpendArgs)
    | AppendMessage(content: string)

  /** The component, its settings and the clock the scan runs with. */
  datatype Context = Context(roomId: string, hasRoomCallback: bool, hasAppendMessage: bool, today: string, now: int)

  /** The `persistRoomUpdate` call that stores a projection. */
  function Store(room: string, p: Projection, env: Foreign): Effect {
    UpdateRoom(RoomState.RoomUpdate(room, Component(p), env.stringify(PropsOf(p)), None, None))
  }

  const LedgerChat := ">> FINANCIAL DATA EXTRACTED. LEDGER UPDATED."
  const LedgerMessage :=
    "SYSTEM: Financial document ingested. " +
    "Ledger updated."

  /** The ledger card of a document: the category, else the merchant, names
      the allocation; the document's date, else today, dates it. */
  function DocumentCard(scan: Scan, today: string): (r: Projection)
    requires scan.total.Some?
    ensures r.LedgerCard? && r.verifiedBy == "Julian" && r.allocation != ""
    ensures r.amountGBP == AmountGBP(scan.total.value)
    ensures RoomState.Given(scan.category) ==> r.allocation == scan.category.value
    ensures !RoomState.Given(scan.category) && RoomState.Given(scan.merchant) ==> r.allocation == scan.merchant.value
    ensures !RoomState.Given(scan.category) && !RoomState.Given(scan.merchant) ==> r.allocation == "Uncategorised"
    ensures RoomState.Given(scan.documentDate) ==> r.date == scan.documentDate.value
    ensures !RoomState.Given(scan.documentDate) ==> r.date == today
  {
    var allocation := if RoomState.Given(scan.category) then scan.category.value
      else if RoomState.Given(scan.merchant) then scan.merchant.value else "Uncategorised";
    var date := if RoomState.Given(scan.documentDate) then scan.documentDate.value else today;
    LedgerCard(date, AmountGBP(scan.total.value), allocation, "Julian")
  }

  /** The `logSpend` arguments of a document with the given merchant argument. */
  function SpendArgs(card: Projection, merchant: Ledger.Arg, now: int): Ledger.LogSpendArgs
    requires card.LedgerCard?
  {
    Ledger.LogSpendArgs(card.amountGBP, card.allocation, merchant, card.date,
                        Ledger.Passed("scan-" + Text.IntToString(now)), Ledger.Passed(card.verifiedBy))
  }

  /** The document branch given the merchant argument it sends: show the
      card, store it, log the spend, and, unless the spend is refused (which
      aborts the scan), announce it. */
  function DocumentSteps(env: Foreign, scan: Scan, ctx: Context, merchant: Ledger.Arg): seq<Effect>
    requires scan.total.Some?
  {
    var card := DocumentCard(scan, ctx.today);
    var args := SpendArgs(card, merchant, ctx.now);
    [Project(card), Store(ResolvedRoom(scan, CurrentRoom(ctx.roomId)), card, env), LogSpend(args)] +
    (if Ledger.ValidArgs(args)
     then [Chat("assistant", LedgerChat)] + (if ctx.hasAppendMessage then [AppendMessage(LedgerMessage)] else [])
     else [])
  }

  /** The merchant argument as written: a missing merchant is sent as `null`. */
  function MerchantAsWritten(merchant: Option<string>): Ledger.Arg {
    if merchant.Some? then Ledger.Passed(merchant.value) else Ledger.NullArg
  }

  /** The merchant argument as intended: a missing merchant is left out, so
      the store applies its vendor default. */
  function MerchantArg(merchant: Option<string>): Ledger.Arg {
    if merchant.Some? then Ledger.Passed(merchant.value) else Ledger.Omitted
  }

  function DocumentEffectsAsWritten(env: Foreign, scan: Scan, ctx: Context): (e: seq<Effect>)
    requires scan.total.Some?
    ensures scan.merchant.None? ==> |e| == 3 && e[2].LogSpend? && !Ledger.ValidArgs(e[2].args)
    ensures scan.merchant.Some? ==> e == DocumentEffects(env, scan, ctx)
  {
    DocumentSteps(env, scan, ctx, MerchantAsWritten(scan.merchant))
  }

  function DocumentEffects(env: Foreign, scan: Scan, ctx: Context): (e: seq<Effect>)
    requires scan.total.Some?
    ensures |e| == (if ctx.hasAppendMessage then 5 else 4)
    ensures e[0] == Project(DocumentCard(scan, ctx.today)) && e[2].LogSpend? && Ledger.ValidArgs(e[2].args)
    ensures e[2].args.amountGBP == DocumentCard(scan, ctx.today).amountGBP
  {
    DocumentSteps(env, scan, ctx, MerchantArg(scan.merchant))
  }

  /** As written, a receipt without a readable merchant is shown and stored
      as the room's card, but the spend is refused by the store's argument
      validation: no entry is written and the scan stops before announcing
      the ledger update. */
  lemma MissingMerchantRefused(env: Foreign, scan: Scan, ctx: Context, rows: seq<Ledger.Entry>, nextId: nat, identity: Option<string>)
    requires scan.total.Some? && scan.merchant.None?
    ensures var e := DocumentEffectsAsWritten(env, scan, ctx);
      |e| == 3 && e[0].Project? && e[1].UpdateRoom? && e[2].LogSpend? &&
      Ledger.AppendSpend(rows, nextId, identity, e[2].args, ctx.now).Failure?
  {
  }

  /** A concrete receipt that shows it. */
  lemma MissingMerchantExample(env: Foreign, ctx: Context)
    ensures var data := Some(JObj(map["document_detected" := JBool(true), "total" := JStr("£12.34")]));
      var scan := ReadScan(data);
      scan.documentDetected && scan.total == Some("£12.34") && scan.merchant.None? &&
      |DocumentEffectsAsWritten(env, scan, ctx)| == 3
  {
  }

  /** As intended, every document is logged: the spend is accepted, filed
      under the unknown vendor when the merchant is missing, and the scan
      goes on to announce it. */
  lemma DocumentLogged(env: Foreign, scan: Scan, ctx: Context, rows: seq<Ledger.Entry>, nextId: nat, identity: Option<string>)
    requires scan.total.Some?
    ensures var e := DocumentEffects(env, scan, ctx);
      var card := DocumentCard(scan, ctx.today);
      |e| == (if ctx.hasAppendMessage then 5 else 4) &&
      e[0] == Project(card) && e[1] == Store(ResolvedRoom(scan, CurrentRoom(ctx.roomId)), card, env) &&
      e[2].LogSpend? && e[3] == Chat("assistant", LedgerChat) &&
      var res := Ledger.AppendSpend(rows, nextId, identity, e[2].args, ctx.now);
      res.Success? && var entry := res.value.0[|rows|];
      entry.amountGBP == AmountGBP(scan.total.value) && entry.allocation == card.allocation &&
      entry.merchant == (if scan.merchant.Some? then scan.merchant.value else "UNKNOWN VENDOR") &&
      entry.verifiedBy == "Julian" && entry.scanId == Some("scan-" + Text.IntToString(ctx.now))
  {
    var e := DocumentEffects(env, scan, ctx);
    Ledger.LogSpendInserts(rows, nextId, identity, e[2].args, ctx.now);
  }

  /** Where the merchant is given, the two versions behave alike. */
  lemma DocumentVersionsAgree(env: Foreign, scan: Scan, ctx: Context)
    requires scan.total.Some? && scan.merchant.Some?
    ensures DocumentEffects(env, scan, ctx) == DocumentEffectsAsWritten(env, scan, ctx)
  {
  }

  /** The reply of `generateA2UI`. */
  datatype A2uiReply = A2uiReply(payload: Option<Json>, rawResponse: Option<string>)

  /** The payload used: the reply's own, or when that is falsy, the braced
      part of the raw response if it parses. */
  function PayloadOf(env: Foreign, reply: A2uiReply): (r: Option<Json>)
    ensures Truthy(reply.payload) ==> r == reply.payload
    ensures r != reply.payload ==>
      reply.rawResponse.Some? &&
      var raw := reply.rawResponse.value;
      Text.BraceSpan(raw).Some? && env.parse(raw[Text.BraceSpan(raw).value.0..Text.BraceSpan(raw).value.1]) == r
  {
    if !Truthy(reply.payload) && reply.rawResponse.Some? && reply.rawResponse.value != "" then
      var raw := reply.rawResponse.value;
      match Text.BraceSpan(raw)
      case None => reply.payload
      case Some((i, j)) =>
        match env.parse(raw[i..j])
        case Some(p) => Some(p)
        case None => reply.payload
    else reply.payload
  }

  /** The instruction sent to `generateA2UI`. */
  function Instruction(env: Foreign, lines: seq<Json>): string {
    Text.Join(["Generate a single A2UI payload for the " + "Visual Cortex window.",
               "Use only BunkerTerminal or ArtifactCard.", "Return JSON only.", "Telemetry:",
               JoinJson(env, lines, "\n")], "\n")
  }

  /** The projection of a scan that is not a document: the normalized
      payload, or the default artifact when generation failed or the payload
      was refused. */
  function FinalProjection(env: Foreign, reply: Result<A2uiReply>, d: Defaults): (p: Projection)
    ensures reply.Failure? ==> p == DefaultProjection(d)
    ensures p != DefaultProjection(d) ==> reply.Success? && Normalize(env, PayloadOf(env, reply.value), d) == Some(p)
    ensures Component(p) in Registry.Keys
  {
    if reply.Failure? then DefaultProjection(d)
    else match Normalize(env, PayloadOf(env, reply.value), d)
      case Some(p) => p
      case None => DefaultProjection(d)
  }

  /** The projection branch: room change, scan lock, projection, store, and
      the narrative message naming the current room. */
  function ProjectionEffects(env: Foreign, scan: Scan, ctx: Context, p: Projection): (e: seq<Effect>)
    ensures Project(p) in e && Store(ResolvedRoom(scan, CurrentRoom(ctx.roomId)), p, env) in e
    ensures forall i :: 0 <= i < |e| && e[i].Project? ==> e[i] == Project(p)
  {
    var current := CurrentRoom(ctx.roomId);
    var room := ResolvedRoom(scan, current);
    var before := if room != current && ctx.hasRoomCallback then [ChangeRoom(room)] else [];
    var after := if ctx.hasAppendMessage
      then [AppendMessage("SYSTEM: Visual scan complete. Vibe: " + current + ". Telemetry displayed on HUD.")]
      else [];
    var e := before + [ScanLock(12000), Project(p), Store(room, p, env)] + after;
    assert e[|before| + 1] == Project(p) && e[|before| + 2] == Store(room, p, env);
    assert forall i :: 0 <= i < |e| && i != |before| + 1 ==> !e[i].Project?;
    e
  }

  /** The model calls a scan makes and the image it starts from. */
  datatype ScanFile = ScanFile(
    image: Option<Dims>,
    canvas: Canvas,
    vision: (string, string) -> Result<Option<Json>>,
    generate: (string, string) -> Result<A2uiReply>)

  /** A detected document with a non-empty total takes the ledger branch. */
  predicate IsDocument(scan: Scan) {
    scan.documentDetected && RoomState.Given(scan.total)
  }

  /** The whole scan after the image has been downscaled to `b64`. */
  function AnalysedEffects(env: Foreign, file: ScanFile, ctx: Context, b64: string): (e: seq<Effect>)
    ensures e == [] <==> file.vision(b64, "image/jpeg").Failure?
    ensures forall i :: 0 <= i < |e| && e[i].Project? ==> Component(e[i].p) in Registry.Keys
  {
    match file.vision(b64, "image/jpeg")
    case Failure(_) => []
    case Success(data) =>
      var scan := ReadScan(data);
      if IsDocument(scan) then DocumentEffects(env, scan, ctx)
      else
        var current := CurrentRoom(ctx.roomId);
        var d := DefaultsOf(env, scan, current, "data:image/jpeg;base64," + b64);
        var reply := file.generate(Instruction(env, d.lines), ResolvedRoom(scan, current));
        ProjectionEffects(env, scan, ctx, FinalProjection(env, reply, d))
  }

  /** `handleFileSelect` on one file: a failure anywhere before the first
      effect ends the scan with no effect. */
  function ScanEffects(env: Foreign, file: ScanFile, ctx: Context): (e: seq<Effect>)
    ensures e != [] <==>
      Downscaled(file.image, file.canvas).Success? &&
      file.vision(Downscaled(file.image, file.canvas).value, "image/jpeg").Success?
    ensures forall i :: 0 <= i < |e| && e[i].Project? ==> Component(e[i].p) in Registry.Keys
  {
    match Downscaled(file.image, file.canvas)
    case Failure(_) => []
    case Success(b64) => AnalysedEffects(env, file, ctx, b64)
  }

  /** Every projection a scan shows is a registered component, it is stored
      under the same component right after it is shown, and only a scan that
      is not a document locks the scanner. */
  lemma ProjectionBranchShape(env: Foreign, scan: Scan, ctx: Context, p: Projection)
    ensures var e := ProjectionEffects(env, scan, ctx, p);
      var current := CurrentRoom(ctx.roomId);
      var room := ResolvedRoom(scan, current);
      var k := if room != current && ctx.hasRoomCallback then 1 else 0;
      |e| >= k + 3 && (k == 1 ==> e[0] == ChangeRoom(room)) &&
      e[k] == ScanLock(12000) && e[k + 1] == Project(p) &&
      e[k + 2] == UpdateRoom(RoomState.RoomUpdate(room, Component(p), env.stringify(PropsOf(p)), None, None)) &&
      Component(p) in Registry.Keys &&
      forall i :: 0 <= i < |e| && i != k + 1 ==> !e[i].Project?
  {
  }

  /** The document branch never changes room and never locks the scanner,
      and the card it stores is the card it shows. */
  lemma DocumentBranchShape(env: Foreign, scan: Scan, ctx: Context)
    requires scan.total.Some?
    ensures var e := DocumentEffects(env, scan, ctx);
      var card := DocumentCard(scan, ctx.today);
      e[0] == Project(card) && Component(card) == "BunkerLedger" &&
      e[1] == UpdateRoom(RoomState.RoomUpdate(ResolvedRoom(scan, CurrentRoom(ctx.roomId)), "BunkerLedger",
                                             env.stringify(PropsOf(card)), None, None)) &&
      forall i :: 0 <= i < |e| ==> !e[i].ScanLock? && !e[i].ChangeRoom?
  {
  }

  /** The scan component: the busy flag and the effects issued so far. */
  class ScanPanel {
    const ctx: Context
    var analyzing: bool
    var log: seq<Effect>

    constructor (ctx: Context)
      ensures this.ctx == ctx && !analyzing && log == []
    {
      this.ctx := ctx;
      analyzing := false;
      log := [];
    }

    /** One file selection run to completion: the busy flag is raised for
        the run and always lowered at the end; no file, no run. */
    method HandleFileSelect(env: Foreign, file: Option<ScanFile>)
      modifies this
      ensures file.None? ==> analyzing == old(analyzing) && log == old(log)
      ensures file.Some? ==> !analyzing && log == old(log) + ScanEffects(env, file.value, ctx)
    {
      if file.None? {
        return;
      }
      var f := file.value;
      analyzing := true;
      var down := Downscale(f.image, f.canvas);
      if down.Success? {
        Analyse(env, f, down.value);
      }
      analyzing := false;
    }

    /** The scan proper, once the image is encoded: the vision call, then
        the document or the projection branch. */
    method Analyse(env: Foreign, f: ScanFile, b64: string)
      modifies this
      ensures log == old(log) + AnalysedEffects(env, f, ctx, b64)
      ensures analyzing == old(analyzing)
    {
      var result := f.vision(b64, "image/jpeg");
      if result.Success? {
        var scan := ReadScan(result.value);
        if IsDocument(scan) {
          log := log + DocumentEffects(env, scan, ctx);
        } else {
          var current := CurrentRoom(ctx.roomId);
          var d := DefaultsOf(env, scan, current, "data:image/jpeg;base64," + b64);
          var reply := f.generate(Instruction(env, d.lines), ResolvedRoom(scan, current));
          log := log + ProjectionEffects(env, scan, ctx, FinalProjection(env, reply, d));
        }
      }
    }
  }
}
