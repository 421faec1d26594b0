/** The chat terminal: the payload and spend extraction applied to every
    message, the dossier projection, the routing of a sent message through
    its intercepts, and the loop that persists visible messages once each.
    Window events and the mutations the terminal issues are kept, in order,
    as an output log; the chat runtime and the direct model call are
    parameters. */
module SanctuaryTerminal {
  import opened Wrappers
  import opened Json
  import Text
  import Registry
  import RoomState
  import Ledger

  // ---------------------------------------------------------------- payload extraction

  const Fence := "```"
  const FenceJson := "```json"
  const Acknowledged := "Acknowledged. Updating display."

  /** The end of the run of white space starting at `i`. */
  function SpaceRunEnd(s: string, i: nat): (e: nat)
    requires i <= |s|
    ensures i <= e <= |s| && (e == |s| || !Text.IsJsSpace(s[e]))
    ensures forall k :: i <= k < e ==> Text.IsJsSpace(s[k])
    decreases |s| - i
  {
    if i < |s| && Text.IsJsSpace(s[i]) then SpaceRunEnd(s, i + 1) else i
  }

  /** An opening "```json" at `p`, in any case. */
  predicate OpensAt(s: string, p: int) {
    Text.OccursAt(Text.ToLower(s), FenceJson, p)
  }

  /** The first match of `/```json\s*([\s\S]*?)```/i`: the opening, and the
      start and end of the captured text. Only the first opening can match,
      since a closing after a later opening also follows the first. */
  function FencedBlock(raw: string): (r: Option<(nat, nat, nat)>)
    ensures r.Some? ==>
      var (p, a, b) := r.value;
      p + 7 <= a <= b && b + 3 <= |raw| && OpensAt(raw, p) &&
      (forall k :: 0 <= k < p ==> !OpensAt(raw, k)) &&
      (forall k :: p + 7 <= k < a ==> Text.IsJsSpace(raw[k])) && (a == |raw| || !Text.IsJsSpace(raw[a])) &&
      Text.OccursAt(raw, Fence, b) && (forall k :: a <= k < b ==> !Text.OccursAt(raw, Fence, k))
    ensures r.None? ==> forall p, b :: OpensAt(raw, p) && p + 7 <= b ==> !Text.OccursAt(raw, Fence, b)
  {
    match Text.IndexOf(Text.ToLower(raw), FenceJson)
    case None => None
    case Some(p) =>
      var a := SpaceRunEnd(raw, p + 7);
      match Text.IndexOfFrom(raw, Fence, a)
      case None =>
        NoClosingFence(raw, p, a);
        None
      case Some(b) => Some((p, a, b))
  }

  /** With no closing after the first opening's white space, no opening is
      ever closed. */
  lemma NoClosingFence(raw: string, p: nat, a: nat)
    requires Text.IndexOf(Text.ToLower(raw), FenceJson) == Some(p)
    requires p + 7 <= |raw| && a == SpaceRunEnd(raw, p + 7)
    requires Text.IndexOfFrom(raw, Fence, a).None?
    ensures forall q, b :: OpensAt(raw, q) && q + 7 <= b ==> !Text.OccursAt(raw, Fence, b)
  {
    forall q, b | OpensAt(raw, q) && q + 7 <= b ensures !Text.OccursAt(raw, Fence, b) {
      if b < a {
        assert Text.IsJsSpace(raw[b]);
      }
    }
  }

  /** The text `JSON.parse` is tried on: the fenced block's contents when
      there is one, otherwise the greedy brace span. */
  function Candidate(raw: string): Option<string> {
    match FencedBlock(raw)
    case Some((_, a, b)) => Some(raw[a..b])
    case None =>
      match Text.BraceSpan(raw)
      case Some((i, j)) => Some(raw[i..j])
      case None => None
  }

  /** `raw.replace(/```json[\s\S]*?```/gi, "")`: each opening up to the next
      closing, left to right. */
  function RemoveFences(s: string): (r: string)
    ensures |r| <= |s|
    decreases |s|
  {
    match Text.IndexOf(Text.ToLower(s), FenceJson)
    case None => s
    case Some(p) =>
      match Text.IndexOfFrom(s, Fence, p + 7)
      case None => s
      case Some(b) => s[..p] + RemoveFences(s[b + 3..])
  }

  /** `.replace(/\{[\s\S]*\}/, "")`: the first brace span only. */
  function RemoveBraceSpan(s: string): string {
    match Text.BraceSpan(s)
    case Some((i, j)) => s[..i] + s[j..]
    case None => s
  }

  datatype Extracted = Extracted(cleaned: string, payload: Option<Json>)

  /** `extractA2UIPayload`: never throws; a candidate that does not parse
      gives no payload. */
  function Extract(env: Foreign, raw: string): (x: Extracted)
    ensures x.cleaned != ""
    ensures x.cleaned == Acknowledged || (!Text.IsJsSpace(x.cleaned[0]) && !Text.IsJsSpace(x.cleaned[|x.cleaned| - 1]))
    ensures var c := Candidate(raw); c.None? || c == Some("") ==> x.payload.None?
    ensures var c := Candidate(raw); c.Some? && c.value != "" ==> x.payload == env.parse(c.value)
  {
    Extracted(Cleaned(raw), Parsed(env, Candidate(raw)))
  }

  /** A candidate is parsed only when it is non-empty. */
  function Parsed(env: Foreign, candidate: Option<string>): Option<Json> {
    if candidate.Some? && candidate.value != "" then env.parse(candidate.value) else None
  }

  /** The text left once the fenced blocks and the first brace span are
      removed and the ends trimmed, or the acknowledgement when nothing is
      left. */
  function Cleaned(raw: string): (c: string)
    ensures c != ""
    ensures c == Acknowledged || (!Text.IsJsSpace(c[0]) && !Text.IsJsSpace(c[|c| - 1]))
  {
    TrimmedOr(RemoveBraceSpan(RemoveFences(raw)), Acknowledged)
  }

  /** `s.trim() || dflt`. */
  function TrimmedOr(s: string, dflt: string): (c: string)
    requires dflt != ""
    ensures c != ""
    ensures c == dflt || (!Text.IsJsSpace(c[0]) && !Text.IsJsSpace(c[|c| - 1]))
    ensures c == dflt || c == Text.Trim(s)
  {
    var t := Text.Trim(s);
    if t != "" then t else dflt
  }

  /** Text with no backtick and no brace is shown trimmed, or as the
      acknowledgement when blank, and carries no payload. */
  lemma PlainTextPassesThrough(env: Foreign, raw: string)
    requires forall k :: 0 <= k < |raw| ==> raw[k] != '`' && raw[k] != '{'
    ensures Extract(env, raw).payload.None?
    ensures Extract(env, raw).cleaned == if Text.Trim(raw) != "" then Text.Trim(raw) else Acknowledged
  {
    NoBacktickNoOpening(raw);
  }

  lemma NoBacktickNoOpening(s: string)
    requires forall k :: 0 <= k < |s| ==> s[k] != '`'
    ensures !Text.Contains(Text.ToLower(s), FenceJson)
  {
    var lower := Text.ToLower(s);
    forall k | 0 <= k <= |lower| - |FenceJson| ensures !Text.OccursAt(lower, FenceJson, k) {
      assert lower[k] == Text.LowerChar(s[k]) != '`';
    }
  }

  /** The opening of a fenced block at the start of the text is found there. */
  lemma OpeningAtStart(j: string)
    ensures Text.IndexOf(Text.ToLower(FenceJson + j + Fence), FenceJson) == Some(0)
  {
    var lower := Text.ToLower(FenceJson + j + Fence);
    assert lower[..7] == FenceJson;
    assert Text.OccursAt(lower, FenceJson, 0);
  }

  /** Contents without a backtick are closed by the final fence. */
  lemma ClosingAtEnd(j: string)
    requires forall k :: 0 <= k < |j| ==> j[k] != '`'
    ensures Text.IndexOfFrom(FenceJson + j + Fence, Fence, 7) == Some(7 + |j|)
  {
    var raw := FenceJson + j + Fence;
    var e := 7 + |j|;
    assert |raw| == e + 3;
    assert raw[e..] == Fence;
    assert Text.OccursAt(raw, Fence, e);
    var r := Text.IndexOfFrom(raw, Fence, 7);
    assert r.Some? && r.value <= e;
    if r.value < e {
      assert 7 <= r.value < 7 + |j|;
      assert raw[r.value] == j[r.value - 7];
      NoFenceAt(raw, r.value);
    }
  }

  /** No closing starts at a character other than a backtick. */
  lemma NoFenceAt(s: string, k: nat)
    requires k < |s| && s[k] != '`'
    ensures !Text.OccursAt(s, Fence, k)
  {
    if k + 3 <= |s| {
      assert s[k..k + 3][0] == s[k];
    }
  }

  /** A fenced JSON block on its own is found as a block spanning the whole
      text. */
  lemma FencedBlockWhole(j: string)
    requires j != [] && !Text.IsJsSpace(j[0])
    requires forall k :: 0 <= k < |j| ==> j[k] != '`'
    ensures FencedBlock(FenceJson + j + Fence) == Some((0, 7, 7 + |j|))
    ensures Text.IndexOf(Text.ToLower(FenceJson + j + Fence), FenceJson) == Some(0)
  {
    var raw := FenceJson + j + Fence;
    OpeningAtStart(j);
    ClosingAtEnd(j);
    assert raw[7] == j[0];
    assert SpaceRunEnd(raw, 7) == 7;
  }

  /** A fenced JSON block on its own is read as its contents and displays
      only the acknowledgement. */
  lemma FencedBlockRoundTrip(env: Foreign, j: string)
    requires j != [] && !Text.IsJsSpace(j[0])
    requires forall k :: 0 <= k < |j| ==> j[k] != '`'
    ensures Extract(env, FenceJson + j + Fence) == Extracted(Acknowledged, env.parse(j))
  {
    var raw := FenceJson + j + Fence;
    FencedBlockWhole(j);
    assert raw[7..7 + |j|] == j;
    assert Candidate(raw) == Some(j);
    assert raw[7 + |j| + 3..] == [];
    assert RemoveFences(raw) == [];
  }

  // ---------------------------------------------------------------- spend extraction

  const Pound: char := '\U{00A3}'

  /** A match of `/(?:£|gbp)\s?/i` at `p` that is followed by a digit:
      the index of that digit. */
  function SpendDigitAt(s: string, p: nat): (d: Option<nat>)
    requires p <= |s|
    ensures d.Some? ==> p < d.value < |s| && Text.IsDigit(s[d.value])
  {
    var a := if p < |s| && s[p] == Pound then Some(p + 1)
      else if Text.OccursAt(Text.ToLower(s), "gbp", p) then Some(p + 3)
      else None;
    match a
    case None => None
    case Some(a) =>
      if a < |s| && Text.IsDigit(s[a]) then Some(a)
      else if a + 1 < |s| && Text.IsJsSpace(s[a]) && Text.IsDigit(s[a + 1]) then Some(a + 1)
      else None
  }

  /** The leftmost match at or after `from`: its start and its first digit. */
  function SpendFrom(s: string, from: nat): (r: Option<(nat, nat)>)
    requires from <= |s|
    ensures r.Some? ==> from <= r.value.0 <= |s| && SpendDigitAt(s, r.value.0) == Some(r.value.1)
    ensures r.Some? ==> forall q :: from <= q < r.value.0 ==> SpendDigitAt(s, q).None?
    ensures r.None? ==> forall q :: from <= q <= |s| ==> SpendDigitAt(s, q).None?
    decreases |s| - from
  {
    match SpendDigitAt(s, from)
    case Some(d) => Some((from, d))
    case None => if from == |s| then None else SpendFrom(s, from + 1)
  }

  /** The white space, letters, digits and hyphens of the allocation class. */
  predicate InAllocationClass(c: char) {
    Text.IsDigit(c) || Text.IsAsciiLetter(c) || Text.IsJsSpace(c) || c == '-'
  }

  predicate Terminates(s: string, e: nat)
    requires e <= |s|
  {
    e == |s| || s[e] == '.' || s[e] == '?' || s[e] == '!'
  }

  function ClassRunEnd(s: string, i: nat): (e: nat)
    requires i <= |s|
    ensures i <= e <= |s| && (e == |s| || !InAllocationClass(s[e]))
    ensures forall k :: i <= k < e ==> InAllocationClass(s[k])
    decreases |s| - i
  {
    if i < |s| && InAllocationClass(s[i]) then ClassRunEnd(s, i + 1) else i
  }

  /** The capture of `/to\s+([a-z0-9\s-]+?)(?:[.?!]|$)/i` when it matches at
      `p`. The lazy group runs to the first terminator; when the white space
      is followed at once by a terminator, the group takes the last white
      space character, which the regex gives back from `\s+`. */
  function AllocationAt(s: string, p: nat): (r: Option<string>)
    requires p <= |s|
    ensures r.Some? ==> r.value != [] && forall k :: 0 <= k < |r.value| ==> InAllocationClass(r.value[k])
  {
    if !Text.OccursAt(Text.ToLower(s), "to", p) then None
    else
      var a := p + 2;
      var w := SpaceRunEnd(s, a);
      if w == a then None
      else
        var e := ClassRunEnd(s, w);
        if !Terminates(s, e) then None
        else if e > w then Some(s[w..e])
        else if w >= a + 2 then Some(s[w - 1..e])
        else None
  }

  /** The start of the leftmost allocation match at or after `from`. */
  function AllocationFrom(s: string, from: nat): (r: Option<nat>)
    requires from <= |s|
    ensures r.Some? ==> from <= r.value <= |s| && AllocationAt(s, r.value).Some?
    ensures r.Some? ==> forall q :: from <= q < r.value ==> AllocationAt(s, q).None?
    ensures r.None? ==> forall q :: from <= q <= |s| ==> AllocationAt(s, q).None?
    decreases |s| - from
  {
    if AllocationAt(s, from).Some? then Some(from)
    else if from == |s| then None
    else AllocationFrom(s, from + 1)
  }

  const GeneralAllocation := "General Allocation"

  /** The trimmed capture of the leftmost match, or "General Allocation"
      when nothing matches. */
  function Allocation(text: string): (r: string) {
    match AllocationFrom(text, 0)
    case Some(q) => Text.Trim(AllocationAt(text, q).value)
    case None => GeneralAllocation
  }

  datatype Spend = Spend(amount: real, allocation: string)

  /** `extractSpend`: the first amount after a pound sign or "gbp". */
  function ExtractSpend(text: string): (r: Option<Spend>)
    ensures r.None? <==> forall q :: 0 <= q <= |text| ==> SpendDigitAt(text, q).None?
    ensures r.Some? ==> r.value.allocation == Allocation(text) && r.value.amount >= 0.0
    ensures r.Some? ==> Text.WholePence(r.value.amount)
    ensures r.Some? ==>
      exists q :: 0 <= q <= |text| && SpendDigitAt(text, q).Some? &&
        (forall p :: 0 <= p < q ==> SpendDigitAt(text, p).None?) &&
        var (whole, frac) := Text.DecimalAt(text, SpendDigitAt(text, q).value);
        r.value.amount == Text.DecimalValue(whole, frac)
  {
    match SpendFrom(text, 0)
    case None => None
    case Some((_, d)) =>
      var (whole, frac) := Text.DecimalAt(text, d);
      Text.DecimalInPence(whole, frac);
      Some(Spend(Text.DecimalValue(whole, frac), Allocation(text)))
  }

  const SpendSample := "\U{00A3}5 to fuel"

  /** A short message with an amount and a destination. */
  lemma SpendExample()
    ensures ExtractSpend(SpendSample) == Some(Spend(5.0, "fuel"))
  {
    SampleSpend(SpendSample);
  }

  lemma SampleSpend(s: string)
    requires s == SpendSample
    ensures ExtractSpend(s) == Some(Spend(5.0, "fuel"))
  {
    assert s[0] == Pound && s[1] == '5' && s[2] == ' ';
    assert SpendDigitAt(s, 0) == Some(1);
    assert SpendFrom(s, 0) == Some((0, 1));
    assert Text.DigitRunEnd(s, 1) == 2 by {
      assert Text.DigitRunEnd(s, 2) == 2;
    }
    assert s[1..2] == "5";
    assert Text.DecimalAt(s, 1) == ("5", "");
    assert Text.DigitsValue("5") == 5 by { assert "5"[..0] == ""; }
    assert Text.DigitsValue("") == 0 && Text.Pow10(0) == 1;
    assert Text.DecimalValue("5", "") == 5.0;
    SampleAllocation(s);
    assert ExtractSpend(s) == Some(Spend(Text.DecimalValue("5", ""), Allocation(s)));
  }

  /** No "to" can start where the text has neither `t` nor `T`. */
  lemma NoToAt(s: string, p: nat)
    requires p < |s| && s[p] != 't' && s[p] != 'T'
    ensures !Text.OccursAt(Text.ToLower(s), "to", p)
  {
    var lower := Text.ToLower(s);
    assert lower[p] == Text.LowerChar(s[p]) != 't';
  }

  lemma SampleAllocation(s: string)
    requires s == SpendSample
    ensures Allocation(s) == "fuel"
  {
    SampleMatchStart(s);
    SampleAllocationAt(s);
    TrimFuel();
  }

  /** The leftmost match of the sample starts at its "to". */
  lemma SampleMatchStart(s: string)
    requires s == SpendSample
    ensures AllocationFrom(s, 0) == Some(3)
  {
    assert s[0] == Pound && s[1] == '5' && s[2] == ' ';
    SampleAllocationAt(s);
    assert AllocationFrom(s, 3) == Some(3);
    AllocationSkips(s, 2);
    AllocationSkips(s, 1);
    AllocationSkips(s, 0);
  }

  /** The search moves past a position that cannot start "to". */
  lemma AllocationSkips(s: string, p: nat)
    requires p < |s| && s[p] != 't' && s[p] != 'T'
    ensures AllocationFrom(s, p) == AllocationFrom(s, p + 1)
  {
    NoToAt(s, p);
  }

  lemma TrimFuel()
    ensures Text.Trim("fuel") == "fuel"
  {
    assert Text.TrimStart("fuel") == "fuel" && Text.TrimEnd("fuel") == "fuel";
  }

  lemma SampleAllocationAt(s: string)
    requires s == SpendSample
    ensures AllocationAt(s, 3) == Some("fuel")
  {
    var lower := Text.ToLower(s);
    assert lower[3] == 't' && lower[4] == 'o';
    assert lower[3..5] == "to";
    assert SpaceRunEnd(s, 5) == 6 by {
      assert SpaceRunEnd(s, 6) == 6;
    }
    assert ClassRunEnd(s, 6) == 10 by {
      assert ClassRunEnd(s, 10) == 10;
      assert ClassRunEnd(s, 9) == 10;
      assert ClassRunEnd(s, 8) == 10;
      assert ClassRunEnd(s, 7) == 10;
    }
    assert s[6..10] == "fuel";
  }

  // ---------------------------------------------------------------- events

  /** What the terminal does outside itself, in order. */
  datatype Event =
    | Project(component: Json, props: Json)
    | Persist(u: RoomState.RoomUpdate)
    | SaveMessage(role: string, content: string, sourceId: string)
    | Append(content: string)
    | ChatEvent(role: string, content: string)
    | RoomChange(roomId: string)
    | Glitch(level: real)
    | LogSpend(args: Ledger.LogSpendArgs)

  /** A hard-coded projection shown and stored in the control room. */
  function ShowInControlRoom(env: Foreign, component: string, props: Json): seq<Event> {
    [Project(JStr(component), props),
     Persist(RoomState.RoomUpdate("control_room", component, env.stringify(props), None, None))]
  }

  /** A payload is shown and stored only when both its component and its
      props are truthy; a component that is not a string is shown but the
      store refuses it. */
  function PayloadEffects(env: Foreign, payload: Option<Json>): (r: seq<Event>)
    ensures r != [] <==> Truthy(Prop(payload, "component")) && Truthy(Prop(payload, "props"))
    ensures r != [] ==> r[0] == Project(Prop(payload, "component").value, Prop(payload, "props").value)
    ensures |r| == 2 <==> r != [] && Prop(payload, "component").value.JStr?
    ensures forall i :: 0 <= i < |r| ==> r[i].Project? || r[i].Persist?
  {
    var comp := Prop(payload, "component");
    var props := Prop(payload, "props");
    if Truthy(comp) && Truthy(props) then
      [Project(comp.value, props.value)] +
      (if comp.value.JStr?
       then [Persist(RoomState.RoomUpdate("control_room", comp.value.s, env.stringify(props.value), None, None))]
       else [])
    else []
  }

  // ---------------------------------------------------------------- dossiers

  datatype Dossier = Julian | Eleanor | Cassie

  function NameOf(d: Dossier): string {
    match d
    case Julian => "julian"
    case Eleanor => "eleanor"
    case Cassie => "cassie"
  }

  /** The earliest case-insensitive mention of one of the three names. */
  function DossierTarget(text: string): (r: Option<Dossier>)
    ensures var lower := Text.ToLower(text);
      r.None? <==> !Text.Contains(lower, "julian") && !Text.Contains(lower, "eleanor") && !Text.Contains(lower, "cassie")
    ensures r.Some? ==> Text.Contains(Text.ToLower(text), NameOf(r.value))
  {
    var lower := Text.ToLower(text);
    var j := Text.IndexOf(lower, "julian");
    var e := Text.IndexOf(lower, "eleanor");
    var c := Text.IndexOf(lower, "cassie");
    if j.Some? && (e.None? || j.value <= e.value) && (c.None? || j.value <= c.value) then Some(Julian)
    else if e.Some? && (c.None? || e.value <= c.value) then Some(Eleanor)
    else if c.Some? then Some(Cassie)
    else None
  }

  /** The dossier chosen is the name mentioned first. */
  lemma DossierTargetEarliest(text: string, d: Dossier)
    requires DossierTarget(text).Some? && Text.IndexOf(Text.ToLower(text), NameOf(d)).Some?
    ensures var lower := Text.ToLower(text);
      Text.IndexOf(lower, NameOf(DossierTarget(text).value)).value <= Text.IndexOf(lower, NameOf(d)).value
  {
  }

  function DossierComponent(d: Dossier): string {
    if d == Julian then "BunkerTerminal" else "ArtifactCard"
  }

  const JulianProps: Json :=
    JObj(map["header" := JStr("SOVEREIGN DOSSIER: JULIAN CROFT"),
             "lines" := JArr([JStr("ROLE: STRATEGIST / BOATHOUSE"), JStr("MANDATE: TECHNICAL TRUTH"),
                              JStr("TONE: PRECISE, RESTRAINED"), JStr("KEYWORDS: VECTORS, SALINITY, RESILIENCE")])])

  const EleanorContent: string := Text.Join(["Mandate: Meaning-making, archival " + "continuity, and human memory.",
                                             "Tone: Poetic, calm, reflective. Witness " + "to the Solent."], " ")

  const EleanorProps: Json :=
    JObj(map["title" := JStr("SOVEREIGN DOSSIER: ELEANOR VANCE"), "content" := JStr(EleanorContent),
             "type" := JStr("Reflection")])

  const CassieContent: string := Text.Join(["Mandate: Prototyping, augmentation, and " + "controlled experimentation.",
                                            "Tone: Energetic, inventive, optimistic."], " ")

  const CassieProps: Json :=
    JObj(map["title" := JStr("SOVEREIGN DOSSIER: CASSIE MONROE"), "content" := JStr(CassieContent),
             "type" := JStr("Signal")])

  function DossierProps(d: Dossier): Json {
    match d
    case Julian => JulianProps
    case Eleanor => EleanorProps
    case Cassie => CassieProps
  }

  /** `applyDossierProjection`. */
  function DossierEffects(env: Foreign, text: string): (r: seq<Event>)
    ensures DossierTarget(text).None? <==> r == []
    ensures r != [] ==> |r| == 2 && r[1].Persist? && r[1].u.roomId == "control_room"
  {
    match DossierTarget(text)
    case None => []
    case Some(d) => ShowInControlRoom(env, DossierComponent(d), DossierProps(d))
  }

  /** A mention of a name shows its dossier in the control room, under a
      registry key; no mention, no effect. */
  lemma DossierShownInControlRoom(env: Foreign, text: string)
    ensures DossierTarget(text).None? <==> DossierEffects(env, text) == []
    ensures DossierTarget(text).Some? ==>
      var d := DossierTarget(text).value;
      var e := DossierEffects(env, text);
      |e| == 2 && e[0] == Project(JStr(DossierComponent(d)), DossierProps(d)) &&
      e[1].Persist? && e[1].u.roomId == "control_room" && e[1].u.component == DossierComponent(d) &&
      DossierComponent(d) in Registry.Keys
  {
    if DossierTarget(text).Some? {
      var d := DossierTarget(text).value;
      assert DossierEffects(env, text) == ShowInControlRoom(env, DossierComponent(d), DossierProps(d));
      assert DossierComponent(d) == "BunkerTerminal" || DossierComponent(d) == "ArtifactCard";
    }
  }

  /** Julian's dossier is a terminal with a header and lines; the two artifact
      dossiers carry a title, content and type, and differ in their type. */
  lemma DossierPropsShape(d: Dossier)
    ensures DossierProps(d).JObj?
    ensures DossierProps(d).fields.Keys == (if d == Julian then {"header", "lines"} else {"title", "content", "type"})
    ensures d == Eleanor ==> DossierProps(d).fields["type"] == JStr("Reflection")
    ensures d == Cassie ==> DossierProps(d).fields["type"] == JStr("Signal")
  {
  }

  // ---------------------------------------------------------------- routing a sent message

  datatype Route = Ignored | ProtocolZero | LedgerQuery | ChatSend

  const ProtocolPhrase := "INITIATE PROTOCOL ZERO"

  predicate MentionsLedger(content: string) {
    var lower := Text.ToLower(content);
    Text.Contains(lower, "ledger") || Text.Contains(lower, "purchases") || Text.Contains(lower, "spending")
  }

  /** The intercepts in the order `handleSend` tries them. */
  function RouteOf(content: string): (r: Route)
    ensures r == ProtocolZero ==> Text.Contains(Text.ToUpper(content), ProtocolPhrase)
    ensures r == LedgerQuery ==> MentionsLedger(content) && !Text.Contains(Text.ToUpper(content), ProtocolPhrase)
  {
    if Text.Trim(content) == "" then Ignored
    else if Text.Contains(Text.ToUpper(content), ProtocolPhrase) then ProtocolZero
    else if MentionsLedger(content) then LedgerQuery
    else ChatSend
  }

  /** Blank input is ignored whatever it holds; the protocol phrase wins
      over a ledger word; the chat is reached only past both intercepts. */
  lemma RouteOrder(content: string)
    ensures RouteOf(content) == Ignored <==> forall i :: 0 <= i < |content| ==> Text.IsJsSpace(content[i])
    ensures RouteOf(content) != Ignored && Text.Contains(Text.ToUpper(content), ProtocolPhrase) ==>
      RouteOf(content) == ProtocolZero
    ensures RouteOf(content) == ChatSend ==>
      !Text.Contains(Text.ToUpper(content), ProtocolPhrase) && !MentionsLedger(content)
  {
  }

  datatype LocalMessage = LocalMessage(id: string, role: string, content: string)

  const ProtocolWarning :=
    ">> WARNING: SEAVIEW SAFETY PROTOCOLS " +
    "OVERRIDDEN.\n>> INITIATING DEEP CORE " +
    "SEQUENCE..."

  const IsabellaProps: Json :=
    JObj(map["type" := JStr("Myth"), "title" := JStr("PROTOCOL ZERO: ISABELLA"),
             "content" := JStr("She is the ghost in the machine. " + "Requires clearance Level 0."),
             "image" := JStr("https://res.cloudinary.com/dptqxjhb8/" + "image/upload/v1764350000/" + "isabella_card_glow.png")])

  /** The Protocol Zero sequence; the two delayed steps follow in order. */
  function ProtocolZeroEvents(content: string, id: string): seq<Event> {
    [SaveMessage("user", content, id), ChatEvent("assistant", ProtocolWarning),
     Project(JStr("ArtifactCard"), IsabellaProps), RoomChange("deep_core")]
  }

  /** `toFixed(2)` of an exact decimal: the nearest hundredth, the larger
      one on a tie, with a minus sign for a negative value. */
  function FixedTwo(x: real): string {
    var ax := if x < 0.0 then -x else x;
    var n := (ax * 100.0 + 0.5).Floor;
    (if x < 0.0 then "-" else "") + Text.NatToString(n / 100) + "." + Text.PadStart(Text.NatToString(n % 100), 2, '0')
  }

  function EntryLine(e: Ledger.Entry): (r: string)
    ensures |r| > |e.allocation| && r[0] == '\U{00A3}' && r[|r| - |e.allocation|..] == e.allocation
  {
    "\U{00A3}" + FixedTwo(e.amountGBP) + " | " + e.merchant + " | " + e.allocation
  }

  const HistoryHead := "PROVISIONING HISTORY: "
  const HistoryTail := " ENTRIES RECOVERED"
  const IntegrityFooter := "LEDGER INTEGRITY: VERIFIED"

  /** The ledger archive lines: a count, one line per entry in the order
      given, and the integrity footer. */
  function LedgerLines(entries: seq<Ledger.Entry>): (r: seq<string>)
    ensures |r| == |entries| + 4
    ensures r[0] == HistoryHead + Text.IntToString(|entries|) + HistoryTail
    ensures forall k :: 0 <= k < |entries| ==> r[k + 2] == EntryLine(entries[k])
    ensures r[|r| - 1] == IntegrityFooter
  {
    [HistoryHead + Text.IntToString(|entries|) + HistoryTail, ""] +
    seq(|entries|, k requires 0 <= k < |entries| => EntryLine(entries[k])) +
    ["", IntegrityFooter]
  }

  const LedgerGranted := "LEDGER ACCESS GRANTED. "
  const EntriesManifested := " entries manifested on wall."
  const LedgerEmpty :=
    "LEDGER ACCESS GRANTED. No entries found " +
    "in database. Upload a receipt to begin " +
    "tracking."

  /** The intercept's reply: the entry count when there are entries, else
      the empty-ledger notice. */
  function LedgerReply(recent: Option<seq<Ledger.Entry>>): (r: string)
    ensures recent.Some? && |recent.value| > 0 ==>
      |r| == |LedgerGranted| + |Text.IntToString(|recent.value|)| + |EntriesManifested| &&
      r[..|LedgerGranted|] == LedgerGranted &&
      r[|LedgerGranted|..|r| - |EntriesManifested|] == Text.IntToString(|recent.value|)
    ensures recent.None? || |recent.value| == 0 ==> r == LedgerEmpty
  {
    if recent.Some? && |recent.value| > 0
    then LedgerGranted + Text.IntToString(|recent.value|) + EntriesManifested
    else LedgerEmpty
  }

  const ArchiveHeader := "SEAVIEW LEDGER ARCHIVES"

  function ArchiveProps(entries: seq<Ledger.Entry>): Json {
    JObj(map["header" := JStr(ArchiveHeader), "lines" := JArr(Strings(LedgerLines(entries)))])
  }

  /** The ledger intercept: the archive card when there are entries, then the
      two messages saved in order. */
  function LedgerEvents(env: Foreign, content: string, recent: Option<seq<Ledger.Entry>>, localId: string, replyId: string): seq<Event> {
    (if recent.Some? && |recent.value| > 0 then ShowInControlRoom(env, "BunkerTerminal", ArchiveProps(recent.value)) else []) +
    [SaveMessage("user", content, localId), SaveMessage("assistant", LedgerReply(recent), replyId)]
  }

  /** A message of the chat runtime. */
  datatype ChatMessage = ChatMessage(id: string, role: string, content: string)

  /** Everything a chat send depends on from outside: the ids it draws, the
      recent ledger entries, the chat runtime's completion (absent when the
      runtime offers none, a failure when it throws, `None` inside when the
      result is not an array), the direct model call, and the caller. */
  datatype SendDeps = SendDeps(
    localId: string,
    replyId: string,
    recent: Option<seq<Ledger.Entry>>,
    completion: Option<Result<Option<seq<ChatMessage>>>>,
    brianChat: string -> Result<string>,
    today: string,
    identity: Option<string>,
    now: int)

  /** Where the assistant's reply comes from. */
  datatype Reply = Completed(id: string, text: string) | Fallback(text: string) | Failed

  function FallbackReply(deps: SendDeps, content: string): Reply {
    match deps.brianChat(content)
    case Success(r) => Fallback(r)
    case Failure(_) => Failed
  }

  /** The reply: the completion's last message when it is the assistant's,
      otherwise the direct model call; a throw on either path fails the send. */
  function ReplyOf(deps: SendDeps, content: string): (r: Reply)
    ensures r.Completed? ==>
      deps.completion.Some? && deps.completion.value.Success? && deps.completion.value.value.Some? &&
      var msgs := deps.completion.value.value.value;
      |msgs| > 0 && msgs[|msgs| - 1].role == "assistant" && r.text != ""
    ensures r.Fallback? ==> deps.brianChat(content) == Success(r.text)
    ensures r.Failed? ==> (deps.completion.Some? && deps.completion.value.Failure?) || deps.brianChat(content).Failure?
  {
    match deps.completion
    case None => FallbackReply(deps, content)
    case Some(Failure(_)) => Failed
    case Some(Success(msgs)) =>
      if msgs.Some? && |msgs.value| > 0 && msgs.value[|msgs.value| - 1].role == "assistant" then
        var last := msgs.value[|msgs.value| - 1];
        Completed(if last.id != "" then last.id else deps.replyId,
                  if last.content != "" then last.content else "[NO RESPONSE]")
      else FallbackReply(deps, content)
  }

  function LedgerSpendArgs(sp: Spend, today: string): Ledger.LogSpendArgs {
    Ledger.LogSpendArgs(sp.amount, sp.allocation, Ledger.Omitted, today, Ledger.Omitted, Ledger.Passed("Julian"))
  }

  function LedgerCardProps(sp: Spend, today: string, entryId: nat): Json {
    JObj(map["date" := JStr(today), "amountGBP" := JNum(sp.amount), "allocation" := JStr(sp.allocation),
             "verifiedBy" := JStr("Julian"), "entryId" := JNum(entryId as real)])
  }

  /** `projectLedger`: the spend is logged first; the card then carries the
      new entry's id. */
  function SpendEvents(env: Foreign, sp: Spend, today: string, entryId: nat): (r: seq<Event>)
    ensures |r| == 3 && r[0] == LogSpend(LedgerSpendArgs(sp, today))
    ensures r[2].Persist? && r[2].u.component == "BunkerLedger" && r[2].u.roomId == "control_room"
  {
    [LogSpend(LedgerSpendArgs(sp, today))] + ShowInControlRoom(env, "BunkerLedger", LedgerCardProps(sp, today, entryId))
  }

  const UplinkError := "UPLINK ERROR. RETRY."

  /** The assistant text, parsed, when a reply arrived. */
  function Answer(env: Foreign, reply: Reply): Extracted {
    if reply.Failed? then Extracted("", None) else Extract(env, reply.text)
  }

  /** The events of a chat send, in order: the user's payload, the append to
      the chat runtime, and, when a reply arrived, the reply's payload and
      the spend named in the sent text; `entryId` is the id the ledger gives
      the next entry. */
  function SendEvents(env: Foreign, content: string, userPayload: Option<Json>, reply: Reply,
                      replyPayload: Option<Json>, spend: Option<Spend>, today: string, entryId: nat): (e: seq<Event>)
    ensures |PayloadEffects(env, userPayload)| < |e| && e[|PayloadEffects(env, userPayload)|] == Append(content)
    ensures reply.Failed? ==> |e| == |PayloadEffects(env, userPayload)| + 1
  {
    PayloadEffects(env, userPayload) + [Append(content)] +
    (if reply.Failed? then []
     else PayloadEffects(env, replyPayload) + (if spend.Some? then SpendEvents(env, spend.value, today, entryId) else []))
  }

  function ChatEvents(env: Foreign, content: string, deps: SendDeps, entryId: nat): (r: seq<Event>)
    ensures exists k :: 0 <= k < |r| && r[k] == Append(content)
  {
    var reply := ReplyOf(deps, content);
    SendEvents(env, content, Extract(env, content).payload, reply, Answer(env, reply).payload,
               ExtractSpend(content), deps.today, entryId)
  }

  /** The messages a chat send shows: the user's cleaned text, then the
      assistant's when a reply arrived. */
  function SendMessages(display: string, localId: string, reply: Reply, replyId: string, replyText: string)
    : (r: seq<LocalMessage>)
    ensures |r| == (if reply.Failed? then 1 else 2)
    ensures r[0].id == localId && r[0].role == "user" && r[0].content != ""
    ensures display != "" ==> r[0].content == display
    ensures |r| == 2 ==> r[1].role == "assistant" && r[1].content == replyText
  {
    [LocalMessage(localId, "user", if display != "" then display else "UI PAYLOAD SUBMITTED")] +
    match reply
    case Failed => []
    case Completed(id, _) => [LocalMessage(id, "assistant", replyText)]
    case Fallback(_) => [LocalMessage(replyId, "assistant", replyText)]
  }

  function ChatMessages(env: Foreign, content: string, deps: SendDeps): seq<LocalMessage> {
    var reply := ReplyOf(deps, content);
    SendMessages(Extract(env, content).cleaned, deps.localId, reply, deps.replyId, Answer(env, reply).cleaned)
  }

  /** A chat send appends the user's text to the chat runtime exactly once,
      before any reply; a spend is logged exactly when a reply arrived and
      the sent text names an amount, and the ledger card then closes the
      send. */
  lemma SendOrder(env: Foreign, content: string, userPayload: Option<Json>, reply: Reply,
                  replyPayload: Option<Json>, spend: Option<Spend>, today: string, entryId: nat)
    ensures var e := SendEvents(env, content, userPayload, reply, replyPayload, spend, today, entryId);
      var k := |PayloadEffects(env, userPayload)|;
      k < |e| && e[k] == Append(content) &&
      (forall i :: 0 <= i < |e| && i != k ==> !e[i].Append?) &&
      ((!reply.Failed? && spend.Some?) <==> exists i :: 0 <= i < |e| && e[i].LogSpend?) &&
      (!reply.Failed? && spend.Some? ==> (
        e[|e| - 3] == LogSpend(LedgerSpendArgs(spend.value, today)) &&
        e[|e| - 2] == Project(JStr("BunkerLedger"), LedgerCardProps(spend.value, today, entryId))))
  {
    var pre := PayloadEffects(env, userPayload);
    var e := SendEvents(env, content, userPayload, reply, replyPayload, spend, today, entryId);
    var k := |pre|;
    var tail := if reply.Failed? then [] else
      PayloadEffects(env, replyPayload) + (if spend.Some? then SpendEvents(env, spend.value, today, entryId) else []);
    assert e == pre + [Append(content)] + tail;
    forall i | 0 <= i < |e| && i != k ensures !e[i].Append? && (e[i].LogSpend? ==> !reply.Failed? && spend.Some? && i == |e| - 3) {
      if i < k {
        assert e[i] == pre[i];
      } else {
        TailEvents(env, reply, replyPayload, spend, today, entryId, i - k - 1);
        assert e[i] == tail[i - k - 1];
      }
    }
    if !reply.Failed? && spend.Some? {
      TailEvents(env, reply, replyPayload, spend, today, entryId, |tail| - 3);
      TailEvents(env, reply, replyPayload, spend, today, entryId, |tail| - 2);
      assert e[|e| - 3] == tail[|tail| - 3];
      assert e[|e| - 2] == tail[|tail| - 2];
    }
  }

  /** The events after the append: the reply's payload effects, then, with a
      spend, the logged spend and the ledger card shown in the control
      room. */
  lemma TailEvents(env: Foreign, reply: Reply, replyPayload: Option<Json>, spend: Option<Spend>,
                   today: string, entryId: nat, i: int)
    ensures var tail := if reply.Failed? then [] else
      PayloadEffects(env, replyPayload) + (if spend.Some? then SpendEvents(env, spend.value, today, entryId) else []);
      (reply.Failed? ==> tail == []) &&
      (!reply.Failed? && spend.Some? ==> (
        |tail| >= 3 &&
        tail[|tail| - 3] == LogSpend(LedgerSpendArgs(spend.value, today)) &&
        tail[|tail| - 2] == Project(JStr("BunkerLedger"), LedgerCardProps(spend.value, today, entryId)))) &&
      (0 <= i < |tail| ==> (
        !tail[i].Append? &&
        (tail[i].LogSpend? ==> !reply.Failed? && spend.Some? && i == |tail| - 3)))
  {
    if !reply.Failed? {
      var pe := PayloadEffects(env, replyPayload);
      if 0 <= i < |pe| {
        assert pe[i].Project? || pe[i].Persist?;
      }
    }
  }

  /** The same for the send as the terminal runs it. */
  lemma ChatSendOrder(env: Foreign, content: string, deps: SendDeps, entryId: nat)
    ensures var e := ChatEvents(env, content, deps, entryId);
      var k := |PayloadEffects(env, Extract(env, content).payload)|;
      var spent := !ReplyOf(deps, content).Failed? && ExtractSpend(content).Some?;
      k < |e| && e[k] == Append(content) &&
      (forall i :: 0 <= i < |e| && i != k ==> !e[i].Append?) &&
      (spent <==> exists i :: 0 <= i < |e| && e[i].LogSpend?) &&
      (spent ==> (
        e[|e| - 3] == LogSpend(LedgerSpendArgs(ExtractSpend(content).value, deps.today)) &&
        e[|e| - 2] == Project(JStr("BunkerLedger"), LedgerCardProps(ExtractSpend(content).value, deps.today, entryId))))
  {
    var reply := ReplyOf(deps, content);
    SendOrder(env, content, Extract(env, content).payload, reply, Answer(env, reply).payload,
              ExtractSpend(content), deps.today, entryId);
  }

  /** Protocol Zero answers without the chat runtime or the model. */
  lemma ProtocolZeroSkipsChat(content: string, localId: string)
    ensures var e := ProtocolZeroEvents(content, localId);
      |e| == 4 && forall i :: 0 <= i < |e| ==> !e[i].Append? && !e[i].LogSpend?
  {
    var e := ProtocolZeroEvents(content, localId);
    assert e[0].SaveMessage? && e[1].ChatEvent? && e[2].Project? && e[3].RoomChange?;
  }

  /** The ledger intercept answers without the chat runtime or the model,
      and ends with the two saved messages. */
  lemma InterceptsSkipChat(env: Foreign, content: string, recent: Option<seq<Ledger.Entry>>, localId: string, replyId: string)
    ensures var e := LedgerEvents(env, content, recent, localId, replyId);
      (forall i :: 0 <= i < |e| ==> !e[i].Append? && !e[i].LogSpend?) &&
      e[|e| - 2] == SaveMessage("user", content, localId) &&
      e[|e| - 1] == SaveMessage("assistant", LedgerReply(recent), replyId) &&
      (|e| == 4 <==> recent.Some? && |recent.value| > 0)
  {
    var e := LedgerEvents(env, content, recent, localId, replyId);
    var tail := [SaveMessage("user", content, localId), SaveMessage("assistant", LedgerReply(recent), replyId)];
    if recent.Some? && |recent.value| > 0 {
      var show := ShowInControlRoom(env, "BunkerTerminal", ArchiveProps(recent.value));
      assert e == show + tail;
      assert show[0].Project? && show[1].Persist?;
    } else {
      assert e == tail;
    }
  }

  // ---------------------------------------------------------------- the persistence loop

  /** The id a visible message is saved under: its own, or a freshly drawn one. */
  function MessageId(m: ChatMessage, newId: nat -> string, i: nat): string {
    if m.id != "" then m.id else newId(i)
  }

  /** The ids known after the loop has seen `msgs`. */
  function SavedAfter(saved: set<string>, msgs: seq<ChatMessage>, newId: nat -> string): set<string> {
    if msgs == [] then saved
    else
      var pre := SavedAfter(saved, msgs[..|msgs| - 1], newId);
      var m := msgs[|msgs| - 1];
      if m.content == "" then pre else pre + {MessageId(m, newId, |msgs| - 1)}
  }

  /** The saves the loop issues over `msgs`. */
  function Saves(saved: set<string>, msgs: seq<ChatMessage>, newId: nat -> string): seq<Event> {
    if msgs == [] then []
    else
      var pre := msgs[..|msgs| - 1];
      var m := msgs[|msgs| - 1];
      var id := MessageId(m, newId, |msgs| - 1);
      Saves(saved, pre, newId) +
      (if m.content != "" && id !in SavedAfter(saved, pre, newId)
       then [SaveMessage(SaveRole(m.role), m.content, id)]
       else [])
  }

  /** The ids of a sequence of saves. */
  function SourceIds(events: seq<Event>): (r: seq<string>)
    ensures |r| == |events|
  {
    if events == [] then []
    else
      var last := events[|events| - 1];
      SourceIds(events[..|events| - 1]) + [if last.SaveMessage? then last.sourceId else ""]
  }

  predicate Distinct(ids: seq<string>) {
    forall i, j :: 0 <= i < j < |ids| ==> ids[i] != ids[j]
  }

  /** Each id is saved at most once: the loop's saves have distinct ids,
      none of them known before, and exactly the new ids become known. */
  lemma {:induction false} SavesOnce(saved: set<string>, msgs: seq<ChatMessage>, newId: nat -> string)
    ensures var ids := SourceIds(Saves(saved, msgs, newId));
      Distinct(ids) && (forall i :: 0 <= i < |ids| ==> ids[i] !in saved) &&
      SavedAfter(saved, msgs, newId) == saved + (set x | x in ids)
  {
    if msgs != [] {
      var pre := msgs[..|msgs| - 1];
      SavesOnce(saved, pre, newId);
      var m := msgs[|msgs| - 1];
      var id := MessageId(m, newId, |msgs| - 1);
      var before := Saves(saved, pre, newId);
      var ids0 := SourceIds(before);
      var known := SavedAfter(saved, pre, newId);
      if m.content != "" && id !in known {
        var ev := SaveMessage(SaveRole(m.role), m.content, id);
        assert Saves(saved, msgs, newId) == before + [ev];
        SourceIdsAppend(before, [ev]);
        var ids := ids0 + [id];
        assert SourceIds(Saves(saved, msgs, newId)) == ids;
        assert forall k :: 0 <= k < |ids0| ==> ids0[k] in known;
        forall i, j | 0 <= i < j < |ids| ensures ids[i] != ids[j] {
          if j == |ids0| {
            assert ids[i] == ids0[i] && ids0[i] in known;
          } else {
            assert ids[i] == ids0[i] && ids[j] == ids0[j];
          }
        }
        assert (set x | x in ids) == (set x | x in ids0) + {id};
      } else {
        assert Saves(saved, msgs, newId) == before + [] == before;
        assert SavedAfter(saved, msgs, newId) == known;
      }
    }
  }

  lemma SourceIdsAppend(a: seq<Event>, b: seq<Event>)
    requires |b| <= 1
    ensures SourceIds(a + b) == SourceIds(a) + SourceIds(b)
  {
    if |b| == 1 {
      assert (a + b)[..|a + b| - 1] == a;
    } else {
      assert a + b == a;
    }
  }

  /** One step of the loop: the message at `i` is saved when it has content
      and its id is not yet known. */
  lemma SavesStep(saved: set<string>, visible: seq<ChatMessage>, newId: nat -> string, i: nat)
    requires i < |visible|
    ensures var pre := visible[..i];
      var m := visible[i];
      var id := MessageId(m, newId, i);
      var known := SavedAfter(saved, pre, newId);
      SavedAfter(saved, visible[..i + 1], newId) == (if m.content == "" then known else known + {id}) &&
      Saves(saved, visible[..i + 1], newId) ==
        Saves(saved, pre, newId) + (if m.content != "" && id !in known then [SaveMessage(SaveRole(m.role), m.content, id)] else [])
  {
    assert visible[..i + 1][..i] == visible[..i];
  }

  /** The mounted terminal. */
  class Session {
    var input: string
    var messages: seq<LocalMessage>
    var log: seq<Event>
    var sendError: Option<string>
    var isabellaPulse: bool
    /** The ids the persistence loop has saved. */
    var savedIds: set<string>
    /** The session's record that the patron ritual has run. */
    var ritualSeen: bool
    const ledger: Ledger.LedgerStore

    constructor (ledger: Ledger.LedgerStore, ritualSeen: bool)
      ensures this.ledger == ledger && this.ritualSeen == ritualSeen
      ensures input == "" && messages == [] && log == [] && sendError.None? && !isabellaPulse && savedIds == {}
    {
      this.ledger := ledger;
      this.ritualSeen := ritualSeen;
      input := "";
      messages := [];
      log := [];
      sendError := None;
      isabellaPulse := false;
      savedIds := {};
    }

    /** The text typed into the input. */
    method Type(text: string)
      modifies this
      ensures input == text
      ensures messages == old(messages) && log == old(log) && sendError == old(sendError)
      ensures isabellaPulse == old(isabellaPulse) && savedIds == old(savedIds) && ritualSeen == old(ritualSeen)
    {
      input := text;
    }

    /** The patron ritual: once per session, for a signed-in user. */
    method OnUser(signedIn: bool, now: int)
      modifies this
      ensures ritualSeen == (old(ritualSeen) || signedIn)
      ensures signedIn && !old(ritualSeen) ==>
        log == old(log) + [Glitch(0.8), Project(JStr("ImagePanel"), PatronProps)] &&
        messages == old(messages) + [LocalMessage("sys-" + Text.IntToString(now), "assistant", PatronGreeting)]
      ensures !(signedIn && !old(ritualSeen)) ==> log == old(log) && messages == old(messages)
      ensures input == old(input) && sendError == old(sendError) && savedIds == old(savedIds)
      ensures isabellaPulse == old(isabellaPulse)
    {
      if signedIn && !ritualSeen {
        ritualSeen := true;
        log := log + [Glitch(0.8)];
        messages := messages + [LocalMessage("sys-" + Text.IntToString(now), "assistant", PatronGreeting)];
        log := log + [Project(JStr("ImagePanel"), PatronProps)];
      }
    }

    /** The "sanctuary:chat" listener: a message with content is shown and
        saved; the role defaults to the assistant. */
    method OnChatEvent(role: string, content: string, id: string)
      modifies this
      ensures content == "" ==> messages == old(messages) && log == old(log)
      ensures content != "" ==>
        var r := if role != "" then role else "assistant";
        messages == old(messages) + [LocalMessage(id, r, content)] &&
        log == old(log) + [SaveMessage(r, content, id)]
      ensures input == old(input) && sendError == old(sendError) && savedIds == old(savedIds)
      ensures isabellaPulse == old(isabellaPulse) && ritualSeen == old(ritualSeen)
    {
      if content != "" {
        var r := if role != "" then role else "assistant";
        messages := messages + [LocalMessage(id, r, content)];
        log := log + [SaveMessage(r, content, id)];
      }
    }

    /** The persistence effect over the chat runtime's visible messages. */
    method PersistVisible(visible: seq<ChatMessage>, newId: nat -> string)
      modifies this
      ensures savedIds == SavedAfter(old(savedIds), visible, newId)
      ensures log == old(log) + Saves(old(savedIds), visible, newId)
      ensures input == old(input) && messages == old(messages) && sendError == old(sendError)
      ensures isabellaPulse == old(isabellaPulse) && ritualSeen == old(ritualSeen)
    {
      var i := 0;
      while i < |visible|
        invariant 0 <= i <= |visible|
        invariant savedIds == SavedAfter(old(savedIds), visible[..i], newId)
        invariant log == old(log) + Saves(old(savedIds), visible[..i], newId)
        invariant input == old(input) && messages == old(messages) && sendError == old(sendError)
        invariant isabellaPulse == old(isabellaPulse) && ritualSeen == old(ritualSeen)
      {
        var msg := visible[i];
        SavesStep(old(savedIds), visible, newId, i);
        if msg.content != "" {
          var msgId := MessageId(msg, newId, i);
          if msgId !in savedIds {
            savedIds := savedIds + {msgId};
            log := log + [SaveMessage(SaveRole(msg.role), msg.content, msgId)];
          }
        }
        i := i + 1;
      }
      assert visible[..i] == visible;
    }

    /** The Protocol Zero intercept. */
    method SendProtocolZero(content: string, localId: string)
      modifies this
      ensures input == ""
      ensures messages == old(messages) + [LocalMessage(localId, "user", content)]
      ensures log == old(log) + ProtocolZeroEvents(content, localId)
      ensures sendError == old(sendError) && isabellaPulse == old(isabellaPulse)
      ensures savedIds == old(savedIds) && ritualSeen == old(ritualSeen)
    {
      input := "";
      messages := messages + [LocalMessage(localId, "user", content)];
      log := log + ProtocolZeroEvents(content, localId);
    }

    /** The ledger intercept. */
    method SendLedgerQuery(env: Foreign, content: string, deps: SendDeps)
      modifies this
      ensures input == ""
      ensures messages == old(messages) + [LocalMessage(deps.localId, "user", content),
                                           LocalMessage(deps.replyId, "assistant", LedgerReply(deps.recent))]
      ensures log == old(log) + LedgerEvents(env, content, deps.recent, deps.localId, deps.replyId)
      ensures sendError == old(sendError) && isabellaPulse == old(isabellaPulse)
      ensures savedIds == old(savedIds) && ritualSeen == old(ritualSeen)
    {
      input := "";
      messages := messages + [LocalMessage(deps.localId, "user", content)];
      if deps.recent.Some? && |deps.recent.value| > 0 {
        log := log + ShowInControlRoom(env, "BunkerTerminal", ArchiveProps(deps.recent.value));
      }
      messages := messages + [LocalMessage(deps.replyId, "assistant", LedgerReply(deps.recent))];
      log := log + [SaveMessage("user", content, deps.localId), SaveMessage("assistant", LedgerReply(deps.recent), deps.replyId)];
    }

    /** A message past both intercepts: shown, handed to the chat runtime,
        answered, and its spend logged once a reply has arrived. The parsed
        user text `user`, the reply, the parsed reply text `answer` and the
        spend are those the send computes. */
    method SendChat(env: Foreign, content: string, deps: SendDeps, user: Extracted, reply: Reply, answer: Extracted, spend: Option<Spend>)
      requires ledger.Valid()
      modifies this, ledger
      ensures ledger.Valid()
      ensures input == ""
      ensures messages == old(messages) + SendMessages(user.cleaned, deps.localId, reply, deps.replyId, answer.cleaned)
      ensures log == old(log) + SendEvents(env, content, user.payload, reply, answer.payload, spend, deps.today, old(ledger.nextId))
      ensures sendError == (if reply.Failed? then Some(UplinkError) else None)
      ensures isabellaPulse == (old(isabellaPulse) || Text.Contains(Text.ToLower(content), "isabella"))
      ensures savedIds == old(savedIds) && ritualSeen == old(ritualSeen)
      ensures if !reply.Failed? && spend.Some?
        then ledger.rows == old(ledger.rows) + [Ledger.NewEntry(old(ledger.nextId), RoomState.UserOf(deps.identity),
                                                               LedgerSpendArgs(spend.value, deps.today), deps.now)] &&
             ledger.nextId == old(ledger.nextId) + 1
        else ledger.rows == old(ledger.rows) && ledger.nextId == old(ledger.nextId)
    {
      input := "";
      if Text.Contains(Text.ToLower(content), "isabella") {
        isabellaPulse := true;
      }
      sendError := if reply.Failed? then Some(UplinkError) else None;
      messages := messages + SendMessages(user.cleaned, deps.localId, reply, deps.replyId, answer.cleaned);
      var entryId := ledger.nextId;
      if !reply.Failed? && spend.Some? {
        var res := ledger.LogSpend(deps.identity, LedgerSpendArgs(spend.value, deps.today), deps.now);
        entryId := res.value;
      }
      log := log + SendEvents(env, content, user.payload, reply, answer.payload, spend, deps.today, entryId);
    }

    /** `handleSend`, run to completion: blank input is left alone, and the
        intercepts are tried in order before the chat. */
    method HandleSend(env: Foreign, deps: SendDeps)
      requires ledger.Valid()
      modifies this, ledger
      ensures ledger.Valid()
      ensures savedIds == old(savedIds) && ritualSeen == old(ritualSeen)
      ensures RouteOf(old(input)) == Ignored ==>
        input == old(input) && messages == old(messages) && log == old(log) && sendError == old(sendError) &&
        isabellaPulse == old(isabellaPulse) && ledger.rows == old(ledger.rows)
      ensures RouteOf(old(input)) == ProtocolZero ==>
        input == "" && messages == old(messages) + [LocalMessage(deps.localId, "user", old(input))] &&
        log == old(log) + ProtocolZeroEvents(old(input), deps.localId) &&
        sendError == old(sendError) && isabellaPulse == old(isabellaPulse) && ledger.rows == old(ledger.rows)
      ensures RouteOf(old(input)) == LedgerQuery ==>
        input == "" &&
        messages == old(messages) + [LocalMessage(deps.localId, "user", old(input)),
                                     LocalMessage(deps.replyId, "assistant", LedgerReply(deps.recent))] &&
        log == old(log) + LedgerEvents(env, old(input), deps.recent, deps.localId, deps.replyId) &&
        sendError == old(sendError) && isabellaPulse == old(isabellaPulse) && ledger.rows == old(ledger.rows)
      ensures RouteOf(old(input)) == ChatSend ==>
        input == "" &&
        messages == old(messages) + ChatMessages(env, old(input), deps) &&
        log == old(log) + ChatEvents(env, old(input), deps, old(ledger.nextId)) &&
        sendError == (if ReplyOf(deps, old(input)).Failed? then Some(UplinkError) else None) &&
        isabellaPulse == (old(isabellaPulse) || Text.Contains(Text.ToLower(old(input)), "isabella")) &&
        ledger.rows == (if !ReplyOf(deps, old(input)).Failed? && ExtractSpend(old(input)).Some?
                        then old(ledger.rows) + [Ledger.NewEntry(old(ledger.nextId), RoomState.UserOf(deps.identity),
                                                                LedgerSpendArgs(ExtractSpend(old(input)).value, deps.today), deps.now)]
                        else old(ledger.rows))
    {
      var content := input;
      var route := RouteOf(content);
      if route == ProtocolZero {
        SendProtocolZero(content, deps.localId);
      } else if route == LedgerQuery {
        SendLedgerQuery(env, content, deps);
      } else if route == ChatSend {
        var reply := ReplyOf(deps, content);
        var answer := Answer(env, reply);
        SendChat(env, content, deps, Extract(env, content), reply, answer, ExtractSpend(content));
      }
    }
  }

  /** The role a visible message is saved under. */
  function SaveRole(role: string): string {
    if role == "user" then "user" else "assistant"
  }

  const PatronGreeting :=
    ">> IDENTITY VERIFIED: PATRON CLASS " +
    "DETECTED.\n>> PRIORITY BANDWIDTH " +
    "ALLOCATED.\n>> WELCOME TO THE DEEP, " +
    "PATRON."

  const PatronProps: Json :=
    JObj(map["src" := JStr("https://res.cloudinary.com/dptqxjhb8/" + "image/upload/v1764350000/" + "brian_avatar_hologram.png"),
             "caption" := JStr("SOVEREIGN CORE: ONLINE"), "variant" := JStr("holographic")])

  /** Every projection the terminal hard-codes names a registered component. */
  lemma HardCodedProjectionsRegistered()
    ensures {"ImagePanel", "BunkerTerminal", "ArtifactCard", "BunkerLedger"} <= Registry.Keys
    ensures forall d: Dossier :: DossierComponent(d) in Registry.Keys
  {
  }
}
