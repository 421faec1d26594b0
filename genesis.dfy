/** The Genesis ingest action: the model's JSON reply about a manuscript is
    sanitised into one story and its artifacts and handed to the save
    mutation. The network reply, `JSON.parse` and the messages of the
    errors JavaScript throws are parameters. */
module Genesis {
  import opened Wrappers
  import opened Json
  import Text
  import Seqs
  import Brian
  import GenesisDb

  /** What the generation endpoint returned: whether the status was OK, the
      status, the error body, and the text of the first part of the first
      candidate, if any; or the message of the error thrown by `fetch`, by
      `response.text()` or by `response.json()`. */
  datatype Reply =
    | Answered(ok: bool, status: int, errorText: string, text: Option<string>)
    | Thrown(message: string)

  /** The messages of the errors the action can catch: a malformed reply
      (`JSON.parse`), a property read on `null` or a call of a missing
      `map`, and the argument validator of the save mutation. */
  datatype Faults = Faults(syntaxError: string, typeError: string, validationError: string)

  datatype Ingest = IngestError(message: string) | IngestSuccess(title: string)

  /** The arguments the save mutation was called with. */
  datatype Save = Save(story: GenesisDb.StoryArgs, artifacts: seq<GenesisDb.ArtifactArgs>)

  /** The action's answer, and the save it made if it made one. */
  datatype Outcome = Outcome(result: Ingest, saved: Option<Save>)

  const ConfigurationError :=
    "Configuration Error: GOOGLE_API_KEY is " +
    "not set in Convex Dashboard."
  const EmptyResponse := "Empty response from Gemini AI."

  /** The defaults the sanitiser fills in. */
  const Untitled := "Untitled Transmission"
  const Corrupted := "Content corrupted during transmission."
  const UnknownArtifact := "Unknown Artifact"
  const Pending := "Analysis pending."

  function ApiHead(status: int): string {
    "Gemini API Error (" + Text.IntToString(status) + "): "
  }

  /** The bad-status message: the status, then at most the first hundred
      characters of the error body. */
  function ApiError(status: int, errorText: string): (r: string)
    ensures |ApiHead(status)| <= |r| <= |ApiHead(status)| + 100
    ensures r[..|ApiHead(status)|] == ApiHead(status)
    ensures r[|ApiHead(status)|..] <= errorText
    ensures |errorText| <= 100 ==> r[|ApiHead(status)|..] == errorText
  {
    var r := ApiHead(status) + Seqs.Take(errorText, 100);
    assert r[|ApiHead(status)|..] == Seqs.Take(errorText, 100);
    r
  }

  /** The catch block: `System Error: ${e.message || "Unknown Failure"}`. */
  function SystemError(message: string): (r: string)
    ensures message != "" ==> r == "System Error: " + message
    ensures message == "" ==> r == "System Error: Unknown Failure"
  {
    "System Error: " + (if message == "" then "Unknown Failure" else message)
  }

  /** `a || b || ... || d`: the first truthy value, else the last default. */
  function FirstTruthy(vs: seq<Option<Json>>, d: Json): (r: Json)
    ensures (exists k :: 0 <= k < |vs| && Truthy(vs[k])) ==> Truthy(Some(r))
    ensures (forall k :: 0 <= k < |vs| ==> !Truthy(vs[k])) ==> r == d
    ensures |vs| > 0 && Truthy(vs[0]) ==> r == vs[0].value
    ensures forall k :: 0 <= k < |vs| && Truthy(vs[k]) && (forall m :: 0 <= m < k ==> !Truthy(vs[m])) ==>
      r == vs[k].value
  {
    if vs == [] then d
    else if Truthy(vs[0]) then vs[0].value
    else FirstTruthy(vs[1..], d)
  }

  /** The sanitised story, with values still as JSON. */
  datatype StoryFields = StoryFields(title: Json, slug: Option<Json>, content: Json, author: Option<Json>, roomId: Option<Json>)

  /** The sanitised artifact, with values still as JSON. */
  datatype ArtFields = ArtFields(keywords: Json, title: Json, content: Json, kind: Json)

  /** `safeStory`: the title, else the default; the content, else the body,
      else the description, else the default; slug, author and room as read. */
  function SafeStory(story: Option<Json>): (r: StoryFields)
    ensures Truthy(Prop(story, "title")) ==> r.title == Prop(story, "title").value
    ensures !Truthy(Prop(story, "title")) ==> r.title == JStr(Untitled)
    ensures Truthy(Prop(story, "content")) ==> r.content == Prop(story, "content").value
    ensures !Truthy(Prop(story, "content")) && Truthy(Prop(story, "body")) ==> r.content == Prop(story, "body").value
    ensures !Truthy(Prop(story, "content")) && !Truthy(Prop(story, "body")) && Truthy(Prop(story, "description")) ==>
      r.content == Prop(story, "description").value
    ensures !Truthy(Prop(story, "content")) && !Truthy(Prop(story, "body")) && !Truthy(Prop(story, "description")) ==>
      r.content == JStr(Corrupted)
    ensures r.slug == Prop(story, "slug") && r.author == Prop(story, "author") && r.roomId == Prop(story, "roomId")
  {
    var contents := [Prop(story, "content"), Prop(story, "body"), Prop(story, "description")];
    assert !Truthy(contents[0]) && !Truthy(contents[1]) ==> forall m :: 0 <= m < 2 ==> !Truthy(contents[m]);
    assert contents[1] == Prop(story, "body") && contents[2] == Prop(story, "description");
    StoryFields(
      FirstTruthy([Prop(story, "title")], JStr(Untitled)),
      Prop(story, "slug"),
      FirstTruthy(contents, JStr(Corrupted)),
      Prop(story, "author"),
      Prop(story, "roomId"))
  }

  /** One artifact's sanitisation; reading a property of `null` throws. */
  function SafeArtifact(art: Json): (r: Option<ArtFields>)
    ensures r.None? <==> art.JNull?
    ensures r.Some? && IsArray(Prop(Some(art), "keywords")) ==> r.value.keywords == Prop(Some(art), "keywords").value
    ensures r.Some? && !IsArray(Prop(Some(art), "keywords")) ==> r.value.keywords == JArr([JStr("unknown")])
    ensures r.Some? ==> r.value.title == (if Truthy(Prop(Some(art), "title")) then Prop(Some(art), "title").value else JStr(UnknownArtifact))
    ensures r.Some? && Truthy(Prop(Some(art), "content")) ==> r.value.content == Prop(Some(art), "content").value
    ensures r.Some? && !Truthy(Prop(Some(art), "content")) && Truthy(Prop(Some(art), "description")) ==>
      r.value.content == Prop(Some(art), "description").value
    ensures r.Some? && !Truthy(Prop(Some(art), "content")) && !Truthy(Prop(Some(art), "description")) ==>
      r.value.content == JStr(Pending)
    ensures r.Some? ==> r.value.kind == (if Truthy(Prop(Some(art), "type")) then Prop(Some(art), "type").value else JStr("Signal"))
  {
    if art.JNull? then None
    else
      var a := Some(art);
      var keywords := if IsArray(Prop(a, "keywords")) then Prop(a, "keywords").value else JArr([JStr("unknown")]);
      Some(ArtFields(
        keywords,
        FirstTruthy([Prop(a, "title")], JStr(UnknownArtifact)),
        FirstTruthy([Prop(a, "content"), Prop(a, "description")], JStr(Pending)),
        FirstTruthy([Prop(a, "type")], JStr("Signal"))))
  }

  /** `(json.artifacts || []).map(...)`: a truthy value that is not an array
      has no `map`, and a `null` element throws. */
  function SafeArtifacts(artifacts: Option<Json>): (r: Option<seq<ArtFields>>)
    ensures !Truthy(artifacts) ==> r == Some([])
    ensures r.Some? && Truthy(artifacts) ==> IsArray(artifacts) && |r.value| == |artifacts.value.items|
  {
    if !Truthy(artifacts) then Some([])
    else match artifacts.value
      case JArr(items) => MapArtifacts(items)
      case _ => None
  }

  function MapArtifacts(items: seq<Json>): (r: Option<seq<ArtFields>>)
    ensures r.Some? <==> forall k :: 0 <= k < |items| ==> !items[k].JNull?
    ensures r.Some? ==> |r.value| == |items| && forall k :: 0 <= k < |items| ==> Some(r.value[k]) == SafeArtifact(items[k])
  {
    if items == [] then Some([])
    else match (SafeArtifact(items[0]), MapArtifacts(items[1..]))
      case (Some(a), Some(rest)) => Some([a] + rest)
      case _ => None
  }

  // ------------------------------------------------------------ validation

  /** `v.optional(v.string())`: absent or a string; `null` is rejected. */
  function OptString(v: Option<Json>): (r: Option<Option<string>>)
    ensures r == Some(None) <==> v.None?
    ensures r.Some? && r.value.Some? <==> IsString(v)
  {
    match v
    case None => Some(None)
    case Some(JStr(s)) => Some(Some(s))
    case Some(_) => None
  }

  /** `v.array(v.string())`. */
  function StringArray(j: Json): (r: Option<seq<string>>)
    ensures r.Some? ==> j.JArr? && Strings(r.value) == j.items
  {
    if !j.JArr? then None else StringItems(j.items)
  }

  function StringItems(items: seq<Json>): (r: Option<seq<string>>)
    ensures r.Some? <==> forall k :: 0 <= k < |items| ==> items[k].JStr?
    ensures r.Some? ==> Strings(r.value) == items
  {
    if forall k :: 0 <= k < |items| ==> items[k].JStr? then
      var xs := seq(|items|, k requires 0 <= k < |items| => items[k].s);
      assert Strings(xs) == items;
      Some(xs)
    else None
  }

  /** The save mutation's story validator: title and content strings, and
      slug, author and room each absent or a string. */
  function ValidStory(f: StoryFields, tier: string): (r: Option<GenesisDb.StoryArgs>)
    ensures r.Some? <==>
              f.title.JStr? && f.content.JStr? &&
              OptString(f.slug).Some? && OptString(f.author).Some? && OptString(f.roomId).Some?
    ensures r.Some? ==> JStr(r.value.title) == f.title && r.value.content == Some(f.content.s) && r.value.tier == tier
    ensures r.Some? ==> r.value.slug == OptString(f.slug).value && r.value.author == OptString(f.author).value
    ensures r.Some? ==> r.value.roomId == OptString(f.roomId).value
  {
    match (f.title, OptString(f.slug), f.content, OptString(f.author), OptString(f.roomId))
    case (JStr(title), Some(slug), JStr(content), Some(author), Some(roomId)) =>
      Some(GenesisDb.StoryArgs(title, slug, Some(content), author, roomId, tier))
    case _ => None
  }

  /** The save mutation's artifact validator: an array of strings and three
      strings. */
  function ValidArtifact(f: ArtFields): (r: Option<GenesisDb.ArtifactArgs>)
    ensures r.Some? <==> StringArray(f.keywords).Some? && f.title.JStr? && f.content.JStr? && f.kind.JStr?
    ensures r.Some? ==> Strings(r.value.keywords) == f.keywords.items && JStr(r.value.title) == f.title
    ensures r.Some? ==> r.value.content == Some(f.content.s) && JStr(r.value.kind) == f.kind
  {
    match (StringArray(f.keywords), f.title, f.content, f.kind)
    case (Some(keywords), JStr(title), JStr(content), JStr(kind)) =>
      Some(GenesisDb.ArtifactArgs(keywords, title, Some(content), kind))
    case _ => None
  }

  function ValidArtifacts(fs: seq<ArtFields>): (r: Option<seq<GenesisDb.ArtifactArgs>>)
    ensures r.Some? <==> forall k :: 0 <= k < |fs| ==> ValidArtifact(fs[k]).Some?
    ensures r.Some? ==> |r.value| == |fs| && forall k :: 0 <= k < |fs| ==> Some(r.value[k]) == ValidArtifact(fs[k])
  {
    if fs == [] then Some([])
    else match (ValidArtifact(fs[0]), ValidArtifacts(fs[1..]))
      case (Some(a), Some(rest)) => Some([a] + rest)
      case _ => None
  }

  // ------------------------------------------------------------ the action

  /** From the parsed reply to the save's arguments; a failure carries the
      message of the error thrown. */
  function Sanitise(json: Json, tier: string, faults: Faults): (r: Result<Save>)
    ensures json.JNull? ==> r == Failure(faults.typeError)
    ensures r.Failure? ==> r.error == faults.typeError || r.error == faults.validationError
    ensures r.Success? ==> Some(r.value.story) == ValidStory(SafeStory(Prop(Some(json), "story")), tier)
    ensures r.Success? ==> r.value.story.tier == tier
    ensures r.Success? && !Truthy(Prop(Some(json), "artifacts")) ==> r.value.artifacts == []
    ensures r.Success? && Truthy(Prop(Some(json), "artifacts")) ==>
      IsArray(Prop(Some(json), "artifacts")) && |r.value.artifacts| == |Prop(Some(json), "artifacts").value.items|
  {
    if json.JNull? then Failure(faults.typeError)
    else
      var story := SafeStory(Prop(Some(json), "story"));
      match SafeArtifacts(Prop(Some(json), "artifacts"))
      case None => Failure(faults.typeError)
      case Some(arts) =>
        match (ValidStory(story, tier), ValidArtifacts(arts))
        case (Some(s), Some(a)) => Success(Save(s, a))
        case _ => Failure(faults.validationError)
  }

  /** `ingestRawContent`. */
  function IngestRawContent(env: Foreign, apiKey: Option<string>, tier: string, reply: Reply, faults: Faults): (o: Outcome)
    ensures o.saved.Some? ==>
      !Brian.KeyMissing(apiKey) && reply.Answered? && reply.ok && reply.text.Some? && env.parse(reply.text.value).Some? &&
      Sanitise(env.parse(reply.text.value).value, tier, faults) == Success(o.saved.value)
  {
    if Brian.KeyMissing(apiKey) then Outcome(IngestError(ConfigurationError), None)
    else if reply.Thrown? then Outcome(IngestError(SystemError(reply.message)), None)
    else if !reply.ok then Outcome(IngestError(ApiError(reply.status, reply.errorText)), None)
    else if reply.text.None? || reply.text.value == "" then Outcome(IngestError(EmptyResponse), None)
    else match env.parse(reply.text.value)
      case None => Outcome(IngestError(SystemError(faults.syntaxError)), None)
      case Some(json) =>
        match Sanitise(json, tier, faults)
        case Failure(e) => Outcome(IngestError(SystemError(e)), None)
        case Success(save) => Outcome(IngestSuccess(save.story.title), Some(save))
  }

  /** The action saves exactly when it succeeds, and then reports the saved
      story's title; it saves nothing without a key, fails first on a
      missing key, then on a request or body read that threw, then on the
      status, then on an empty reply, then on a reply that does not parse. */
  lemma IngestOutcomes(env: Foreign, apiKey: Option<string>, tier: string, reply: Reply, faults: Faults)
    ensures var o := IngestRawContent(env, apiKey, tier, reply, faults);
      (o.result.IngestSuccess? <==> o.saved.Some?) &&
      (o.saved.Some? ==> o.result.title == o.saved.value.story.title && o.saved.value.story.tier == tier) &&
      (Brian.KeyMissing(apiKey) ==> o == Outcome(IngestError(ConfigurationError), None)) &&
      (!Brian.KeyMissing(apiKey) && reply.Thrown? ==>
        o == Outcome(IngestError(SystemError(reply.message)), None)) &&
      (!Brian.KeyMissing(apiKey) && reply.Answered? && !reply.ok ==> o.result == IngestError(ApiError(reply.status, reply.errorText))) &&
      (!Brian.KeyMissing(apiKey) && reply.Answered? && reply.ok && (reply.text.None? || reply.text.value == "") ==>
        o.result == IngestError(EmptyResponse)) &&
      (!Brian.KeyMissing(apiKey) && reply.Answered? && reply.ok && reply.text.Some? && reply.text.value != "" && env.parse(reply.text.value).None? ==>
        o.result == IngestError(SystemError(faults.syntaxError)))
  {
    var o := IngestRawContent(env, apiKey, tier, reply, faults);
    if o.saved.Some? {
      var save := Sanitise(env.parse(reply.text.value).value, tier, faults).value;
      assert save.story.tier == tier by {
        var json := env.parse(reply.text.value).value;
        var story := SafeStory(Prop(Some(json), "story"));
        assert Some(save.story) == ValidStory(story, tier);
      }
    }
  }

  /** A string that `||` kept or chose as its default is not empty. */
  lemma FirstTruthyString(vs: seq<Option<Json>>, d: string, s: string)
    requires d != "" && FirstTruthy(vs, JStr(d)) == JStr(s)
    ensures s != ""
  {
    if (exists k :: 0 <= k < |vs| && Truthy(vs[k])) {
      assert Truthy(Some(JStr(s)));
    }
  }

  /** A validated story keeps its tier and has a title and content. */
  lemma ValidStoryShape(story: Option<Json>, tier: string, s: GenesisDb.StoryArgs)
    requires ValidStory(SafeStory(story), tier) == Some(s)
    ensures s.title != "" && s.content.Some? && s.content.value != "" && s.tier == tier
  {
    var f := SafeStory(story);
    FirstTruthyString([Prop(story, "title")], Untitled, s.title);
    FirstTruthyString([Prop(story, "content"), Prop(story, "body"), Prop(story, "description")],
      Corrupted, s.content.value);
  }

  /** A validated artifact has a title, content and type. */
  lemma ValidArtifactShape(art: Json, a: GenesisDb.ArtifactArgs)
    requires SafeArtifact(art).Some? && ValidArtifact(SafeArtifact(art).value) == Some(a)
    ensures a.title != "" && a.kind != "" && a.content.Some? && a.content.value != ""
  {
    var p := Some(art);
    FirstTruthyString([Prop(p, "title")], UnknownArtifact, a.title);
    FirstTruthyString([Prop(p, "content"), Prop(p, "description")], Pending, a.content.value);
    FirstTruthyString([Prop(p, "type")], "Signal", a.kind);
  }

  /** A sanitised reply has a story with a title and content, and every
      artifact a title, content and type; there is one artifact per element
      of the reply's array and none when it has no array. */
  lemma SanitisedShape(json: Json, tier: string, faults: Faults)
    requires Sanitise(json, tier, faults).Success?
    ensures var s := Sanitise(json, tier, faults).value;
      var arts := Prop(Some(json), "artifacts");
      s.story.title != "" && s.story.content.Some? && s.story.content.value != "" && s.story.tier == tier &&
      (forall k :: 0 <= k < |s.artifacts| ==>
        s.artifacts[k].title != "" && s.artifacts[k].kind != "" &&
        s.artifacts[k].content.Some? && s.artifacts[k].content.value != "") &&
      |s.artifacts| == (if Truthy(arts) then |arts.value.items| else 0)
  {
    var s := Sanitise(json, tier, faults).value;
    var arts := Prop(Some(json), "artifacts");
    var fs := SafeArtifacts(arts).value;
    ValidStoryShape(Prop(Some(json), "story"), tier, s.story);
    assert Some(s.artifacts) == ValidArtifacts(fs);
    if Truthy(arts) {
      var items := arts.value.items;
      forall k | 0 <= k < |s.artifacts|
        ensures s.artifacts[k].title != "" && s.artifacts[k].kind != ""
        ensures s.artifacts[k].content.Some? && s.artifacts[k].content.value != ""
      {
        assert Some(fs[k]) == SafeArtifact(items[k]);
        ValidArtifactShape(items[k], s.artifacts[k]);
      }
    }
  }

  /** A saved artifact keeps the reply's keyword array when it has one and
      is tagged "unknown" otherwise. */
  lemma SavedKeywords(art: Json, a: GenesisDb.ArtifactArgs)
    requires SafeArtifact(art).Some? && ValidArtifact(SafeArtifact(art).value) == Some(a)
    ensures IsArray(Prop(Some(art), "keywords")) ==> Strings(a.keywords) == Prop(Some(art), "keywords").value.items
    ensures !IsArray(Prop(Some(art), "keywords")) ==> a.keywords == ["unknown"]
  {
    var f := SafeArtifact(art).value;
    assert StringArray(f.keywords) == Some(a.keywords);
    if !IsArray(Prop(Some(art), "keywords")) {
      assert f.keywords == JArr([JStr("unknown")]);
      assert Strings(["unknown"]) == [JStr("unknown")];
      StringsInjective(a.keywords, ["unknown"]);
    }
  }

  lemma StringsInjective(xs: seq<string>, ys: seq<string>)
    requires Strings(xs) == Strings(ys)
    ensures xs == ys
  {
    assert |xs| == |ys|;
    forall i | 0 <= i < |xs| ensures xs[i] == ys[i] {
      assert Strings(xs)[i] == Strings(ys)[i];
    }
  }

  /** A reply that names a story with a string title and nothing else is
      saved under that title, with the default content and no artifacts. */
  lemma TitleOnlyReplySaves(env: Foreign, apiKey: Option<string>, tier: string, reply: Reply, faults: Faults, title: string)
    requires !Brian.KeyMissing(apiKey) && reply.Answered? && reply.ok && reply.text.Some? && reply.text.value != "" && title != ""
    requires env.parse(reply.text.value) == Some(JObj(map["story" := JObj(map["title" := JStr(title)])]))
    ensures IngestRawContent(env, apiKey, tier, reply, faults) ==
      Outcome(IngestSuccess(title),
        Some(Save(GenesisDb.StoryArgs(title, None, Some(Corrupted), None, None, tier), [])))
  {
    var story := Some(JObj(map["title" := JStr(title)]));
    assert Prop(story, "content").None? && Prop(story, "body").None? && Prop(story, "description").None?;
  }

  /** A `null` reply, or an artifacts value that is truthy but not an array,
      ends in the caught `TypeError`. */
  lemma NonArrayArtifactsFail(env: Foreign, apiKey: Option<string>, tier: string, reply: Reply, faults: Faults)
    requires !Brian.KeyMissing(apiKey) && reply.Answered? && reply.ok && reply.text.Some? && reply.text.value != ""
    requires env.parse(reply.text.value).Some?
    requires var json := env.parse(reply.text.value).value;
      json.JNull? || (Truthy(Prop(Some(json), "artifacts")) && !IsArray(Prop(Some(json), "artifacts")))
    ensures IngestRawContent(env, apiKey, tier, reply, faults) == Outcome(IngestError(SystemError(faults.typeError)), None)
  {
  }
}
