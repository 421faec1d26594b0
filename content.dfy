/** The studio's content desk: content packs imported from files (with an
    archived history when one is overwritten), their promotion to a placed
    reveal, the deletion and re-homing of reveals with the objects that show
    them, and the two reveal listings. */
module Content {
  import opened Wrappers
  import Seqs
  import Text

  datatype PackStatus = Draft | Review | Published

  datatype Phase = EarlyYear | Spring | Summer | Autumn | Winter

  datatype Scene = Scene(id: nat, slug: string, title: string)

  datatype Pack = Pack(
    id: nat,
    hotspotId: string,
    domain: string,
    sceneId: Option<nat>,
    title: string,
    revealType: string,
    bodyCopy: string,
    hintLine: Option<string>,
    tags: seq<string>,
    canonRefs: seq<string>,
    mediaRefs: string,
    status: PackStatus,
    version: int,
    sourceFile: Option<string>,
    phase: Option<Phase>,
    importedBy: string,
    createdAt: int)

  /** A pack as it was before an overwrite. */
  datatype History = History(id: nat, packId: nat, hotspotId: string, data: Pack, archivedAt: int, archivedBy: string)

  datatype Reveal = Reveal(
    id: nat,
    revealType: string,
    title: string,
    content: string,
    voice: string,
    tags: seq<string>,
    mediaUrl: Option<string>,
    role: string,
    status: string,
    publishedAt: Option<int>,
    spaceId: Option<nat>,
    phase: Option<Phase>,
    createdAt: int)

  /** An object placed in a scene, optionally opening a reveal. */
  datatype Obj = Obj(id: nat, sceneId: nat, name: string, x: int, y: int, hint: string, revealId: Option<nat>, role: string)

  /** The tables the desk reads and writes; every table draws its ids from
      one counter. */
  datatype Tables = Tables(
    scenes: seq<Scene>,
    packs: seq<Pack>,
    history: seq<History>,
    revealRows: seq<Reveal>,
    objects: seq<Obj>,
    nextId: nat)

  const Nonexistent := "Nonexistent document"

  /** Every id is below the counter. */
  ghost predicate IdsBelow(t: Tables) {
    (forall k :: 0 <= k < |t.packs| ==> t.packs[k].id < t.nextId) &&
    (forall k :: 0 <= k < |t.history| ==> t.history[k].id < t.nextId) &&
    (forall k :: 0 <= k < |t.revealRows| ==> t.revealRows[k].id < t.nextId) &&
    (forall k :: 0 <= k < |t.objects| ==> t.objects[k].id < t.nextId)
  }

  /** No two packs share an id or a hotspot. */
  ghost predicate PacksDistinct(packs: seq<Pack>) {
    (forall i, j :: 0 <= i < j < |packs| ==> packs[i].id != packs[j].id) &&
    (forall i, j :: 0 <= i < j < |packs| ==> packs[i].hotspotId != packs[j].hotspotId)
  }

  ghost predicate RevealIdsDistinct(revealRows: seq<Reveal>) {
    forall i, j :: 0 <= i < j < |revealRows| ==> revealRows[i].id != revealRows[j].id
  }

  /** Ids are below the counter, pack and reveal ids are distinct, and no
      two packs share a hotspot. */
  ghost predicate WellFormed(t: Tables) {
    IdsBelow(t) && PacksDistinct(t.packs) && RevealIdsDistinct(t.revealRows)
  }

  /** Replacing a pack by one with the same id and hotspot keeps the packs
      distinct. */
  lemma ReplaceKeepsPacksDistinct(packs: seq<Pack>, i: nat, p: Pack)
    requires PacksDistinct(packs) && i < |packs|
    requires p.id == packs[i].id && p.hotspotId == packs[i].hotspotId
    ensures PacksDistinct(packs[i := p])
  {
    var packs' := packs[i := p];
    assert forall k :: 0 <= k < |packs| ==> packs'[k].id == packs[k].id && packs'[k].hotspotId == packs[k].hotspotId;
  }

  /** Appending a pack with a fresh id and a fresh hotspot keeps the packs
      distinct. */
  lemma AppendKeepsPacksDistinct(packs: seq<Pack>, p: Pack)
    requires PacksDistinct(packs)
    requires forall k :: 0 <= k < |packs| ==> packs[k].id != p.id && packs[k].hotspotId != p.hotspotId
    ensures PacksDistinct(packs + [p])
  {
    var packs' := packs + [p];
    assert forall k :: 0 <= k < |packs| ==> packs'[k] == packs[k];
  }

  /** Removing a pack keeps the packs distinct. */
  lemma RemoveKeepsPacksDistinct(packs: seq<Pack>, i: nat)
    requires PacksDistinct(packs) && i < |packs|
    ensures PacksDistinct(Seqs.RemoveAt(packs, i))
  {
    var packs' := Seqs.RemoveAt(packs, i);
    forall x, y | 0 <= x < y < |packs'|
      ensures packs'[x].id != packs'[y].id && packs'[x].hotspotId != packs'[y].hotspotId
    {
      var x0 := if x < i then x else x + 1;
      var y0 := if y < i then y else y + 1;
      assert packs'[x] == packs[x0] && packs'[y] == packs[y0];
    }
  }

  /** Removing a reveal keeps the reveal ids distinct. */
  lemma RemoveKeepsRevealIdsDistinct(revealRows: seq<Reveal>, i: nat)
    requires RevealIdsDistinct(revealRows) && i < |revealRows|
    ensures RevealIdsDistinct(Seqs.RemoveAt(revealRows, i))
  {
    var rows' := Seqs.RemoveAt(revealRows, i);
    forall x, y | 0 <= x < y < |rows'| ensures rows'[x].id != rows'[y].id {
      var x0 := if x < i then x else x + 1;
      var y0 := if y < i then y else y + 1;
      assert rows'[x] == revealRows[x0] && rows'[y] == revealRows[y0];
    }
  }

  function PackIndex(packs: seq<Pack>, id: nat): Option<nat> {
    Seqs.FirstIndex(packs, (p: Pack) => p.id == id)
  }

  function HotspotIndex(packs: seq<Pack>, hotspotId: string): Option<nat> {
    Seqs.FirstIndex(packs, (p: Pack) => p.hotspotId == hotspotId)
  }

  function RevealIndex(revealRows: seq<Reveal>, id: nat): Option<nat> {
    Seqs.FirstIndex(revealRows, (r: Reveal) => r.id == id)
  }

  /** `ctx.db.get` on a scene id. */
  function SceneIndex(scenes: seq<Scene>, id: nat): Option<nat> {
    Seqs.FirstIndex(scenes, (s: Scene) => s.id == id)
  }

  /** `.withIndex("by_slug", …).first()` on the scenes. */
  function SlugIndex(scenes: seq<Scene>, slug: string): Option<nat> {
    Seqs.FirstIndex(scenes, (s: Scene) => s.slug == slug)
  }

  /** An object linked to reveal `id`. */
  function Linked(id: nat): Obj -> bool {
    (o: Obj) => o.revealId == Some(id)
  }

  function Unlinked(id: nat): Obj -> bool {
    (o: Obj) => o.revealId != Some(id)
  }

  // ---------------------------------------------------------------- importPack

  datatype ImportArgs = ImportArgs(
    hotspotId: string,
    domain: string,
    sceneId: nat,
    title: string,
    revealType: string,
    bodyCopy: string,
    hintLine: Option<string>,
    tags: seq<string>,
    canonRefs: seq<string>,
    mediaRefs: string,
    status: PackStatus,
    version: int,
    sourceFile: Option<string>,
    overwriteConfirmed: Option<bool>,
    phase: Option<Phase>)

  datatype ImportOutcome = Conflict(existingId: nat, existingTitle: string) | Imported(id: nat, updated: bool)

  /** A patch leaves a field alone when the argument was omitted. */
  function Keep<T>(given: Option<T>, previous: Option<T>): Option<T> {
    if given.Some? then given else previous
  }

  /** The inserted pack: the arguments as given, stamped with the importer. */
  function NewPack(id: nat, a: ImportArgs, token: string, now: int): Pack {
    Pack(id, a.hotspotId, a.domain, Some(a.sceneId), a.title, a.revealType, a.bodyCopy, a.hintLine, a.tags,
      a.canonRefs, a.mediaRefs, a.status, a.version, a.sourceFile, a.phase, token, now)
  }

  /** The overwritten pack: the given fields replace the old ones, omitted
      optional fields keep theirs, the version counts up from the stored one
      whatever version was supplied, and the id and creation time stay. */
  function Overwrite(e: Pack, a: ImportArgs, token: string): (r: Pack)
    ensures r.id == e.id && r.createdAt == e.createdAt
    ensures r.version == e.version + 1 && r.importedBy == token
    ensures r.hotspotId == a.hotspotId && r.title == a.title && r.bodyCopy == a.bodyCopy && r.sceneId == Some(a.sceneId)
    ensures a.hintLine.None? ==> r.hintLine == e.hintLine
    ensures a.sourceFile.None? ==> r.sourceFile == e.sourceFile
    ensures a.phase.None? ==> r.phase == e.phase
  {
    e.(hotspotId := a.hotspotId, domain := a.domain, sceneId := Some(a.sceneId), title := a.title,
       revealType := a.revealType, bodyCopy := a.bodyCopy, hintLine := Keep(a.hintLine, e.hintLine),
       tags := a.tags, canonRefs := a.canonRefs, mediaRefs := a.mediaRefs, status := a.status,
       version := e.version + 1, sourceFile := Keep(a.sourceFile, e.sourceFile),
       phase := Keep(a.phase, e.phase), importedBy := token)
  }

  /** `importPack`. */
  function Import(t: Tables, a: ImportArgs, token: string, now: int): (r: (Tables, ImportOutcome))
    ensures r.1.Conflict? ==> r.0 == t
    ensures r.1.Imported? ==>
      r.0.nextId == t.nextId + 1 && r.0.scenes == t.scenes && r.0.revealRows == t.revealRows &&
      r.0.objects == t.objects &&
      (r.1.updated <==> |r.0.history| == |t.history| + 1) &&
      |r.0.packs| == |t.packs| + (if r.1.updated then 0 else 1)
  {
    match HotspotIndex(t.packs, a.hotspotId)
    case Some(i) =>
      var e := t.packs[i];
      if a.overwriteConfirmed != Some(true) then (t, Conflict(e.id, e.title))
      else
        (t.(history := t.history + [History(t.nextId, e.id, e.hotspotId, e, now, token)],
            packs := t.packs[i := Overwrite(e, a, token)],
            nextId := t.nextId + 1),
         Imported(e.id, true))
    case None =>
      (t.(packs := t.packs + [NewPack(t.nextId, a, token, now)], nextId := t.nextId + 1), Imported(t.nextId, false))
  }

  /** The three outcomes of an import. A known hotspot without confirmation
      is a conflict naming the stored pack, and nothing is written. With
      confirmation the stored pack is archived as it was and overwritten in
      place under its id. An unknown hotspot adds one pack with the
      supplied version. No other table changes. */
  lemma ImportOutcomes(t: Tables, a: ImportArgs, token: string, now: int)
    ensures var (t', out) := Import(t, a, token, now);
      t'.scenes == t.scenes && t'.revealRows == t.revealRows && t'.objects == t.objects &&
      (out.Conflict? <==> (exists k :: 0 <= k < |t.packs| && t.packs[k].hotspotId == a.hotspotId) && a.overwriteConfirmed != Some(true)) &&
      (out.Conflict? ==> t' == t) &&
      (out.Conflict? ==> exists k :: 0 <= k < |t.packs| && t.packs[k].hotspotId == a.hotspotId && out == Conflict(t.packs[k].id, t.packs[k].title)) &&
      (out.Imported? && out.updated ==>
         exists k :: 0 <= k < |t.packs| && t.packs[k].hotspotId == a.hotspotId && out.id == t.packs[k].id &&
           t'.packs == t.packs[k := Overwrite(t.packs[k], a, token)] &&
           t'.packs[k].version == t.packs[k].version + 1 &&
           t'.history == t.history + [History(t.nextId, t.packs[k].id, a.hotspotId, t.packs[k], now, token)]) &&
      (out.Imported? && !out.updated <==> forall k :: 0 <= k < |t.packs| ==> t.packs[k].hotspotId != a.hotspotId) &&
      (out.Imported? && !out.updated ==>
         t'.packs == t.packs + [NewPack(t.nextId, a, token, now)] && t'.history == t.history &&
         out.id == t.nextId && t'.packs[|t.packs|].version == a.version)
  {
  }

  /** An import keeps ids fresh and hotspots unique: at most one pack per
      hotspot, whatever sequence of imports ran. */
  lemma ImportKeepsWellFormed(t: Tables, a: ImportArgs, token: string, now: int)
    requires WellFormed(t)
    ensures WellFormed(Import(t, a, token, now).0)
  {
    match HotspotIndex(t.packs, a.hotspotId)
    case Some(i) =>
      if a.overwriteConfirmed == Some(true) {
        ReplaceKeepsPacksDistinct(t.packs, i, Overwrite(t.packs[i], a, token));
      }
    case None =>
      AppendKeepsPacksDistinct(t.packs, NewPack(t.nextId, a, token, now));
  }

  // ---------------------------------------------------------------- publishPack

  /** The voice of a domain, compared lowercased. */
  function Voice(domain: string): (r: string)
    ensures r in {"sparkline", "hearth", "systems"}
  {
    var d := Text.ToLower(domain);
    if d == "workshop" then "sparkline"
    else if d == "study" then "hearth"
    else if d == "boathouse" then "systems"
    else if d == "home" then "hearth"
    else "systems"
  }

  /** Workshop speaks as sparkline, study and home as hearth, and every
      other domain as systems. */
  lemma VoiceMapping(domain: string)
    ensures Voice(domain) == "sparkline" <==> Text.ToLower(domain) == "workshop"
    ensures Voice(domain) == "hearth" <==> Text.ToLower(domain) == "study" || Text.ToLower(domain) == "home"
    ensures Voice(domain) == "systems" <==> Text.ToLower(domain) !in {"workshop", "study", "home"}
  {
  }

  /** `hintLine || "Look closer at the <title>"`. */
  function Hint(p: Pack): (h: string)
    ensures p.hintLine.Some? && p.hintLine.value != "" ==> h == p.hintLine.value
    ensures p.hintLine.None? || p.hintLine.value == "" ==> h == "Look closer at the " + Text.ToLower(p.title)
  {
    if p.hintLine.Some? && p.hintLine.value != "" then p.hintLine.value
    else "Look closer at the " + Text.ToLower(p.title)
  }

  /** An id as the template literal prints it; an absent one is `undefined`. */
  function IdText(id: Option<nat>): string {
    if id.Some? then Text.NatToString(id.value) else "undefined"
  }

  function SceneLost(p: Pack): string {
    "Target Scene (ID: " + IdText(p.sceneId) + ") not found and cannot be recovered via slug " + p.domain + "."
  }

  /** The scene a pack is published into: its own when it exists, else the
      first scene whose slug is the lowercased domain. */
  function TargetScene(scenes: seq<Scene>, p: Pack): (r: Result<nat>)
    ensures r.Success? ==> exists k :: 0 <= k < |scenes| && scenes[k].id == r.value
    ensures r.Failure? <==>
      (p.sceneId.None? || forall k :: 0 <= k < |scenes| ==> scenes[k].id != p.sceneId.value) &&
      (forall k :: 0 <= k < |scenes| ==> scenes[k].slug != Text.ToLower(p.domain))
    ensures r.Failure? ==> r.error == SceneLost(p)
    ensures p.sceneId.Some? && (exists k :: 0 <= k < |scenes| && scenes[k].id == p.sceneId.value) ==>
      r == Success(p.sceneId.value)
  {
    if p.sceneId.Some? && SceneIndex(scenes, p.sceneId.value).Some? then Success(p.sceneId.value)
    else
      match SlugIndex(scenes, Text.ToLower(p.domain))
      case Some(j) => Success(scenes[j].id)
      case None => Failure(SceneLost(p))
  }

  /** The reveal a pack becomes. */
  function PublishedReveal(id: nat, p: Pack, scene: nat, now: int): Reveal {
    Reveal(id, p.revealType, p.title, p.bodyCopy, Voice(p.domain), p.tags, Some(p.mediaRefs), "canon", "published",
      Some(now), Some(scene), p.phase, now)
  }

  /** The object that places it. */
  function Marker(id: nat, p: Pack, scene: nat, revealId: nat): Obj {
    Obj(id, scene, p.title, 55, 45, Hint(p), Some(revealId), "canon")
  }

  /** `publishPack`: the pack becomes a reveal and an object in its target
      scene, and the pack is deleted. */
  function Publish(t: Tables, id: nat, now: int): (r: Result<Tables>)
    ensures r.Success? ==>
      |r.value.revealRows| == |t.revealRows| + 1 && |r.value.objects| == |t.objects| + 1 &&
      |r.value.packs| == |t.packs| - 1 && r.value.nextId == t.nextId + 2 &&
      r.value.scenes == t.scenes && r.value.history == t.history
  {
    match PackIndex(t.packs, id)
    case None => Failure("Pack not found")
    case Some(i) =>
      var p := t.packs[i];
      match TargetScene(t.scenes, p)
      case Failure(e) => Failure(e)
      case Success(scene) =>
        Success(t.(revealRows := t.revealRows + [PublishedReveal(t.nextId, p, scene, now)],
                   objects := t.objects + [Marker(t.nextId + 1, p, scene, t.nextId)],
                   packs := Seqs.RemoveAt(t.packs, i),
                   nextId := t.nextId + 2))
  }

  /** A publish fails exactly when the pack is missing or its scene can be
      neither found nor recovered. Otherwise it adds exactly one published
      canon reveal in an existing scene, and exactly one object at (55, 45)
      in the same scene that opens it, and removes the pack and nothing
      else. */
  lemma PublishOutcomes(t: Tables, id: nat, now: int)
    requires WellFormed(t)
    ensures var r := Publish(t, id, now);
      (r.Failure? <==> ((forall k :: 0 <= k < |t.packs| ==> t.packs[k].id != id) ||
         (exists k :: 0 <= k < |t.packs| && t.packs[k].id == id && TargetScene(t.scenes, t.packs[k]).Failure?))) &&
      (r.Success? ==>
         var t' := r.value;
         t'.scenes == t.scenes && t'.history == t.history &&
         |t'.revealRows| == |t.revealRows| + 1 && t'.revealRows[..|t.revealRows|] == t.revealRows &&
         |t'.objects| == |t.objects| + 1 && t'.objects[..|t.objects|] == t.objects &&
         var rev := t'.revealRows[|t.revealRows|];
         var obj := t'.objects[|t.objects|];
         rev.status == "published" && rev.role == "canon" && rev.publishedAt == Some(now) &&
         (forall k :: 0 <= k < |t.revealRows| ==> t.revealRows[k].id != rev.id) &&
         rev.spaceId.Some? && (exists k :: 0 <= k < |t.scenes| && t.scenes[k].id == rev.spaceId.value) &&
         obj.x == 55 && obj.y == 45 && obj.role == "canon" && obj.revealId == Some(rev.id) &&
         Some(obj.sceneId) == rev.spaceId &&
         |t'.packs| == |t.packs| - 1 &&
         (forall k :: 0 <= k < |t'.packs| ==> t'.packs[k].id != id) &&
         (forall k :: 0 <= k < |t.packs| && t.packs[k].id != id ==> t.packs[k] in t'.packs))
  {
    PublishFailure(t, id, now);
    var r := Publish(t, id, now);
    if r.Success? {
      var i := PackIndex(t.packs, id).value;
      var t' := r.value;
      assert t'.revealRows[..|t.revealRows|] == t.revealRows;
      assert t'.objects[..|t.objects|] == t.objects;
      RemovedPack(t.packs, id, i);
    }
  }

  /** What a successful publish copies from the pack: the reveal lands in
      the pack's target scene with the pack's title, copy, tags, media and
      phase and the voice of its domain, and the object is named after the
      pack and carries its hint. */
  lemma PublishCopiesPack(t: Tables, id: nat, now: int, k: nat)
    requires PacksDistinct(t.packs)
    requires k < |t.packs| && t.packs[k].id == id
    requires Publish(t, id, now).Success?
    ensures var p := t.packs[k];
      var t' := Publish(t, id, now).value;
      |t'.revealRows| == |t.revealRows| + 1 && |t'.objects| == |t.objects| + 1 &&
      var rev := t'.revealRows[|t.revealRows|];
      var obj := t'.objects[|t.objects|];
      TargetScene(t.scenes, p).Success? && rev.spaceId == Some(TargetScene(t.scenes, p).value) &&
      rev.title == p.title && rev.content == p.bodyCopy && rev.revealType == p.revealType &&
      rev.tags == p.tags && rev.mediaUrl == Some(p.mediaRefs) && rev.phase == p.phase &&
      rev.voice == Voice(p.domain) &&
      obj.name == p.title && obj.hint == Hint(p)
  {
    var i := PackIndex(t.packs, id).value;
    assert t.packs[i].id == t.packs[k].id;
    assert i == k;
  }

  /** The failure half of the outcomes: the pack is missing, or its scene
      is lost. */
  lemma PublishFailure(t: Tables, id: nat, now: int)
    requires PacksDistinct(t.packs)
    ensures Publish(t, id, now).Failure? <==> ((forall k :: 0 <= k < |t.packs| ==> t.packs[k].id != id) ||
      (exists k :: 0 <= k < |t.packs| && t.packs[k].id == id && TargetScene(t.scenes, t.packs[k]).Failure?))
  {
    match PackIndex(t.packs, id)
    case None =>
      assert forall k :: 0 <= k < |t.packs| ==> t.packs[k].id != id;
    case Some(i) =>
      assert t.packs[i].id == id;
      forall k | 0 <= k < |t.packs| && t.packs[k].id == id ensures k == i {
        assert t.packs[k].id == t.packs[i].id;
      }
  }

  /** Removing the pack found by id leaves no pack with that id and every
      other pack. */
  lemma RemovedPack(packs: seq<Pack>, id: nat, i: nat)
    requires PacksDistinct(packs) && PackIndex(packs, id) == Some(i)
    ensures var r := Seqs.RemoveAt(packs, i);
      (forall k :: 0 <= k < |r| ==> r[k].id != id) &&
      (forall k :: 0 <= k < |packs| && packs[k].id != id ==> packs[k] in r)
  {
    var r := Seqs.RemoveAt(packs, i);
    assert packs[i].id == id;
    forall k | 0 <= k < |r| ensures r[k].id != id {
      if k < i { assert r[k] == packs[k]; } else { assert r[k] == packs[k + 1]; }
    }
    forall k | 0 <= k < |packs| && packs[k].id != id ensures packs[k] in r {
      if k < i { assert r[k] == packs[k]; } else { assert r[k - 1] == packs[k]; }
    }
  }

  lemma PublishKeepsWellFormed(t: Tables, id: nat, now: int)
    requires WellFormed(t) && Publish(t, id, now).Success?
    ensures WellFormed(Publish(t, id, now).value)
  {
    var i := PackIndex(t.packs, id).value;
    RemoveKeepsPacksDistinct(t.packs, i);
    var t' := Publish(t, id, now).value;
    assert forall k :: 0 <= k < |t'.packs| ==> t'.packs[k] in t.packs;
  }

  // ---------------------------------------------------------------- deleteReveal

  /** `deleteReveal` and `deleteRevealInternal`: the reveal and every object
      linked to it go; deleting a missing reveal throws. */
  function DeleteReveal(t: Tables, id: nat): (r: Result<Tables>)
    ensures r.Failure? <==> forall k :: 0 <= k < |t.revealRows| ==> t.revealRows[k].id != id
    ensures r.Success? ==>
      |r.value.revealRows| == |t.revealRows| - 1 && |r.value.objects| <= |t.objects| &&
      r.value.packs == t.packs && r.value.scenes == t.scenes && r.value.history == t.history
  {
    match RevealIndex(t.revealRows, id)
    case None => Failure(Nonexistent)
    case Some(i) =>
      Success(t.(revealRows := Seqs.RemoveAt(t.revealRows, i), objects := Seqs.Filter(t.objects, Unlinked(id))))
  }

  /** After a delete neither the reveal nor any object pointing at it is
      left, and every other reveal and object is. */
  lemma DeleteLeavesNoGhostDots(t: Tables, id: nat)
    requires WellFormed(t)
    ensures DeleteReveal(t, id).Failure? <==> forall k :: 0 <= k < |t.revealRows| ==> t.revealRows[k].id != id
    ensures DeleteReveal(t, id).Success? ==>
      var t' := DeleteReveal(t, id).value;
      |t'.revealRows| == |t.revealRows| - 1 &&
      (forall k :: 0 <= k < |t'.revealRows| ==> t'.revealRows[k].id != id) &&
      (forall k :: 0 <= k < |t.revealRows| && t.revealRows[k].id != id ==> t.revealRows[k] in t'.revealRows) &&
      (forall k :: 0 <= k < |t'.objects| ==> t'.objects[k].revealId != Some(id)) &&
      (forall k :: 0 <= k < |t.objects| && t.objects[k].revealId != Some(id) ==> t.objects[k] in t'.objects) &&
      t'.packs == t.packs && t'.scenes == t.scenes
  {
    if DeleteReveal(t, id).Success? {
      var i := RevealIndex(t.revealRows, id).value;
      var t' := DeleteReveal(t, id).value;
      forall k | 0 <= k < |t'.revealRows| ensures t'.revealRows[k].id != id {
        if k < i { assert t'.revealRows[k] == t.revealRows[k]; } else { assert t'.revealRows[k] == t.revealRows[k + 1]; }
      }
      forall k | 0 <= k < |t.revealRows| && t.revealRows[k].id != id ensures t.revealRows[k] in t'.revealRows {
        if k < i { assert t'.revealRows[k] == t.revealRows[k]; } else { assert t'.revealRows[k - 1] == t.revealRows[k]; }
      }
      forall k | 0 <= k < |t'.objects| ensures t'.objects[k].revealId != Some(id) {
        assert Unlinked(id)(t'.objects[k]);
      }
      forall k | 0 <= k < |t.objects| && t.objects[k].revealId != Some(id) ensures t.objects[k] in t'.objects {
        assert Unlinked(id)(t.objects[k]);
      }
    }
  }

  // ---------------------------------------------------------------- reassignRevealSpace

  datatype Moved = Moved(newSceneId: nat, movedObjects: nat)

  /** Every object linked to the reveal moves to the scene. */
  function MoveLinked(objects: seq<Obj>, id: nat, scene: nat): (r: seq<Obj>)
    ensures |r| == |objects|
    ensures forall k :: 0 <= k < |objects| && objects[k].revealId == Some(id) ==> r[k] == objects[k].(sceneId := scene)
    ensures forall k :: 0 <= k < |objects| && objects[k].revealId != Some(id) ==> r[k] == objects[k]
  {
    seq(|objects|, k requires 0 <= k < |objects| =>
      if objects[k].revealId == Some(id) then objects[k].(sceneId := scene) else objects[k])
  }

  function SlugMissing(slug: string): string {
    "Scene with slug '" + slug + "' not found."
  }

  /** `reassignRevealSpace`: the scene is looked up first, so an unknown
      slug writes nothing; patching a missing reveal throws. */
  function Reassign(t: Tables, id: nat, slug: string): (r: Result<(Tables, Moved)>)
    ensures r.Success? ==>
      |r.value.0.objects| == |t.objects| && |r.value.0.revealRows| == |t.revealRows| &&
      r.value.0.packs == t.packs && r.value.0.scenes == t.scenes && r.value.0.nextId == t.nextId &&
      r.value.1.movedObjects <= |t.objects|
  {
    match SlugIndex(t.scenes, slug)
    case None => Failure(SlugMissing(slug))
    case Some(j) =>
      var scene := t.scenes[j].id;
      match RevealIndex(t.revealRows, id)
      case None => Failure(Nonexistent)
      case Some(i) =>
        Success((t.(revealRows := t.revealRows[i := t.revealRows[i].(spaceId := Some(scene))],
                    objects := MoveLinked(t.objects, id, scene)),
                 Moved(scene, Seqs.Count(t.objects, Linked(id)))))
  }

  /** An unknown slug is refused; otherwise the reveal and all its objects
      end in the first scene with that slug, nothing else moves, and the
      count is the number of linked objects. */
  lemma ReassignMovesLinked(t: Tables, id: nat, slug: string)
    ensures (forall k :: 0 <= k < |t.scenes| ==> t.scenes[k].slug != slug) <==> Reassign(t, id, slug) == Failure(SlugMissing(slug))
    ensures Reassign(t, id, slug).Success? ==>
      var (t', moved) := Reassign(t, id, slug).value;
      (exists k :: 0 <= k < |t.scenes| && t.scenes[k].slug == slug && t.scenes[k].id == moved.newSceneId) &&
      moved.movedObjects == Seqs.Count(t.objects, Linked(id)) &&
      |t'.objects| == |t.objects| &&
      (forall k :: 0 <= k < |t'.objects| && t.objects[k].revealId == Some(id) ==> t'.objects[k].sceneId == moved.newSceneId) &&
      (forall k :: 0 <= k < |t'.objects| && t.objects[k].revealId != Some(id) ==> t'.objects[k] == t.objects[k]) &&
      (exists k :: 0 <= k < |t.revealRows| && t.revealRows[k].id == id && t'.revealRows == t.revealRows[k := t.revealRows[k].(spaceId := Some(moved.newSceneId))]) &&
      t'.packs == t.packs && t'.scenes == t.scenes
  {
  }

  // ---------------------------------------------------------------- listings

  /** Some object references the reveal. */
  predicate Referenced(objects: seq<Obj>, id: nat) {
    Seqs.FirstIndex(objects, Linked(id)).Some?
  }

  lemma ReferencedIff(objects: seq<Obj>, id: nat)
    ensures Referenced(objects, id) <==> exists k :: 0 <= k < |objects| && objects[k].revealId == Some(id)
  {
    var f := Seqs.FirstIndex(objects, Linked(id));
    if f.Some? {
      assert Linked(id)(objects[f.value]);
    } else {
      forall k | 0 <= k < |objects| ensures objects[k].revealId != Some(id) {
        assert !Linked(id)(objects[k]);
      }
    }
  }

  function IsUnreferenced(objects: seq<Obj>): Reveal -> bool {
    (r: Reveal) => !Referenced(objects, r.id)
  }

  /** Newest first: a descending sort on the creation time, equal times
      keeping their order. */
  function NewestFirst(r: Reveal): (int, int) { (-r.createdAt, 0) }

  /** `listUnlinkedReveals`. */
  function ListUnlinked(t: Tables): (r: seq<Reveal>)
    ensures |r| <= |t.revealRows|
  {
    Seqs.SortBy(Seqs.Filter(t.revealRows, IsUnreferenced(t.objects)), NewestFirst)
  }

  /** A reveal passes the unlinked filter exactly when it is stored and no
      object references it. */
  lemma UnlinkedFilterMembers(t: Tables, r: Reveal)
    ensures r in Seqs.Filter(t.revealRows, IsUnreferenced(t.objects)) <==>
      r in t.revealRows && forall k :: 0 <= k < |t.objects| ==> t.objects[k].revealId != Some(r.id)
  {
    var f := Seqs.Filter(t.revealRows, IsUnreferenced(t.objects));
    ReferencedIff(t.objects, r.id);
    if r in f {
      var i :| 0 <= i < |f| && f[i] == r;
      assert IsUnreferenced(t.objects)(f[i]);
    }
    if r in t.revealRows && !Referenced(t.objects, r.id) {
      var i :| 0 <= i < |t.revealRows| && t.revealRows[i] == r;
      assert IsUnreferenced(t.objects)(t.revealRows[i]);
    }
  }

  /** The unlinked listing holds exactly the revealRows no object references,
      newest first. */
  lemma ListUnlinkedExact(t: Tables)
    ensures forall r :: r in ListUnlinked(t) <==> r in t.revealRows && forall k :: 0 <= k < |t.objects| ==> t.objects[k].revealId != Some(r.id)
    ensures forall i, j :: 0 <= i < j < |ListUnlinked(t)| ==> ListUnlinked(t)[i].createdAt >= ListUnlinked(t)[j].createdAt
  {
    var f := Seqs.Filter(t.revealRows, IsUnreferenced(t.objects));
    var l := ListUnlinked(t);
    assert multiset(l) == multiset(f);
    forall r ensures r in l <==> r in t.revealRows && forall k :: 0 <= k < |t.objects| ==> t.objects[k].revealId != Some(r.id) {
      assert r in l <==> r in multiset(l);
      assert r in f <==> r in multiset(f);
      UnlinkedFilterMembers(t, r);
    }
    forall i, j | 0 <= i < j < |l| ensures l[i].createdAt >= l[j].createdAt {
      assert Seqs.KeyLe(NewestFirst(l[i]), NewestFirst(l[j]));
    }
  }

  /** A reveal as `listAllReveals` returns it. */
  datatype Listed = Listed(
    record: Reveal,
    isLinked: bool,
    linkedObjectId: Option<nat>,
    linkedSceneName: Option<string>,
    linkedObjectName: Option<string>,
    sceneSlug: string,
    isAnchored: bool)

  /** The name of the linked object's scene: its title, or "Unknown Scene"
      when the scene is missing or untitled. */
  function SceneName(scenes: seq<Scene>, id: nat): string {
    match SceneIndex(scenes, id)
    case Some(j) => if scenes[j].title != "" then scenes[j].title else "Unknown Scene"
    case None => "Unknown Scene"
  }

  /** The slug of the reveal's space, or "home". */
  function SpaceSlug(scenes: seq<Scene>, spaceId: Option<nat>): string {
    if spaceId.None? then "home"
    else match SceneIndex(scenes, spaceId.value)
      case Some(j) => if scenes[j].slug != "" then scenes[j].slug else "home"
      case None => "home"
  }

  /** The entry points at the first object linked to reveal `id`: its id,
      its scene's name and its name when it has one. */
  predicate IsFirstLink(t: Tables, id: nat, e: Listed) {
    exists k :: 0 <= k < |t.objects| && t.objects[k].revealId == Some(id) &&
      (forall m :: 0 <= m < k ==> t.objects[m].revealId != Some(id)) &&
      e.linkedObjectId == Some(t.objects[k].id) && e.linkedSceneName == Some(SceneName(t.scenes, t.objects[k].sceneId)) &&
      e.linkedObjectName == (if t.objects[k].name != "" then Some(t.objects[k].name) else None)
  }

  function Enrich(t: Tables, r: Reveal): (e: Listed)
    ensures e.record == r && e.isAnchored == e.isLinked
    ensures e.isLinked <==> exists k :: 0 <= k < |t.objects| && t.objects[k].revealId == Some(r.id)
    ensures e.linkedObjectId.Some? <==> e.isLinked
    ensures e.linkedSceneName.Some? <==> e.isLinked
    ensures e.isLinked ==> IsFirstLink(t, r.id, e)
    ensures !e.isLinked ==> e.linkedObjectName.None?
    ensures e.sceneSlug == SpaceSlug(t.scenes, r.spaceId)
  {
    var linked := Seqs.FirstIndex(t.objects, Linked(r.id));
    var isLinked := linked.Some?;
    if isLinked then
      var o := t.objects[linked.value];
      assert Linked(r.id)(o);
      Listed(r, true, Some(o.id), Some(SceneName(t.scenes, o.sceneId)), if o.name != "" then Some(o.name) else None,
        SpaceSlug(t.scenes, r.spaceId), true)
    else
      assert forall k :: 0 <= k < |t.objects| ==> !Linked(r.id)(t.objects[k]);
      Listed(r, false, None, None, None, SpaceSlug(t.scenes, r.spaceId), false)
  }

  /** `publishedAt || _creationTime`. */
  function ShownTime(e: Listed): int {
    if e.record.publishedAt.Some? && e.record.publishedAt.value != 0 then e.record.publishedAt.value else e.record.createdAt
  }

  function LatestFirst(e: Listed): (int, int) { (-ShownTime(e), 0) }

  function EnrichWith(t: Tables): Reveal -> Listed {
    (r: Reveal) => Enrich(t, r)
  }

  /** `listAllReveals`. */
  function ListAll(t: Tables): (r: seq<Listed>)
    ensures |r| == |t.revealRows|
  {
    Seqs.SortBy(Seqs.MapAll(t.revealRows, EnrichWith(t)), LatestFirst)
  }

  /** Every reveal appears once, enriched, and the listing runs from the
      latest publication (or creation) time down. */
  lemma ListAllExact(t: Tables)
    ensures multiset(ListAll(t)) == multiset(Seqs.MapAll(t.revealRows, EnrichWith(t)))
    ensures |ListAll(t)| == |t.revealRows|
    ensures forall e :: e in ListAll(t) ==> e.record in t.revealRows && e == Enrich(t, e.record)
    ensures forall i, j :: 0 <= i < j < |ListAll(t)| ==> ShownTime(ListAll(t)[i]) >= ShownTime(ListAll(t)[j])
  {
    var m := Seqs.MapAll(t.revealRows, EnrichWith(t));
    var l := ListAll(t);
    forall e | e in l ensures e.record in t.revealRows && e == Enrich(t, e.record) {
      assert e in multiset(l);
      assert e in multiset(m);
      var k :| 0 <= k < |m| && m[k] == e;
      assert m[k] == Enrich(t, t.revealRows[k]);
    }
    forall i, j | 0 <= i < j < |l| ensures ShownTime(l[i]) >= ShownTime(l[j]) {
      assert Seqs.KeyLe(LatestFirst(l[i]), LatestFirst(l[j]));
    }
  }

  // ---------------------------------------------------------------- the store

  /** The content tables as the mutations change them. */
  class ContentStore {
    var scenes: seq<Scene>
    var packs: seq<Pack>
    var history: seq<History>
    var revealRows: seq<Reveal>
    var objects: seq<Obj>
    var nextId: nat

    function State(): Tables
      reads this
    {
      Tables(scenes, packs, history, revealRows, objects, nextId)
    }

    ghost predicate Valid()
      reads this
    {
      WellFormed(State())
    }

    constructor (initial: Tables)
      requires WellFormed(initial)
      ensures Valid() && State() == initial
    {
      scenes, packs, history := initial.scenes, initial.packs, initial.history;
      revealRows, objects, nextId := initial.revealRows, initial.objects, initial.nextId;
    }

    method ImportPack(a: ImportArgs, token: string, now: int) returns (out: ImportOutcome)
      requires Valid()
      modifies this
      ensures Valid()
      ensures (State(), out) == Import(old(State()), a, token, now)
    {
      ImportKeepsWellFormed(State(), a, token, now);
      var existing := HotspotIndex(packs, a.hotspotId);
      if existing.Some? && a.overwriteConfirmed != Some(true) {
        return Conflict(packs[existing.value].id, packs[existing.value].title);
      }
      if existing.Some? {
        var e := packs[existing.value];
        history := history + [History(nextId, e.id, e.hotspotId, e, now, token)];
        nextId := nextId + 1;
        packs := packs[existing.value := Overwrite(e, a, token)];
        return Imported(e.id, true);
      }
      packs := packs + [NewPack(nextId, a, token, now)];
      out := Imported(nextId, false);
      nextId := nextId + 1;
    }

    method PublishPack(id: nat, now: int) returns (res: Result<()>)
      requires Valid()
      modifies this
      ensures Valid()
      ensures match Publish(old(State()), id, now)
        case Failure(e) => res == Failure(e) && State() == old(State())
        case Success(t') => res == Success(()) && State() == t'
    {
      ghost var t0 := State();
      var i := PackIndex(packs, id);
      if i.None? {
        return Failure("Pack not found");
      }
      var p := packs[i.value];
      var scene := TargetScene(scenes, p);
      if scene.Failure? {
        return Failure(scene.error);
      }
      var revealId := nextId;
      revealRows := revealRows + [PublishedReveal(revealId, p, scene.value, now)];
      objects := objects + [Marker(revealId + 1, p, scene.value, revealId)];
      nextId := nextId + 2;
      packs := Seqs.RemoveAt(packs, i.value);
      assert State() == Publish(t0, id, now).value;
      PublishKeepsWellFormed(t0, id, now);
      res := Success(());
    }

    /** The reveal goes first, then the scan removes each object linked to
      it. */
    method DeleteRevealAndObjects(id: nat) returns (res: Result<()>)
      requires Valid()
      modifies this
      ensures Valid()
      ensures match DeleteReveal(old(State()), id)
        case Failure(e) => res == Failure(e) && State() == old(State())
        case Success(t') => res == Success(()) && State() == t'
    {
      var i := RevealIndex(revealRows, id);
      if i.None? {
        return Failure(Nonexistent);
      }
      DeleteKeepsWellFormed(State(), id);
      revealRows := Seqs.RemoveAt(revealRows, i.value);
      var remaining := RemoveLinked(objects, id);
      objects := remaining;
      res := Success(());
    }

    method ReassignRevealSpace(id: nat, slug: string) returns (res: Result<Moved>)
      requires Valid()
      modifies this
      ensures Valid()
      ensures match Reassign(old(State()), id, slug)
        case Failure(e) => res == Failure(e) && State() == old(State())
        case Success((t', moved)) => res == Success(moved) && State() == t'
    {
      var j := SlugIndex(scenes, slug);
      if j.None? {
        return Failure(SlugMissing(slug));
      }
      var scene := scenes[j.value].id;
      var i := RevealIndex(revealRows, id);
      if i.None? {
        return Failure(Nonexistent);
      }
      ReassignKeepsWellFormed(State(), id, slug);
      revealRows := revealRows[i.value := revealRows[i.value].(spaceId := Some(scene))];
      var moved, count := MoveObjects(objects, id, scene);
      objects := moved;
      res := Success(Moved(scene, count));
    }
  }

  lemma DeleteKeepsWellFormed(t: Tables, id: nat)
    requires WellFormed(t) && DeleteReveal(t, id).Success?
    ensures WellFormed(DeleteReveal(t, id).value)
  {
    var i := RevealIndex(t.revealRows, id).value;
    RemoveKeepsRevealIdsDistinct(t.revealRows, i);
    var t' := DeleteReveal(t, id).value;
    assert forall k :: 0 <= k < |t'.revealRows| ==> t'.revealRows[k] in t.revealRows;
    assert forall k :: 0 <= k < |t'.objects| ==> t'.objects[k] in t.objects;
  }

  lemma ReassignKeepsWellFormed(t: Tables, id: nat, slug: string)
    requires WellFormed(t) && Reassign(t, id, slug).Success?
    ensures WellFormed(Reassign(t, id, slug).value.0)
  {
  }

  /** The scan of `deleteReveal` over the objects: each linked object is
    deleted where it stands. */
  method RemoveLinked(objects: seq<Obj>, id: nat) returns (remaining: seq<Obj>)
    ensures remaining == Seqs.Filter(objects, Unlinked(id))
  {
    remaining := objects;
    var k := 0;
    while k < |remaining|
      invariant 0 <= k <= |remaining|
      invariant Seqs.Filter(remaining, Unlinked(id)) == Seqs.Filter(objects, Unlinked(id))
      invariant forall m :: 0 <= m < k ==> Unlinked(id)(remaining[m])
      decreases |remaining| - k
    {
      if remaining[k].revealId == Some(id) {
        Seqs.FilterRemoveRejected(remaining, Unlinked(id), k);
        remaining := Seqs.RemoveAt(remaining, k);
      } else {
        k := k + 1;
      }
    }
    Seqs.FilterAll(remaining, Unlinked(id));
  }

  /** The objects of `moved` up to `i` are moved, the rest untouched. */
  ghost predicate MovedUpTo(objects: seq<Obj>, moved: seq<Obj>, id: nat, scene: nat, i: int) {
    0 <= i <= |moved| == |objects| &&
    (forall k :: 0 <= k < i ==> moved[k] == MoveLinked(objects, id, scene)[k]) &&
    (forall k :: i <= k < |moved| ==> moved[k] == objects[k])
  }

  /** The loop of `reassignRevealSpace` over the linked objects, counting
    them. */
  method MoveObjects(objects: seq<Obj>, id: nat, scene: nat) returns (moved: seq<Obj>, count: nat)
    ensures moved == MoveLinked(objects, id, scene)
    ensures count == Seqs.Count(objects, Linked(id))
  {
    moved := objects;
    count := 0;
    var i := 0;
    while i < |moved|
      invariant MovedUpTo(objects, moved, id, scene, i)
      invariant count == Seqs.Count(objects[..i], Linked(id))
    {
      Seqs.CountStep(objects, Linked(id), i);
      if moved[i].revealId == Some(id) {
        moved := moved[i := moved[i].(sceneId := scene)];
        count := count + 1;
      }
      i := i + 1;
    }
    assert objects[..i] == objects;
  }
}
