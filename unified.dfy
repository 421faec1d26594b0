/** The studio's unified content listing: published reveals and draft packs
    in one list, each placed in a scene, newest first. */
module Unified {
  import opened Wrappers
  import Seqs
  import Text
  import Content

  /** One entry of the listing. */
  datatype Item = Item(
    id: nat,
    title: string,
    content: string,
    kind: string,
    status: string,
    source: string,
    sceneSlug: string,
    sceneTitle: string,
    createdAt: int,
    isLinked: bool,
    phase: Option<Content.Phase>,
    voice: Option<string>,
    packData: Option<Content.Pack>)

  /** `sceneMap.get(id)`: a `Map` built from the scenes keeps the last scene
      with each id. */
  function ById(scenes: seq<Content.Scene>, id: nat): (r: Option<Content.Scene>)
    ensures r.Some? ==> r.value in scenes && r.value.id == id
    ensures r.None? <==> forall k :: 0 <= k < |scenes| ==> scenes[k].id != id
  {
    match Seqs.LastIndex(scenes, (s: Content.Scene) => s.id == id)
    case Some(j) => Some(scenes[j])
    case None => None
  }

  /** `sceneSlugMap.get(slug)`: the last scene with that slug. */
  function BySlug(scenes: seq<Content.Scene>, slug: string): (r: Option<Content.Scene>)
    ensures r.Some? ==> r.value in scenes && r.value.slug == slug
    ensures r.Some? ==> exists j :: 0 <= j < |scenes| && scenes[j] == r.value && forall k :: j < k < |scenes| ==> scenes[k].slug != slug
    ensures r.None? <==> forall k :: 0 <= k < |scenes| ==> scenes[k].slug != slug
  {
    match Seqs.LastIndex(scenes, (s: Content.Scene) => s.slug == slug)
    case Some(j) => Some(scenes[j])
    case None => None
  }

  /** The title and slug of a resolved scene. */
  function Place(s: Content.Scene): (string, string) { (s.title, s.slug) }

  const Nowhere := ("Unknown", "home")

  /** A reveal's scene: the linked object's scene when it has a linked
      object, else its space; "Unknown"/"home" when that does not resolve.
      A linked object whose scene is gone does not fall back to the space. */
  function RevealScene(t: Content.Tables, r: Content.Reveal): (place: (string, string))
    ensures Content.Referenced(t.objects, r.id) ==>
      var o := t.objects[Seqs.FirstIndex(t.objects, Content.Linked(r.id)).value];
      place == (if ById(t.scenes, o.sceneId).Some? then Place(ById(t.scenes, o.sceneId).value) else Nowhere)
    ensures !Content.Referenced(t.objects, r.id) && r.spaceId.Some? && ById(t.scenes, r.spaceId.value).Some? ==>
      place == Place(ById(t.scenes, r.spaceId.value).value)
    ensures !Content.Referenced(t.objects, r.id) && (r.spaceId.None? || ById(t.scenes, r.spaceId.value).None?) ==>
      place == Nowhere
  {
    var linked := Seqs.FirstIndex(t.objects, Content.Linked(r.id));
    if linked.Some? then
      match ById(t.scenes, t.objects[linked.value].sceneId)
      case Some(s) => Place(s)
      case None => Nowhere
    else if r.spaceId.Some? then
      match ById(t.scenes, r.spaceId.value)
      case Some(s) => Place(s)
      case None => Nowhere
    else Nowhere
  }

  /** A pack's scene: its scene id when it has one ("Unknown"/"home" when
      that does not resolve); otherwise the last scene whose slug is the
      lowercased domain, the raw domain standing in as the slug when none
      is; "Unknown"/"home" for a pack with neither. */
  function PackScene(t: Content.Tables, p: Content.Pack): (place: (string, string))
    ensures p.sceneId.Some? ==>
      place == (if ById(t.scenes, p.sceneId.value).Some? then Place(ById(t.scenes, p.sceneId.value).value) else Nowhere)
    ensures p.sceneId.None? && p.domain != "" && BySlug(t.scenes, Text.ToLower(p.domain)).Some? ==>
      place == Place(BySlug(t.scenes, Text.ToLower(p.domain)).value)
    ensures p.sceneId.None? && p.domain != "" && BySlug(t.scenes, Text.ToLower(p.domain)).None? ==>
      place == ("Unknown", p.domain)
    ensures p.sceneId.None? && p.domain == "" ==> place == Nowhere
  {
    if p.sceneId.Some? then
      match ById(t.scenes, p.sceneId.value)
      case Some(s) => Place(s)
      case None => Nowhere
    else if p.domain != "" then
      match BySlug(t.scenes, Text.ToLower(p.domain))
      case Some(s) => Place(s)
      case None => ("Unknown", p.domain)
    else Nowhere
  }

  function RevealItem(t: Content.Tables, r: Content.Reveal): Item {
    var (title, slug) := RevealScene(t, r);
    Item(r.id, r.title, r.content, r.revealType, "Published", "reveal", slug, title, r.createdAt,
      Content.Referenced(t.objects, r.id), r.phase, Some(r.voice), None)
  }

  function PackItem(t: Content.Tables, p: Content.Pack): Item {
    var (title, slug) := PackScene(t, p);
    Item(p.id, p.title, p.bodyCopy, p.revealType, "Draft", "pack", slug, title, p.createdAt, false, p.phase, None, Some(p))
  }

  function RevealItemOf(t: Content.Tables): Content.Reveal -> Item {
    (r: Content.Reveal) => RevealItem(t, r)
  }

  function PackItemOf(t: Content.Tables): Content.Pack -> Item {
    (p: Content.Pack) => PackItem(t, p)
  }

  function NewestFirst(e: Item): (int, int) { (-e.createdAt, 0) }

  /** The reveals' entries followed by the packs'. */
  function Merged(t: Content.Tables): seq<Item> {
    Seqs.MapAll(t.revealRows, RevealItemOf(t)) + Seqs.MapAll(t.packs, PackItemOf(t))
  }

  /** `listUnifiedContent`. */
  function ListUnified(t: Content.Tables): (r: seq<Item>)
    ensures |r| == |t.revealRows| + |t.packs|
  {
    Seqs.SortBy(Merged(t), NewestFirst)
  }

  /** An entry of the listing, traced back to its row. */
  predicate FromRow(t: Content.Tables, e: Item) {
    (exists k :: 0 <= k < |t.revealRows| && e == RevealItem(t, t.revealRows[k])) ||
    (exists k :: 0 <= k < |t.packs| && e == PackItem(t, t.packs[k]))
  }

  /** Every merged entry is traced to its row. */
  lemma MergedFromRow(t: Content.Tables, k: nat)
    requires k < |Merged(t)|
    ensures FromRow(t, Merged(t)[k])
  {
    var nr := |t.revealRows|;
    if k < nr {
      assert Merged(t)[k] == RevealItemOf(t)(t.revealRows[k]);
    } else {
      assert Merged(t)[k] == PackItemOf(t)(t.packs[k - nr]);
    }
  }

  /** The listing holds one entry per reveal and one per pack, each traced
      to its row, newest first. */
  lemma ListUnifiedExact(t: Content.Tables)
    ensures |ListUnified(t)| == |t.revealRows| + |t.packs|
    ensures multiset(ListUnified(t)) == multiset(Merged(t))
    ensures forall e :: e in ListUnified(t) ==> FromRow(t, e)
    ensures forall i, j :: 0 <= i < j < |ListUnified(t)| ==> ListUnified(t)[i].createdAt >= ListUnified(t)[j].createdAt
  {
    var m := Merged(t);
    var l := ListUnified(t);
    forall e | e in l ensures FromRow(t, e) {
      assert e in multiset(l);
      assert e in multiset(m);
      var k :| 0 <= k < |m| && m[k] == e;
      MergedFromRow(t, k);
    }
    forall i, j | 0 <= i < j < |l| ensures l[i].createdAt >= l[j].createdAt {
      assert Seqs.KeyLe(NewestFirst(l[i]), NewestFirst(l[j]));
    }
  }

  /** A reveal's entry is published, comes from the reveals, and is linked
      exactly when some object references it; a pack's entry is a draft,
      comes from the packs, and is never linked. */
  lemma EntryKinds(t: Content.Tables, r: Content.Reveal, p: Content.Pack)
    ensures RevealItem(t, r).status == "Published" && RevealItem(t, r).source == "reveal"
    ensures RevealItem(t, r).isLinked <==> exists k :: 0 <= k < |t.objects| && t.objects[k].revealId == Some(r.id)
    ensures PackItem(t, p).status == "Draft" && PackItem(t, p).source == "pack" && !PackItem(t, p).isLinked
    ensures PackItem(t, p).packData == Some(p) && RevealItem(t, r).packData.None?
  {
    Content.ReferencedIff(t.objects, r.id);
  }
}
