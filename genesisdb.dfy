/** The write half of the Genesis pipeline: one story and the artifacts
    generated with it, each artifact linked back to the story. */
module GenesisDb {
  import opened Wrappers
  import Text
  import Slugs
  import Archive

  /** The story argument, as its validator admits it. */
  datatype StoryArgs = StoryArgs(
    title: string,
    slug: Option<string>,
    content: Option<string>,
    author: Option<string>,
    roomId: Option<string>,
    tier: string)

  /** One artifact argument; its type is any string. */
  datatype ArtifactArgs = ArtifactArgs(keywords: seq<string>, title: string, content: Option<string>, kind: string)

  datatype Story = Story(
    id: nat,
    title: string,
    slug: string,
    content: string,
    author: string,
    roomId: string,
    tier: string,
    publishedAt: int)

  /** `o || d` on an optional string: the default replaces an absent or
      empty value. */
  function Or(o: Option<string>, d: string): (r: string)
    ensures o.Some? && o.value != "" ==> r == o.value
    ensures o.None? || o.value == "" ==> r == d
  {
    if o.Some? && o.value != "" then o.value else d
  }

  /** The slug of a saved story: the given one, else the lowercased title
      with every run of other characters turned into one hyphen. */
  function StorySlug(s: StoryArgs): string {
    Or(s.slug, Slugs.Collapse(Text.ToLower(s.title)))
  }

  /** A derived slug is made of slug characters with no doubled hyphen, and
      stripping its edge hyphens gives the slug the studio derives from the
      same title. */
  lemma DerivedSlugAgrees(s: StoryArgs)
    requires s.slug.None? || s.slug.value == ""
    ensures Slugs.Clean(StorySlug(s))
    ensures Slugs.StripHyphens(StorySlug(s)) == Slugs.GenerateSlug(s.title)
  {
    Slugs.CollapseClean(Text.ToLower(s.title));
  }

  function StoryOf(id: nat, s: StoryArgs, now: int): (r: Story)
    ensures r.title == s.title && r.tier == s.tier && r.publishedAt == now
    ensures r.content != "" && r.author != "" && r.roomId != ""
    ensures r.slug == StorySlug(s)
  {
    Story(id, s.title, StorySlug(s), Or(s.content, "Content corrupted."), Or(s.author, "Unknown"), Or(s.roomId, "study"), s.tier, now)
  }

  /** The schema's check of an artifact type: one of three, else a signal. */
  function KindOf(kind: string): (r: Archive.ArtifactType)
    ensures r != Archive.Visual
    ensures r == Archive.Myth <==> kind == "Myth"
    ensures r == Archive.Reflection <==> kind == "Reflection"
    ensures r == Archive.Signal <==> kind != "Myth" && kind != "Reflection"
  {
    if kind == "Myth" then Archive.Myth
    else if kind == "Reflection" then Archive.Reflection
    else Archive.Signal
  }

  const Protocol := "GENESIS_PROTOCOL"

  /** The artifact stored for one argument, linked to the story. */
  function Linked(a: ArtifactArgs, storyId: nat, id: nat, now: int): Archive.Artifact {
    Archive.Artifact(id, a.title, Or(a.content, "Analysis pending."), KindOf(a.kind), a.keywords, Some(now), Some(Protocol), Some(storyId))
  }

  /** The artifacts stored for the arguments, numbered from `firstId`. */
  function LinkedRows(arts: seq<ArtifactArgs>, storyId: nat, firstId: nat, now: int): (r: seq<Archive.Artifact>)
    ensures |r| == |arts|
    ensures forall k :: 0 <= k < |arts| ==> r[k] == Linked(arts[k], storyId, firstId + k, now)
  {
    seq(|arts|, k requires 0 <= k < |arts| => Linked(arts[k], storyId, firstId + k, now))
  }

  /** Every stored artifact keeps its argument's title and keywords, has
      content, is linked to the story, names the pipeline as its creator,
      and is never a visual. */
  lemma LinkedRowsShape(arts: seq<ArtifactArgs>, storyId: nat, firstId: nat, now: int, k: nat)
    requires k < |arts|
    ensures var a := LinkedRows(arts, storyId, firstId, now)[k];
      a.title == arts[k].title && a.keywords == arts[k].keywords && a.content != "" &&
      a.relatedStoryId == Some(storyId) && a.createdBy == Some(Protocol) && a.kind != Archive.Visual &&
      a.id == firstId + k
  {
  }

  /** The `stories` table. */
  class StoryStore {
    var stories: seq<Story>
    var nextId: nat

    ghost predicate Valid()
      reads this
    {
      forall k :: 0 <= k < |stories| ==> stories[k].id < nextId
    }

    constructor ()
      ensures Valid() && stories == [] && nextId == 0
    {
      stories := [];
      nextId := 0;
    }

    /** `saveContent`: the story, then each artifact in order. */
    method SaveContent(s: StoryArgs, arts: seq<ArtifactArgs>, now: int, archive: Archive.ArchiveStore)
      requires Valid() && archive.Valid()
      modifies this, archive
      ensures Valid() && archive.Valid()
      ensures stories == old(stories) + [StoryOf(old(nextId), s, now)] && nextId == old(nextId) + 1
      ensures archive.rows == old(archive.rows) + LinkedRows(arts, old(nextId), old(archive.nextId), now)
      ensures archive.nextId == old(archive.nextId) + |arts|
    {
      var storyId := nextId;
      stories := stories + [StoryOf(storyId, s, now)];
      nextId := nextId + 1;
      var i := 0;
      while i < |arts|
        invariant 0 <= i <= |arts| && archive.Valid()
        invariant archive.rows == old(archive.rows) + LinkedRows(arts[..i], storyId, old(archive.nextId), now)
        invariant archive.nextId == old(archive.nextId) + i
        invariant stories == old(stories) + [StoryOf(storyId, s, now)] && nextId == storyId + 1 == old(nextId) + 1
      {
        var _ := archive.Insert(Linked(arts[i], storyId, archive.nextId, now));
        i := i + 1;
      }
      assert arts[..i] == arts;
    }
  }
}
