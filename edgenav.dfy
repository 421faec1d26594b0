/** The edge navigation of the narrative rooms: a fixed walk through the
    house, with a previous and a next room at the screen's edges. */
module EdgeNav {
  import opened Wrappers
  import Seqs

  /** The order of the walk. */
  const Sequence: seq<string> := ["home", "workshop", "lounge", "study", "kitchen", "boathouse", "luminous-deep"]

  /** The name shown for each room. */
  const Labels: map<string, string> := map[
    "home" := "THE ARRIVAL",
    "workshop" := "THE WORKBENCH",
    "lounge" := "THE HEARTH",
    "study" := "THE STUDY",
    "kitchen" := "THE GALLEY",
    "boathouse" := "THE ANCHORAGE",
    "luminous-deep" := "THE DEEP"]

  /** One edge: the room it leads to, the route pushed on click and the
      label shown. */
  datatype Edge = Edge(slug: string, route: string, caption: string)

  datatype Nav = Nav(prev: Option<Edge>, next: Option<Edge>)

  /** The empty slug is the home room. */
  function Normalize(slug: string): string {
    if slug == "" then "home" else slug
  }

  function Is(slug: string): string -> bool {
    (s: string) => s == slug
  }

  /** `SEQUENCE.indexOf(slug)`, with `None` for -1. */
  function IndexOf(slug: string): (r: Option<nat>)
    ensures r.Some? ==> r.value < |Sequence| && Sequence[r.value] == slug
    ensures r.None? <==> slug !in Sequence
  {
    Seqs.FirstIndex(Sequence, Is(slug))
  }

  /** The home room's route is the site root. */
  function PrevRoute(slug: string): string {
    if slug == "home" then "/" else "/" + slug
  }

  function NextRoute(slug: string): string { "/" + slug }

  function LabelIn(labels: map<string, string>, slug: string): string {
    if slug in labels then labels[slug] else ""
  }

  /** The neighbours of position `i` of a walk. */
  function NavAt(walk: seq<string>, labels: map<string, string>, i: nat): Nav
    requires i < |walk|
  {
    var prev := if i > 0 then Some(Edge(walk[i - 1], PrevRoute(walk[i - 1]), LabelIn(labels, walk[i - 1]))) else None;
    var next := if i < |walk| - 1 then Some(Edge(walk[i + 1], NextRoute(walk[i + 1]), LabelIn(labels, walk[i + 1]))) else None;
    Nav(prev, next)
  }

  /** `EdgeNav`: nothing for a room outside the walk, else its neighbours. */
  function EdgeNavFor(currentSlug: string): (r: Option<Nav>)
    ensures r.Some? <==> Normalize(currentSlug) in Sequence
    ensures r.Some? ==>
      (r.value.prev.None? <==> Normalize(currentSlug) == Sequence[0]) &&
      (r.value.next.None? <==> Normalize(currentSlug) == Sequence[|Sequence| - 1])
  {
    match IndexOf(Normalize(currentSlug))
    case None => None
    case Some(i) => Some(NavAt(Sequence, Labels, i))
  }

  /** No room appears twice in the walk, so its index is its position. */
  lemma SequenceDistinct()
    ensures forall i, j :: 0 <= i < j < |Sequence| ==> Sequence[i] != Sequence[j]
  {
  }

  /** Every room of the walk has a label, so no edge shows an empty one. */
  lemma EveryRoomLabelled()
    ensures forall k :: 0 <= k < |Sequence| ==> Sequence[k] in Labels && Labels[Sequence[k]] != ""
  {
  }

  /** The empty slug navigates as the home room. */
  lemma EmptyIsHome()
    ensures EdgeNavFor("") == EdgeNavFor("home")
  {
  }

  /** Nothing is shown exactly for a slug outside the walk. */
  lemma OutsideRendersNothing(slug: string)
    ensures EdgeNavFor(slug).None? <==> Normalize(slug) !in Sequence
  {
  }

  /** A room of the walk is found at its own position. */
  lemma IndexOfRoom(k: nat)
    requires k < |Sequence|
    ensures IndexOf(Sequence[k]) == Some(k)
    ensures EdgeNavFor(Sequence[k]) == Some(NavAt(Sequence, Labels, k))
  {
    SequenceDistinct();
    assert Sequence[k] != "";
  }

  /** Inside the walk the previous edge is absent only in the first room and
      the next only in the last; otherwise they lead to the adjacent rooms,
      with the routes and labels of those rooms. */
  lemma Adjacent(k: nat)
    requires k < |Sequence|
    ensures EdgeNavFor(Sequence[k]).Some?
    ensures var nav := EdgeNavFor(Sequence[k]).value;
      (nav.prev.None? <==> k == 0) && (nav.next.None? <==> k == |Sequence| - 1) &&
      (nav.prev.Some? ==> nav.prev.value.slug == Sequence[k - 1] && nav.prev.value.caption == Labels[Sequence[k - 1]]) &&
      (nav.next.Some? ==> nav.next.value.slug == Sequence[k + 1] && nav.next.value.caption == Labels[Sequence[k + 1]])
  {
    EveryRoomLabelled();
    IndexOfRoom(k);
  }

  /** The previous route is the root for the home room and the room's path
      otherwise; the next route is always the room's path. */
  lemma Routes(slug: string)
    requires EdgeNavFor(slug).Some?
    ensures var nav := EdgeNavFor(slug).value;
      (nav.prev.Some? ==> nav.prev.value.route == (if nav.prev.value.slug == "home" then "/" else "/" + nav.prev.value.slug)) &&
      (nav.next.Some? ==> nav.next.value.route == "/" + nav.next.value.slug)
  {
  }

  /** Going to the next room and then back returns to the room one started in. */
  lemma NextThenPrev(k: nat)
    requires k + 1 < |Sequence|
    ensures EdgeNavFor(Sequence[k]).Some? && EdgeNavFor(Sequence[k]).value.next.Some?
    ensures var next := EdgeNavFor(Sequence[k]).value.next.value;
      EdgeNavFor(next.slug).Some? && EdgeNavFor(next.slug).value.prev.Some? &&
      EdgeNavFor(next.slug).value.prev.value.slug == Sequence[k]
  {
    IndexOfRoom(k);
    IndexOfRoom(k + 1);
  }
}
