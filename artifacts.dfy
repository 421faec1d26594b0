/** The archive of artifacts, the guide's long-term memory: keyword lookups,
    the two ways an artifact is added, and the two seeders. */
module Archive {
  import opened Wrappers
  import Seqs
  import Text
  import RoomState

  datatype ArtifactType = Myth | Signal | Reflection | Visual

  datatype Artifact = Artifact(
    id: nat,
    title: string,
    content: string,
    kind: ArtifactType,
    keywords: seq<string>,
    createdAt: Option<int>,
    createdBy: Option<string>,
    relatedStoryId: Option<nat>)

  /** An artifact as a seeder lists it. */
  datatype Entry = Entry(title: string, content: string, kind: ArtifactType, keywords: seq<string>)

  // ---------------------------------------------------------------- lookups

  /** One keyword against the query, both lowercased, contained either way. */
  predicate KeywordMatches(k: string, q: string) {
    Text.Contains(Text.ToLower(k), Text.ToLower(q)) || Text.Contains(Text.ToLower(q), Text.ToLower(k))
  }

  predicate AnyKeywordMatches(a: Artifact, q: string) {
    exists i :: 0 <= i < |a.keywords| && KeywordMatches(a.keywords[i], q)
  }

  function MatchesQuery(q: string): Artifact -> bool {
    (a: Artifact) => AnyKeywordMatches(a, q)
  }

  /** `searchByKeyword`. */
  function SearchByKeyword(rows: seq<Artifact>, q: string): (r: Option<Artifact>)
    ensures r.Some? ==> r.value in rows && MatchesQuery(q)(r.value)
  {
    match Seqs.FirstIndex(rows, MatchesQuery(q))
    case Some(i) => Some(rows[i])
    case None => None
  }

  /** The search returns the first artifact, in scan order, one of whose
      keywords contains the query or is contained in it (ignoring case),
      and nothing when there is none. */
  lemma SearchFindsFirst(rows: seq<Artifact>, q: string)
    ensures SearchByKeyword(rows, q).None? <==> forall k :: 0 <= k < |rows| ==> !AnyKeywordMatches(rows[k], q)
    ensures SearchByKeyword(rows, q).Some? ==>
      exists k :: 0 <= k < |rows| && rows[k] == SearchByKeyword(rows, q).value && AnyKeywordMatches(rows[k], q) &&
        forall m :: 0 <= m < k ==> !AnyKeywordMatches(rows[m], q)
  {
    var f := Seqs.FirstIndex(rows, MatchesQuery(q));
    if f.Some? {
      assert MatchesQuery(q)(rows[f.value]);
      forall m | 0 <= m < f.value ensures !AnyKeywordMatches(rows[m], q) {
        assert !MatchesQuery(q)(rows[m]);
      }
    } else {
      forall k | 0 <= k < |rows| ensures !AnyKeywordMatches(rows[k], q) {
        assert !MatchesQuery(q)(rows[k]);
      }
    }
  }

  /** A query that is a keyword in another case still finds it. */
  lemma SearchIgnoresCase(a: Artifact, i: nat, q: string)
    requires i < |a.keywords| && Text.ToLower(a.keywords[i]) == Text.ToLower(q)
    ensures SearchByKeyword([a], q) == Some(a)
  {
    var l := Text.ToLower(q);
    assert l[0..|l|] == l;
    assert Text.OccursAt(l, l, 0);
    assert KeywordMatches(a.keywords[i], q);
    assert MatchesQuery(q)(a);
  }

  function HasKeyword(k: string): Artifact -> bool {
    (a: Artifact) => k in a.keywords
  }

  /** `getArtifactByKeyword`: exact and case-sensitive membership. */
  function ArtifactByKeyword(rows: seq<Artifact>, k: string): (r: Option<Artifact>)
    ensures r.None? <==> forall i :: 0 <= i < |rows| ==> k !in rows[i].keywords
    ensures r.Some? ==> k in r.value.keywords
    ensures r.Some? ==> exists i :: 0 <= i < |rows| && rows[i] == r.value && (forall m :: 0 <= m < i ==> k !in rows[m].keywords)
  {
    match Seqs.FirstIndex(rows, HasKeyword(k))
    case Some(i) =>
      assert HasKeyword(k)(rows[i]);
      assert forall m :: 0 <= m < i ==> !HasKeyword(k)(rows[m]);
      Some(rows[i])
    case None =>
      assert forall m :: 0 <= m < |rows| ==> !HasKeyword(k)(rows[m]);
      None
  }

  // ---------------------------------------------------------------- additions

  function LowerAll(keywords: seq<string>): (r: seq<string>)
    ensures |r| == |keywords|
    ensures forall i :: 0 <= i < |keywords| ==> r[i] == Text.ToLower(keywords[i])
  {
    seq(|keywords|, i requires 0 <= i < |keywords| => Text.ToLower(keywords[i]))
  }

  /** The artifact `createArtifact` stores. */
  function Created(id: nat, title: string, content: string, kind: ArtifactType, keywords: seq<string>, now: int): Artifact {
    Artifact(id, title, content, kind, LowerAll(keywords), Some(now), None, None)
  }

  /** Lowercasing the keywords keeps their number and order, and a stored
      keyword is reached by the search from any casing of it. */
  lemma CreatedKeywords(id: nat, title: string, content: string, kind: ArtifactType, keywords: seq<string>, now: int, i: nat)
    requires i < |keywords|
    ensures var a := Created(id, title, content, kind, keywords, now);
      |a.keywords| == |keywords| && a.keywords[i] == Text.ToLower(keywords[i]) &&
      SearchByKeyword([a], keywords[i]) == Some(a)
  {
    var a := Created(id, title, content, kind, keywords, now);
    Text.ToLowerIdempotent(keywords[i]);
    SearchIgnoresCase(a, i, keywords[i]);
  }

  const GeneratedKeywords := ["generated", "visual", "brian"]

  /** The artifact `autoArchive` stores: the url is its content. */
  function Archived(id: nat, title: string, url: string, kind: ArtifactType, subject: Option<string>, now: int): Artifact {
    Artifact(id, title, url, kind, GeneratedKeywords, Some(now), Some(RoomState.UserOf(subject)), None)
  }

  // ---------------------------------------------------------------- seeders

  const Solent :=
    "The treacherous waters separating the " +
    "Isle of Wight from the mainland. In " +
    "1545, the Mary Rose sank here in view " +
    "of King Henry VIII. The locals speak of " +
    "the 'Fortibus Fleet' \U{2014} a flotilla of " +
    "medieval vessels that never made port. " +
    "On certain tides, fishermen claim to " +
    "see their masts breaking the surface."
  const Cartographer :=
    "This chart dates from the 13th Century, " +
    "before the great storm of 1287 reshaped " +
    "the coastline. Note the variance near " +
    "Brading Haven \U{2014} now silted and lost. " +
    "The Keeper marked safe passages with " +
    "brass pins, most of which have been " +
    "removed. One remains."
  const Coin :=
    "A silver groat bearing the mark of " +
    "Edward I, dated 1293. Found near Quarr " +
    "Abbey by a mudlarker in 1987. The " +
    "inscription reads 'CIVITAS PORTSMUE' \U{2014} " +
    "the City of Portsmouth. It should not " +
    "exist. No such mint operated that year."
  const Survey :=
    "Engineering drawings from 1923, when " +
    "the lighthouse was retrofitted for the " +
    "new Fresnel lens. The original " +
    "foundations are marked as 'UNSTABLE \U{2014} " +
    "DO NOT EXCAVATE.' Someone has pencilled " +
    "'Why?' in the margin."
  const Catherine :=
    "The oratory on St. Catherine's Down has " +
    "guided sailors since 1323. After the " +
    "wreck of the Clarendon in 1836, " +
    "Parliament demanded a proper " +
    "lighthouse. The current structure " +
    "houses a secret: a room that appears on " +
    "no blueprint, accessible only at low " +
    "tide."
  const Orrery :=
    "This armillary sphere was commissioned " +
    "by Sir Robert Holmes, Governor of the " +
    "Isle of Wight, in 1672. The planetary " +
    "positions are set to a date that has " +
    "not yet occurred. The Keeper believes " +
    "it shows the night the island will " +
    "finally drift free."
  const Circuitry :=
    "Standard UK power infrastructure. Known " +
    "for robustness, but the Bunker's wiring " +
    "dates back to the 1970s. Voltage spikes " +
    "are common. The emergency generator has " +
    "not been tested since 2019."
  const Journal :=
    "Found beneath the floorboards of the " +
    "lighthouse cottage. Entries span 1891-" +
    "1893. The final page contains only one " +
    "word, repeated forty-seven times: " +
    "'APPROACHING.'"

  const SolentEntry := Entry("THE SOLENT STRAIT", Solent, Myth, ["solent", "map", "water", "sea", "ship", "nautical", "strait", "maritime"])
  const CartographerEntry := Entry("CARTOGRAPHER'S NOTE", Cartographer, Reflection, ["map", "chart", "cartography", "coastline", "haven", "brading"])
  const CoinEntry := Entry("THE FORTIBUS COIN", Coin, Signal, ["coin", "silver", "groat", "edward", "quarr", "portsmouth", "mint"])
  const SurveyEntry := Entry("STRUCTURAL SURVEY", Survey, Reflection, ["blueprint", "drawing", "engineering", "lighthouse", "fresnel", "foundation"])
  const CatherineEntry := Entry("ST. CATHERINE'S LIGHT", Catherine, Myth, ["lighthouse", "catherine", "oratory", "sailors", "clarendon", "down"])
  const OrreryEntry := Entry("THE BRASS ORRERY", Orrery, Signal, ["armillary", "orrery", "sphere", "brass", "planet", "holmes", "governor"])
  const CircuitryEntry := Entry("BS-1363 CIRCUITRY", Circuitry, Signal, ["plug", "socket", "power", "electric", "tech", "cable", "outlet", "wire"])
  const JournalEntry := Entry("THE KEEPER'S JOURNAL", Journal, Myth, ["journal", "book", "notebook", "diary", "pen", "writing", "keeper"])

  /** The eight artifacts of the first seeding. */
  const SeedEntries: seq<Entry> := [SolentEntry, CartographerEntry, CoinEntry, SurveyEntry, CatherineEntry, OrreryEntry, CircuitryEntry, JournalEntry]

  const Isabella :=
    "The 13th-century 'Queen of the Wight.' " +
    "She resisted the Crown for decades. " +
    "Legends say she hid a Sovereign " +
    "Intelligence\U{2014}a primitive mechanical " +
    "core\U{2014}somewhere beneath Seaview before " +
    "the island was 'sold'."
  const SeaWall :=
    "A perimeter of ancient stone in Seaview " +
    "that acts as a physical archive. It " +
    "absorbs data from the deep. When the " +
    "tide is low, it vibrates with the heat " +
    "of a thousand processed thoughts."
  const Fleet :=
    "A lost flotilla of ships that never " +
    "made port. They weren't carrying gold; " +
    "they were carrying the 'Bones of the " +
    "Deep'\U{2014}the original server architecture " +
    "for the Sanctuary."

  const IsabellaEntry := Entry("ISABELLA DE FORTIBUS", Isabella, Myth, ["isabella", "queen", "history", "fortibus", "wight"])
  const SeaWallEntry := Entry("THE SATURATED SEA WALL", SeaWall, Reflection, ["wall", "sea wall", "discovery", "stone", "saturated"])
  const FleetEntry := Entry("THE FORTIBUS FLEET", Fleet, Signal, ["fleet", "ships", "discovery", "maritime", "fortibus"])

  /** The three entries of the lore seeding. */
  const LoreEntries: seq<Entry> := [IsabellaEntry, SeaWallEntry, FleetEntry]

  /** A seeded artifact: the first seeding stamps the time, the lore
      seeding stores the entry as listed. */
  function Seeded(id: nat, e: Entry, createdAt: Option<int>): Artifact {
    Artifact(id, e.title, e.content, e.kind, e.keywords, createdAt, None, None)
  }

  /** The artifacts of the first seeding, numbered from `nextId`. */
  function SeedRows(entries: seq<Entry>, nextId: nat, now: int): (r: seq<Artifact>)
    ensures |r| == |entries|
    ensures forall k :: 0 <= k < |entries| ==> r[k] == Seeded(nextId + k, entries[k], Some(now))
  {
    seq(|entries|, k requires 0 <= k < |entries| => Seeded(nextId + k, entries[k], Some(now)))
  }

  datatype SeedOutcome = AlreadySeeded | SeededCount(count: nat)

  predicate HasTitle(rows: seq<Artifact>, title: string) {
    exists k :: 0 <= k < |rows| && rows[k].title == title
  }

  function TitleIs(title: string): Artifact -> bool {
    (a: Artifact) => a.title == title
  }

  /** The first artifact with the title, as the lore seeding's `.first()`
      finds it. */
  function FindTitle(rows: seq<Artifact>, title: string): (r: Option<nat>)
    ensures r.Some? ==> r.value < |rows| && rows[r.value].title == title
    ensures r.None? <==> !HasTitle(rows, title)
  {
    var f := Seqs.FirstIndex(rows, TitleIs(title));
    assert f.None? ==> forall k :: 0 <= k < |rows| ==> !TitleIs(title)(rows[k]);
    f
  }

  /** The lore seeding over `entries`: each entry whose title is not yet in
      the table (counting what this run added) is inserted; the result is
      the table, the counter and the number added. */
  function AddMissing(rows: seq<Artifact>, nextId: nat, entries: seq<Entry>): (r: (seq<Artifact>, nat, nat))
    ensures r.2 <= |entries| && r.1 == nextId + r.2 && |r.0| == |rows| + r.2
    decreases |entries|
  {
    if entries == [] then (rows, nextId, 0)
    else if HasTitle(rows, entries[0].title) then AddMissing(rows, nextId, entries[1..])
    else
      var r := AddMissing(rows + [Seeded(nextId, entries[0], None)], nextId + 1, entries[1..]);
      (r.0, r.1, r.2 + 1)
  }

  /** The lore seeding only appends to the table. */
  lemma {:induction false} AddMissingExtends(rows: seq<Artifact>, nextId: nat, entries: seq<Entry>)
    ensures AddMissing(rows, nextId, entries).0[..|rows|] == rows
    decreases |entries|
  {
    if entries != [] && !HasTitle(rows, entries[0].title) {
      var grown := rows + [Seeded(nextId, entries[0], None)];
      AddMissingExtends(grown, nextId + 1, entries[1..]);
      var out := AddMissing(rows, nextId, entries).0;
      assert out[..|rows|] == out[..|grown|][..|rows|];
    } else if entries != [] {
      AddMissingExtends(rows, nextId, entries[1..]);
    }
  }

  /** One step of the lore seeding, at position `i` of the entries. */
  lemma AddMissingStep(rows: seq<Artifact>, nextId: nat, entries: seq<Entry>, i: nat)
    requires i < |entries|
    ensures HasTitle(rows, entries[i].title) ==> AddMissing(rows, nextId, entries[i..]) == AddMissing(rows, nextId, entries[i + 1..])
    ensures !HasTitle(rows, entries[i].title) ==>
      var r := AddMissing(rows + [Seeded(nextId, entries[i], None)], nextId + 1, entries[i + 1..]);
      AddMissing(rows, nextId, entries[i..]) == (r.0, r.1, r.2 + 1)
  {
    assert entries[i..][1..] == entries[i + 1..];
  }

  /** After the lore seeding every entry's title is in the table. */
  lemma {:induction false} AddMissingCovers(rows: seq<Artifact>, nextId: nat, entries: seq<Entry>)
    ensures forall e :: e in entries ==> HasTitle(AddMissing(rows, nextId, entries).0, e.title)
    decreases |entries|
  {
    if entries != [] {
      var e0 := entries[0];
      var next := if HasTitle(rows, e0.title) then rows else rows + [Seeded(nextId, e0, None)];
      var nid := if HasTitle(rows, e0.title) then nextId else nextId + 1;
      AddMissingCovers(next, nid, entries[1..]);
      AddMissingExtends(next, nid, entries[1..]);
      var out := AddMissing(rows, nextId, entries).0;
      assert out == AddMissing(next, nid, entries[1..]).0;
      assert out[..|next|] == next;
      assert HasTitle(next, e0.title) by {
        if !HasTitle(rows, e0.title) { assert next[|rows|].title == e0.title; }
      }
      assert HasTitle(out, e0.title) by {
        var k :| 0 <= k < |next| && next[k].title == e0.title;
        assert out[k] == next[k];
      }
      forall e | e in entries ensures HasTitle(out, e.title) {
        if e != e0 { assert e in entries[1..]; }
      }
    }
  }

  /** When every title is already present the lore seeding adds nothing. */
  lemma {:induction false} AddMissingNone(rows: seq<Artifact>, nextId: nat, entries: seq<Entry>)
    requires forall e :: e in entries ==> HasTitle(rows, e.title)
    ensures AddMissing(rows, nextId, entries) == (rows, nextId, 0)
    decreases |entries|
  {
    if entries != [] {
      assert entries[0] in entries;
      forall e | e in entries[1..] ensures HasTitle(rows, e.title) {
        assert e in entries;
      }
      AddMissingNone(rows, nextId, entries[1..]);
    }
  }

  /** A second lore seeding adds nothing and changes nothing. */
  lemma SecondLoreSeedingAddsNothing(rows: seq<Artifact>, nextId: nat)
    ensures var (rows', next', _) := AddMissing(rows, nextId, LoreEntries);
      AddMissing(rows', next', LoreEntries) == (rows', next', 0)
  {
    AddMissingCovers(rows, nextId, LoreEntries);
    var (rows', next', _) := AddMissing(rows, nextId, LoreEntries);
    AddMissingNone(rows', next', LoreEntries);
  }

  const LoreReportHead := "Sanctuary Seeded. Added "
  const LoreReportTail := " new artifacts."

  function LoreReport(count: nat): string {
    LoreReportHead + Text.NatToString(count) + LoreReportTail
  }

  /** The `artifacts` table. */
  class ArchiveStore {
    var rows: seq<Artifact>
    var nextId: nat

    ghost predicate Valid()
      reads this
    {
      forall k :: 0 <= k < |rows| ==> rows[k].id < nextId
    }

    constructor ()
      ensures Valid() && rows == [] && nextId == 0
    {
      rows := [];
      nextId := 0;
    }

    /** One insert; every writer of the table goes through it. */
    method Insert(a: Artifact) returns (id: nat)
      requires Valid() && a.id == nextId
      modifies this
      ensures Valid()
      ensures rows == old(rows) + [a] && nextId == old(nextId) + 1 && id == a.id
    {
      rows := rows + [a];
      id := nextId;
      nextId := nextId + 1;
    }

    method CreateArtifact(title: string, content: string, kind: ArtifactType, keywords: seq<string>, now: int) returns (id: nat)
      requires Valid()
      modifies this
      ensures Valid()
      ensures rows == old(rows) + [Created(old(nextId), title, content, kind, keywords, now)]
      ensures id == old(nextId) && nextId == old(nextId) + 1
    {
      id := Insert(Created(nextId, title, content, kind, keywords, now));
    }

    method AutoArchive(title: string, url: string, kind: ArtifactType, subject: Option<string>, now: int) returns (id: nat)
      requires Valid()
      modifies this
      ensures Valid()
      ensures rows == old(rows) + [Archived(old(nextId), title, url, kind, subject, now)]
      ensures id == old(nextId) && nextId == old(nextId) + 1
    {
      id := Insert(Archived(nextId, title, url, kind, subject, now));
    }

    /** Inserts `entries` in order, each stamped with `now`. */
    method InsertSeeds(entries: seq<Entry>, now: int)
      requires Valid()
      modifies this
      ensures Valid()
      ensures rows == old(rows) + SeedRows(entries, old(nextId), now) && nextId == old(nextId) + |entries|
    {
      var i := 0;
      while i < |entries|
        invariant 0 <= i <= |entries| && Valid()
        invariant rows == old(rows) + SeedRows(entries[..i], old(nextId), now) && nextId == old(nextId) + i
      {
        var _ := Insert(Seeded(nextId, entries[i], Some(now)));
        i := i + 1;
      }
      assert entries[..i] == entries;
    }

    /** `seedArchive`: nothing when the table has any artifact, else the
      eight entries in order. */
    method SeedArchive(now: int) returns (out: SeedOutcome)
      requires Valid()
      modifies this
      ensures Valid()
      ensures old(rows) != [] ==> out == AlreadySeeded && rows == old(rows) && nextId == old(nextId)
      ensures old(rows) == [] ==> out == SeededCount(8) && nextId == old(nextId) + 8
      ensures old(rows) == [] ==> rows == SeedRows(SeedEntries, old(nextId), now)
    {
      if rows != [] {
        return AlreadySeeded;
      }
      InsertSeeds(SeedEntries, now);
      out := SeededCount(|SeedEntries|);
    }

    /** Inserts each of `entries` whose title is not yet in the table, as
      the table grows; `count` is how many it inserted. */
    method AddMissingEntries(entries: seq<Entry>) returns (count: nat)
      requires Valid()
      modifies this
      ensures Valid()
      ensures (rows, nextId, count) == AddMissing(old(rows), old(nextId), entries)
    {
      ghost var target := AddMissing(rows, nextId, entries);
      count := 0;
      var i := 0;
      while i < |entries|
        invariant 0 <= i <= |entries| && Valid()
        invariant count <= target.2
        invariant AddMissing(rows, nextId, entries[i..]) == (target.0, target.1, target.2 - count)
      {
        var entry := entries[i];
        var existing := FindTitle(rows, entry.title);
        AddMissingStep(rows, nextId, entries, i);
        if existing.None? {
          var _ := Insert(Seeded(nextId, entry, None));
          count := count + 1;
        }
        i := i + 1;
      }
    }

    /** `seedSanctuaryLore`: checks each entry's title against the table as
      it grows. */
    method SeedSanctuaryLore() returns (message: string)
      requires Valid()
      modifies this
      ensures Valid()
      ensures var (rows', next', count) := AddMissing(old(rows), old(nextId), LoreEntries);
        rows == rows' && nextId == next' && message == LoreReport(count)
    {
      var count := AddMissingEntries(LoreEntries);
      message := LoreReport(count);
    }
  }
}
