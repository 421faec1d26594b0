/** The Thea Lux content upgrade: the first two transmissions of season 0
    receive their subtitle, summaries, reading time, cover and release date. */
module TheaLux {
  import opened Wrappers
  import Text
  import Seqs
  import Signals

  /** The fixed metadata of one episode. */
  datatype Metadata = Metadata(subtitle: string, summaryShort: string, summaryLong: string, duration: string, coverImage: string)

  const Static := Metadata(
    "The Static",
    "A sealed control room. A system already " + "running. What begins as noise reveals " + "itself as a signal.",
    "The initial transmission from the " + "Sanctuary. We are introduced to the " + "Operator and the anomaly of the open " + "channel. The system is active, but the " + "origin is unknown.",
    "18 min read",
    "https://images.unsplash.com/photo-" + "1626126525134-fbbc0ecb94cb?q=80&w=2670&" + "auto=format&fit=crop")

  const Monitor := Metadata(
    "The Monitor Was Already On",
    "The screen flickers. Someone else has " + "been here. Or they never left.",
    "Discovery of the active terminal " + "traces. Analysis of the logs suggests a " + "presence that predates the current " + "timeline.",
    "12 min read",
    "https://images.unsplash.com/photo-" + "1550684848-fac1c5b4e853?q=80&w=2670&" + "auto=format&fit=crop")

  /** The metadata a signal receives: only season 0, episodes 1 and 2. */
  function MetadataFor(s: Signals.Signal): (m: Option<Metadata>)
    ensures m.Some? <==> s.season == 0 && (s.episode == 1 || s.episode == 2)
  {
    if s.season == 0 && s.episode == 1 then Some(Static)
    else if s.season == 0 && s.episode == 2 then Some(Monitor)
    else None
  }

  /** `publishedAt || Date.now()`. */
  function ReleaseDate(s: Signals.Signal, now: int): int {
    if s.publishedAt.Some? && s.publishedAt.value != 0 then s.publishedAt.value else now
  }

  /** One signal after the upgrade: only the six fields of the patch change,
      and only for a matching signal. */
  function Upgrade(s: Signals.Signal, now: int): (r: Signals.Signal)
    ensures MetadataFor(s).None? ==> r == s
    ensures r.(subtitle := s.subtitle, summaryShort := s.summaryShort, summaryLong := s.summaryLong,
               duration := s.duration, coverImage := s.coverImage, releaseDate := s.releaseDate) == s
    ensures MetadataFor(s).Some? ==>
      var m := MetadataFor(s).value;
      r.subtitle == Some(m.subtitle) && r.summaryShort == Some(m.summaryShort) && r.summaryLong == Some(m.summaryLong) &&
      r.duration == Some(m.duration) && r.coverImage == Some(m.coverImage) && r.releaseDate.Some?
  {
    match MetadataFor(s)
    case None => s
    case Some(m) =>
      s.(subtitle := Some(m.subtitle), summaryShort := Some(m.summaryShort), summaryLong := Some(m.summaryLong),
         duration := Some(m.duration), coverImage := Some(m.coverImage), releaseDate := Some(ReleaseDate(s, now)))
  }

  /** The release date is the publication time when there is one. */
  lemma ReleaseKeepsPublication(s: Signals.Signal, now: int)
    requires MetadataFor(s).Some?
    ensures Upgrade(s, now).releaseDate == Some(if s.publishedAt.Some? && s.publishedAt.value != 0 then s.publishedAt.value else now)
    ensures Upgrade(s, now).publishedAt == s.publishedAt
  {
  }

  /** Upgrading twice at any two times is upgrading once at the first time,
      as long as the signal was published. */
  lemma UpgradeStable(s: Signals.Signal, t1: int, t2: int)
    requires s.publishedAt.Some? && s.publishedAt.value != 0
    ensures Upgrade(Upgrade(s, t1), t2) == Upgrade(s, t1)
  {
  }

  predicate Matches(s: Signals.Signal) { MetadataFor(s).Some? }

  function Report(count: nat): string {
    "Upgraded " + Text.NatToString(count) + " transmissions with Progressive " + "Disclosure metadata."
  }

  /** The table with its first `i` signals upgraded. */
  ghost predicate UpgradedUpTo(rows: seq<Signals.Signal>, table: seq<Signals.Signal>, now: int, i: int) {
    0 <= i <= |table| == |rows| &&
    (forall k :: 0 <= k < i ==> table[k] == Upgrade(rows[k], now)) &&
    (forall k :: i <= k < |table| ==> table[k] == rows[k])
  }

  /** The loop of `upgradeMetadata` over a snapshot of the table. */
  method UpgradeAll(rows: seq<Signals.Signal>, now: int) returns (table: seq<Signals.Signal>, count: nat)
    ensures |table| == |rows|
    ensures forall k :: 0 <= k < |rows| ==> table[k] == Upgrade(rows[k], now)
    ensures count == Seqs.Count(rows, Matches)
  {
    table := rows;
    count := 0;
    var i := 0;
    while i < |table|
      invariant UpgradedUpTo(rows, table, now, i)
      invariant count == Seqs.Count(rows[..i], Matches)
    {
      Seqs.CountStep(rows, Matches, i);
      if MetadataFor(table[i]).Some? {
        table := table[i := Upgrade(table[i], now)];
        count := count + 1;
      }
      i := i + 1;
    }
    assert rows[..i] == rows;
  }

  /** `upgradeMetadata`: one pass over the table patching the matching signals. */
  method UpgradeMetadata(store: Signals.SignalStore, now: int) returns (message: string)
    requires store.Valid()
    modifies store
    ensures store.Valid() && store.nextId == old(store.nextId)
    ensures |store.rows| == |old(store.rows)|
    ensures forall k :: 0 <= k < |store.rows| ==> store.rows[k] == Upgrade(old(store.rows)[k], now)
    ensures message == Report(Seqs.Count(old(store.rows), Matches))
  {
    var table, count := UpgradeAll(store.rows, now);
    assert forall k :: 0 <= k < |table| ==> table[k].id == store.rows[k].id;
    store.rows := table;
    message := Report(count);
  }
}
