/** The `signals` table of the studio: transmissions keyed by id, upserted
    by id or by slug, listed by season and episode, and repaired when their
    slug is missing. */
module Signals {
  import opened Wrappers
  import Seqs
  import Slugs
  import Text

  datatype Signal = Signal(
    id: nat,
    title: string,
    slug: string,
    season: int,
    episode: int,
    content: string,
    isLocked: bool,
    glitchPoint: Option<int>,
    publishedAt: Option<int>,
    subtitle: Option<string>,
    summaryShort: Option<string>,
    summaryLong: Option<string>,
    duration: Option<string>,
    coverImage: Option<string>,
    releaseDate: Option<int>)

  /** The fields `publishSignal` writes. */
  datatype Draft = Draft(
    title: string,
    slug: string,
    season: int,
    episode: int,
    content: string,
    isLocked: bool,
    glitchPoint: Option<int>)

  const Nonexistent := "Nonexistent document"

  /** The patch of `publishSignal`: all the draft's fields and the time;
      an omitted glitch point is unset. */
  function Apply(s: Signal, d: Draft, now: int): Signal {
    s.(title := d.title, slug := d.slug, season := d.season, episode := d.episode, content := d.content,
       isLocked := d.isLocked, glitchPoint := d.glitchPoint, publishedAt := Some(now))
  }

  function Inserted(id: nat, d: Draft, now: int): Signal {
    Signal(id, d.title, d.slug, d.season, d.episode, d.content, d.isLocked, d.glitchPoint, Some(now),
      None, None, None, None, None, None)
  }

  function IndexOfId(rows: seq<Signal>, id: nat): Option<nat> {
    Seqs.FirstIndex(rows, (s: Signal) => s.id == id)
  }

  function IndexOfSlug(rows: seq<Signal>, slug: string): Option<nat> {
    Seqs.FirstIndex(rows, (s: Signal) => s.slug == slug)
  }

  /** `publishSignal`: patch the given id, else the first signal with the
      draft's slug, else insert. Patching a missing id throws. */
  function Publish(rows: seq<Signal>, nextId: nat, id: Option<nat>, d: Draft, now: int): (r: Result<(seq<Signal>, nat)>)
    ensures r.Failure? ==> id.Some?
    ensures r.Success? ==>
      |rows| <= |r.value.0| <= |rows| + 1 &&
      (|r.value.0| == |rows| + 1 <==> r.value.1 == nextId && id.None? && forall k :: 0 <= k < |rows| ==> rows[k].slug != d.slug)
  {
    if id.Some? then
      match IndexOfId(rows, id.value)
      case None => Failure(Nonexistent)
      case Some(i) => Success((rows[i := Apply(rows[i], d, now)], id.value))
    else
      match IndexOfSlug(rows, d.slug)
      case Some(i) => Success((rows[i := Apply(rows[i], d, now)], rows[i].id))
      case None => Success((rows + [Inserted(nextId, d, now)], nextId))
  }

  /** The outcomes of a publish: with an id, that record is patched and the
      id returned; without one, a signal with the same slug is patched in
      place and no record is added; otherwise exactly one is inserted. Every
      publish stamps `publishedAt` with the time. */
  lemma PublishUpserts(rows: seq<Signal>, nextId: nat, id: Option<nat>, d: Draft, now: int)
    ensures var res := Publish(rows, nextId, id, d, now);
      (res.Failure? <==> id.Some? && forall k :: 0 <= k < |rows| ==> rows[k].id != id.value) &&
      (res.Success? ==>
        var (rows', out) := res.value;
        (id.Some? ==> out == id.value) &&
        (id.None? && (exists k :: 0 <= k < |rows| && rows[k].slug == d.slug) ==>
          |rows'| == |rows| && exists k :: 0 <= k < |rows| && rows[k].slug == d.slug && rows[k].id == out) &&
        (id.None? && (forall k :: 0 <= k < |rows| ==> rows[k].slug != d.slug) ==>
          rows' == rows + [Inserted(nextId, d, now)] && out == nextId) &&
        exists k :: 0 <= k < |rows'| && rows'[k].id == out && rows'[k].publishedAt == Some(now) &&
          rows'[k] == Apply(rows'[k], d, now))
  {
    var res := Publish(rows, nextId, id, d, now);
    if res.Success? {
      var (rows', out) := res.value;
      if id.Some? {
        var i := IndexOfId(rows, id.value).value;
        assert rows'[i].id == out;
      } else if IndexOfSlug(rows, d.slug).Some? {
        var i := IndexOfSlug(rows, d.slug).value;
        assert rows'[i].id == out;
      } else {
        assert rows'[|rows|].id == out;
      }
    }
  }

  /** A publish touches no other record. */
  lemma PublishKeepsOthers(rows: seq<Signal>, nextId: nat, id: Option<nat>, d: Draft, now: int)
    requires Publish(rows, nextId, id, d, now).Success?
    ensures var (rows', out) := Publish(rows, nextId, id, d, now).value;
      |rows'| >= |rows| &&
      forall k :: 0 <= k < |rows| && rows[k].id != out ==> rows'[k] == rows[k]
  {
  }

  /** `deleteSignal`: removes exactly that record; a missing one throws. */
  function Delete(rows: seq<Signal>, id: nat): (r: Result<seq<Signal>>)
    ensures r.Failure? <==> forall k :: 0 <= k < |rows| ==> rows[k].id != id
    ensures r.Success? ==> exists i :: 0 <= i < |rows| && rows[i].id == id && r.value == Seqs.RemoveAt(rows, i)
  {
    match IndexOfId(rows, id)
    case None => Failure(Nonexistent)
    case Some(i) => Success(Seqs.RemoveAt(rows, i))
  }

  /** Every id is below the next one to be handed out, and no two signals
      share an id. */
  predicate WellFormed(rows: seq<Signal>, nextId: nat) {
    (forall i :: 0 <= i < |rows| ==> rows[i].id < nextId) &&
    (forall i, j :: 0 <= i < j < |rows| ==> rows[i].id != rows[j].id)
  }

  /** A publish keeps the ids unique, drawing a new one only when it inserts. */
  lemma PublishKeepsWellFormed(rows: seq<Signal>, nextId: nat, id: Option<nat>, d: Draft, now: int)
    requires WellFormed(rows, nextId) && Publish(rows, nextId, id, d, now).Success?
    ensures var (rows', _) := Publish(rows, nextId, id, d, now).value;
      WellFormed(rows', if |rows'| > |rows| then nextId + 1 else nextId)
  {
    var (rows', _) := Publish(rows, nextId, id, d, now).value;
    var n := if |rows'| > |rows| then nextId + 1 else nextId;
    assert forall k :: 0 <= k < |rows| ==> rows'[k].id == rows[k].id;
    assert |rows'| > |rows| ==> rows'[|rows|].id == nextId;
  }

  /** With unique ids, a delete leaves no signal with that id and keeps
      every other signal. */
  lemma DeleteRemovesOnly(rows: seq<Signal>, nextId: nat, id: nat)
    requires WellFormed(rows, nextId) && Delete(rows, id).Success?
    ensures var rows' := Delete(rows, id).value;
      WellFormed(rows', nextId) &&
      (forall k :: 0 <= k < |rows'| ==> rows'[k].id != id) &&
      (forall k :: 0 <= k < |rows| && rows[k].id != id ==> rows[k] in rows')
  {
    var i := IndexOfId(rows, id).value;
    var rows' := Delete(rows, id).value;
    assert rows' == Seqs.RemoveAt(rows, i) && rows[i].id == id;
    forall a, b | 0 <= a < b < |rows'| ensures rows'[a].id != rows'[b].id {
      var a' := if a < i then a else a + 1;
      var b' := if b < i then b else b + 1;
      assert rows'[a] == rows[a'] && rows'[b] == rows[b'];
    }
    forall k | 0 <= k < |rows'| ensures rows'[k].id != id {
      var k' := if k < i then k else k + 1;
      assert rows'[k] == rows[k'] && k' != i;
    }
    forall k | 0 <= k < |rows| && rows[k].id != id ensures rows[k] in rows' {
      var k' := if k < i then k else k - 1;
      assert rows'[k'] == rows[k];
    }
  }

  function SeasonEpisode(s: Signal): (int, int) { (s.season, s.episode) }

  /** `listSignals`: the `by_season_episode` index read descending. The
      index orders by season, then episode, then insertion. */
  function ListSignals(rows: seq<Signal>): (r: seq<Signal>)
    ensures multiset(r) == multiset(rows)
    ensures forall i, j :: 0 <= i < j < |r| ==> Seqs.KeyLe(SeasonEpisode(r[j]), SeasonEpisode(r[i]))
  {
    var asc := Seqs.SortBy(rows, SeasonEpisode);
    Seqs.ReverseMultiset(asc);
    Seqs.Reverse(asc)
  }

  /** The slug `repairSlugs` writes: never empty, and ending in the title's
      slug. */
  function RepairedSlug(s: Signal): (r: string)
    ensures |r| > |Slugs.GenerateSlug(s.title)|
    ensures r[|r| - |Slugs.GenerateSlug(s.title)|..] == Slugs.GenerateSlug(s.title)
  {
    Slugs.SignalSlug(s.season, s.episode, s.title)
  }

  /** `repairSlugs` on one signal: only a falsy slug is rewritten. */
  function Repair(s: Signal): (r: Signal)
    ensures r.slug != "" ==> r.(slug := s.slug) == s
    ensures s.slug != "" ==> r == s
  {
    if s.slug == "" then s.(slug := RepairedSlug(s)) else s
  }

  predicate MissingSlug(s: Signal) { s.slug == "" }

  function RepairReport(count: nat): string {
    "Repaired " + Text.NatToString(count) + " signals with missing slugs."
  }

  /** Repaired signals have a slug, whose title part is a well-formed slug,
      so a second repair changes nothing. */
  lemma RepairIdempotent(s: Signal)
    ensures Repair(s).slug != ""
    ensures Repair(Repair(s)) == Repair(s)
    ensures s.slug == "" ==> var t := Repair(s).slug; Slugs.IsSlug(t[|t| - |Slugs.GenerateSlug(s.title)|..])
  {
    var t := Repair(s).slug;
    if s.slug == "" {
      var g := Slugs.GenerateSlug(s.title);
      var p := Slugs.Pad3(s.season) + "-" + Slugs.Pad3(s.episode) + "-";
      assert t == p + g;
      assert t[|t| - |g|..] == g;
    }
  }

  /** The table with its first `i` signals repaired. */
  ghost predicate RepairedUpTo(rows: seq<Signal>, table: seq<Signal>, i: int) {
    0 <= i <= |table| == |rows| &&
    (forall k :: 0 <= k < i ==> table[k] == Repair(rows[k])) &&
    (forall k :: i <= k < |table| ==> table[k] == rows[k])
  }

  /** The loop of `repairSlugs` over a snapshot of the table: it repairs
      each signal in turn and counts those whose slug was missing. */
  method RepairAll(rows: seq<Signal>) returns (table: seq<Signal>, count: nat)
    ensures |table| == |rows|
    ensures forall k :: 0 <= k < |rows| ==> table[k] == Repair(rows[k])
    ensures count == Seqs.Count(rows, MissingSlug)
  {
    table := rows;
    count := 0;
    var i := 0;
    while i < |table|
      invariant RepairedUpTo(rows, table, i)
      invariant count == Seqs.Count(rows[..i], MissingSlug)
    {
      Seqs.CountStep(rows, MissingSlug, i);
      var s := table[i];
      if MissingSlug(s) {
        table := table[i := Repair(s)];
        count := count + 1;
      }
      i := i + 1;
    }
    assert rows[..i] == rows;
  }

  /** The `signals` table. */
  class SignalStore {
    var rows: seq<Signal>
    var nextId: nat

    ghost predicate Valid()
      reads this
    {
      WellFormed(rows, nextId)
    }

    constructor ()
      ensures Valid() && rows == [] && nextId == 0
    {
      rows := [];
      nextId := 0;
    }

    method PublishSignal(id: Option<nat>, d: Draft, now: int) returns (res: Result<nat>)
      requires Valid()
      modifies this
      ensures Valid()
      ensures match Publish(old(rows), old(nextId), id, d, now)
        case Failure(e) => res == Failure(e) && rows == old(rows) && nextId == old(nextId)
        case Success((rows', out)) =>
          res == Success(out) && rows == rows' &&
          nextId == if |rows'| > |old(rows)| then old(nextId) + 1 else old(nextId)
    {
      if Publish(rows, nextId, id, d, now).Success? {
        PublishKeepsWellFormed(rows, nextId, id, d, now);
      }
      if id.Some? {
        var i := IndexOfId(rows, id.value);
        if i.None? {
          return Failure(Nonexistent);
        }
        rows := rows[i.value := Apply(rows[i.value], d, now)];
        return Success(id.value);
      }
      var existing := IndexOfSlug(rows, d.slug);
      if existing.Some? {
        var i := existing.value;
        res := Success(rows[i].id);
        rows := rows[i := Apply(rows[i], d, now)];
      } else {
        rows := rows + [Inserted(nextId, d, now)];
        res := Success(nextId);
        nextId := nextId + 1;
      }
    }

    method DeleteSignal(id: nat) returns (res: Result<()>)
      requires Valid()
      modifies this
      ensures Valid() && nextId == old(nextId)
      ensures match Delete(old(rows), id)
        case Failure(e) => res == Failure(e) && rows == old(rows)
        case Success(rows') => res == Success(()) && rows == rows'
    {
      match Delete(rows, id)
      case Failure(e) =>
        res := Failure(e);
      case Success(rows') =>
        DeleteRemovesOnly(rows, nextId, id);
        rows := rows';
        res := Success(());
    }

    /** `repairSlugs`: one pass over the table, patching every signal whose
      slug is falsy and counting them. */
    method RepairSlugs() returns (message: string)
      requires Valid()
      modifies this
      ensures Valid() && nextId == old(nextId)
      ensures |rows| == |old(rows)|
      ensures forall k :: 0 <= k < |rows| ==> rows[k] == Repair(old(rows)[k])
      ensures message == RepairReport(Seqs.Count(old(rows), MissingSlug))
    {
      var table, count := RepairAll(rows);
      rows := table;
      message := RepairReport(count);
    }
  }
}
