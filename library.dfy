/** The reader's library: every signal in season and episode order, each
    with the caller's progress record, and the "hero" signal to read next. */
module Library {
  import opened Wrappers
  import Seqs
  import Signals

  datatype Progress = Progress(userId: string, signalId: nat, isCompleted: Option<bool>)

  datatype Entry = Entry(signal: Signals.Signal, userProgress: Option<Progress>)

  datatype LibraryState = LibraryState(heroSignal: Option<Entry>, signals: seq<Entry>)

  /** The signals in season, then episode order; the sort is stable. */
  function Sorted(signals: seq<Signals.Signal>): (r: seq<Signals.Signal>)
    ensures multiset(r) == multiset(signals) && |r| == |signals|
    ensures forall i, j :: 0 <= i < j < |r| ==> Seqs.KeyLe(Signals.SeasonEpisode(r[i]), Signals.SeasonEpisode(r[j]))
  {
    Seqs.SortBy(signals, Signals.SeasonEpisode)
  }

  /** The signals as the library reads them: collected from the season and
      episode index, newest first, then sorted into reading order. */
  function ReadingOrder(rows: seq<Signals.Signal>): (r: seq<Signals.Signal>)
    ensures multiset(r) == multiset(rows)
  {
    Sorted(Signals.ListSignals(rows))
  }

  /** Reading order holds every signal once, by season, then episode. */
  lemma ReadingOrderSorted(rows: seq<Signals.Signal>)
    ensures multiset(ReadingOrder(rows)) == multiset(rows)
    ensures forall i, j :: 0 <= i < j < |ReadingOrder(rows)| ==>
      Seqs.KeyLe(Signals.SeasonEpisode(ReadingOrder(rows)[i]), Signals.SeasonEpisode(ReadingOrder(rows)[j]))
  {
  }

  /** The map the loop over the caller's records builds: a later record for
      the same signal replaces an earlier one. */
  function ProgressMap(records: seq<Progress>): (r: map<nat, Progress>)
    ensures forall id :: id in r ==> r[id].signalId == id && r[id] in records
  {
    if records == [] then map[]
    else ProgressMap(records[..|records| - 1])[records[|records| - 1].signalId := records[|records| - 1]]
  }

  /** Record `k` is the last one naming signal `id`. */
  predicate IsLast(records: seq<Progress>, k: int, id: nat) {
    0 <= k < |records| && records[k].signalId == id && forall k' :: k < k' < |records| ==> records[k'].signalId != id
  }

  /** The map holds a record for exactly the signals some record names. */
  lemma {:induction false} ProgressMapKeys(records: seq<Progress>)
    ensures forall id :: id in ProgressMap(records) <==> exists k :: 0 <= k < |records| && records[k].signalId == id
  {
    if records != [] {
      var init := records[..|records| - 1];
      ProgressMapKeys(init);
      forall id ensures id in ProgressMap(records) <==> exists k :: 0 <= k < |records| && records[k].signalId == id {
        if id in ProgressMap(init) {
          var k :| 0 <= k < |init| && init[k].signalId == id;
          assert records[k] == init[k];
        }
        if exists k :: 0 <= k < |records| && records[k].signalId == id {
          var k :| 0 <= k < |records| && records[k].signalId == id;
          if k < |init| { assert init[k] == records[k]; }
        }
      }
    }
  }

  /** The record the map holds for a signal is the last record naming it. */
  lemma {:induction false} ProgressMapLast(records: seq<Progress>)
    ensures forall id :: id in ProgressMap(records) ==>
      exists k :: IsLast(records, k, id) && records[k] == ProgressMap(records)[id]
  {
    if records != [] {
      var init := records[..|records| - 1];
      var last := records[|records| - 1];
      ProgressMapLast(init);
      forall id | id in ProgressMap(records)
        ensures exists k :: IsLast(records, k, id) && records[k] == ProgressMap(records)[id]
      {
        if id == last.signalId {
          assert IsLast(records, |records| - 1, id);
        } else {
          assert id in ProgressMap(init);
          var k :| IsLast(init, k, id) && init[k] == ProgressMap(init)[id];
          assert records[k] == init[k];
          forall k' | k < k' < |records| ensures records[k'].signalId != id {
            if k' < |init| { assert records[k'] == init[k']; }
          }
          assert IsLast(records, k, id);
        }
      }
    }
  }

  /** The map holds a record for exactly the signals some record names, and
      it is the last record naming that signal. */
  lemma ProgressMapLastWins(records: seq<Progress>)
    ensures forall id :: id in ProgressMap(records) <==> exists k :: 0 <= k < |records| && records[k].signalId == id
    ensures forall id :: id in ProgressMap(records) ==>
      exists k :: IsLast(records, k, id) && records[k] == ProgressMap(records)[id]
  {
    ProgressMapKeys(records);
    ProgressMapLast(records);
  }

  /** `progress?.isCompleted ?? false`. */
  predicate Completed(progress: map<nat, Progress>, s: Signals.Signal) {
    s.id in progress && progress[s.id].isCompleted == Some(true)
  }

  /** The hero: the first signal not completed, else the last signal, else none. */
  function HeroIndex(sorted: seq<Signals.Signal>, progress: map<nat, Progress>): (r: Option<nat>)
    ensures r.Some? ==> r.value < |sorted|
    ensures sorted == [] <==> r.None?
    ensures r.Some? && !Completed(progress, sorted[r.value]) ==>
      forall k :: 0 <= k < r.value ==> Completed(progress, sorted[k])
    ensures r.Some? && Completed(progress, sorted[r.value]) ==>
      r.value == |sorted| - 1 && forall k :: 0 <= k < |sorted| ==> Completed(progress, sorted[k])
  {
    match Seqs.FirstIndex(sorted, (s: Signals.Signal) => !Completed(progress, s))
    case Some(i) => Some(i)
    case None => if sorted == [] then None else Some(|sorted| - 1)
  }

  /** The caller's progress records: those of the token identifier when
      signed in, none for a guest (whose token identifier is absent or empty). */
  function RecordsOf(table: seq<Progress>, tokenIdentifier: Option<string>): seq<Progress> {
    if tokenIdentifier.None? || tokenIdentifier.value == "" then []
    else Seqs.Filter(table, (p: Progress) => p.userId == tokenIdentifier.value)
  }

  /** `userProgressMap.get(id) || null`. */
  function Lookup(progress: map<nat, Progress>, id: nat): Option<Progress> {
    if id in progress then Some(progress[id]) else None
  }

  /** The loop filling the map from the caller's records. */
  method FillProgress(records: seq<Progress>) returns (m: map<nat, Progress>)
    ensures m == ProgressMap(records)
  {
    m := map[];
    var i := 0;
    while i < |records|
      invariant 0 <= i <= |records|
      invariant m == ProgressMap(records[..i])
    {
      assert records[..i + 1][..i] == records[..i];
      m := m[records[i].signalId := records[i]];
      i := i + 1;
    }
    assert records[..i] == records;
  }

  /** The loop looking for the hero, then the fallback to the last signal. */
  method FindHero(sorted: seq<Signals.Signal>, progress: map<nat, Progress>) returns (hero: Option<nat>)
    ensures hero == HeroIndex(sorted, progress)
  {
    hero := None;
    var i := 0;
    while i < |sorted|
      invariant 0 <= i <= |sorted|
      invariant forall k :: 0 <= k < i ==> Completed(progress, sorted[k])
    {
      var isCompleted := sorted[i].id in progress && progress[sorted[i].id].isCompleted == Some(true);
      if !isCompleted {
        hero := Some(i);
        break;
      }
      i := i + 1;
    }
    if hero.None? && |sorted| > 0 {
      hero := Some(|sorted| - 1);
    }
    var p := (s: Signals.Signal) => !Completed(progress, s);
    assert hero.Some? && !Completed(progress, sorted[hero.value]) ==> Seqs.FirstIndex(sorted, p) == hero;
    assert hero.None? || Completed(progress, sorted[hero.value]) ==> Seqs.FirstIndex(sorted, p).None?;
  }

  /** The entries in order and the hero among them. */
  predicate StateFor(state: LibraryState, sorted: seq<Signals.Signal>, progress: map<nat, Progress>)
    ensures StateFor(state, sorted, progress) ==>
      (state.heroSignal.Some? <==> sorted != []) &&
      (state.heroSignal.Some? ==> state.heroSignal.value in state.signals)
  {
    |state.signals| == |sorted| &&
    (forall k :: 0 <= k < |sorted| ==> state.signals[k] == Entry(sorted[k], Lookup(progress, sorted[k].id))) &&
    (match HeroIndex(sorted, progress)
     case None => state.heroSignal.None?
     case Some(h) => state.heroSignal == Some(state.signals[h]))
  }

  /** The result assembled once the order and the progress are known. */
  method Assemble(sorted: seq<Signals.Signal>, progress: map<nat, Progress>) returns (state: LibraryState)
    ensures StateFor(state, sorted, progress)
  {
    var hero := FindHero(sorted, progress);
    var entries := seq(|sorted|, k requires 0 <= k < |sorted| => Entry(sorted[k], Lookup(progress, sorted[k].id)));
    state := LibraryState(if hero.Some? then Some(entries[hero.value]) else None, entries);
  }

  /** `getLibraryState` over the signals and progress tables. */
  method GetLibraryState(rows: seq<Signals.Signal>, table: seq<Progress>, tokenIdentifier: Option<string>)
    returns (state: LibraryState)
    ensures var sorted := ReadingOrder(rows);
      var progress := ProgressMap(RecordsOf(table, tokenIdentifier));
      |state.signals| == |sorted| &&
      (forall k :: 0 <= k < |sorted| ==> state.signals[k] == Entry(sorted[k], Lookup(progress, sorted[k].id))) &&
      (match HeroIndex(sorted, progress)
       case None => state.heroSignal.None?
       case Some(h) => state.heroSignal == Some(state.signals[h]))
  {
    var sorted := ReadingOrder(rows);
    var progress: map<nat, Progress> := map[];
    if tokenIdentifier.Some? && tokenIdentifier.value != "" {
      progress := FillProgress(RecordsOf(table, tokenIdentifier));
    }
    state := Assemble(sorted, progress);
  }

  /** Without identity the hero is the first signal in order, and no entry
      carries progress. */
  lemma GuestLibrary(rows: seq<Signals.Signal>, table: seq<Progress>)
    requires rows != []
    ensures HeroIndex(ReadingOrder(rows), ProgressMap(RecordsOf(table, None))) == Some(0)
    ensures forall id :: Lookup(ProgressMap(RecordsOf(table, None)), id).None?
  {
  }
}
