/** The maintenance mutation that lowercases the status "Published" written
    by older versions of the importer. */
module Debug {
  import Seqs
  import Text
  import Content

  predicate Miscased(r: Content.Reveal) { r.status == "Published" }

  /** One reveal after the fix: only the miscased status changes. */
  function FixCasing(r: Content.Reveal): (f: Content.Reveal)
    ensures Miscased(r) ==> f == r.(status := "published")
    ensures !Miscased(r) ==> f == r
  {
    if Miscased(r) then r.(status := "published") else r
  }

  /** After the fix no reveal is miscased, a second fix changes nothing, and
      every other field, the id included, is kept. */
  lemma FixCasingIdempotent(r: Content.Reveal)
    ensures !Miscased(FixCasing(r))
    ensures FixCasing(FixCasing(r)) == FixCasing(r)
    ensures FixCasing(r).(status := r.status) == r
  {
  }

  /** A second pass over a fixed table finds nothing to fix. */
  lemma SecondFixFindsNothing(rows: seq<Content.Reveal>, table: seq<Content.Reveal>)
    requires |table| == |rows| && forall k :: 0 <= k < |rows| ==> table[k] == FixCasing(rows[k])
    ensures Seqs.Count(table, Miscased) == 0
    ensures forall k :: 0 <= k < |table| ==> FixCasing(table[k]) == table[k]
  {
    Seqs.CountNone(table, Miscased);
  }

  function Report(processed: nat, fixed: nat): string {
    "Processed " + Text.NatToString(processed) + " reveals. Fixed " + Text.NatToString(fixed) + " casing issues."
  }

  /** The table with its first `i` reveals fixed. */
  ghost predicate FixedUpTo(rows: seq<Content.Reveal>, table: seq<Content.Reveal>, i: int) {
    0 <= i <= |table| == |rows| &&
    (forall k :: 0 <= k < i ==> table[k] == FixCasing(rows[k])) &&
    (forall k :: i <= k < |table| ==> table[k] == rows[k])
  }

  /** The loop of `fixStatusCasing` over a snapshot of the table. */
  method FixAll(rows: seq<Content.Reveal>) returns (table: seq<Content.Reveal>, fixed: nat)
    ensures |table| == |rows|
    ensures forall k :: 0 <= k < |rows| ==> table[k] == FixCasing(rows[k])
    ensures fixed == Seqs.Count(rows, Miscased)
  {
    table := rows;
    fixed := 0;
    var i := 0;
    while i < |table|
      invariant FixedUpTo(rows, table, i)
      invariant fixed == Seqs.Count(rows[..i], Miscased)
    {
      Seqs.CountStep(rows, Miscased, i);
      if Miscased(table[i]) {
        table := table[i := FixCasing(table[i])];
        fixed := fixed + 1;
      }
      i := i + 1;
    }
    assert rows[..i] == rows;
  }

  /** `fixStatusCasing`: patches every miscased reveal and reports how many
      reveals it read and how many it fixed. */
  method FixStatusCasing(store: Content.ContentStore) returns (message: string)
    requires store.Valid()
    modifies store
    ensures store.Valid()
    ensures store.State() == old(store.State()).(revealRows := store.revealRows)
    ensures |store.revealRows| == |old(store.revealRows)|
    ensures forall k :: 0 <= k < |store.revealRows| ==> store.revealRows[k] == FixCasing(old(store.revealRows)[k])
    ensures message == Report(|old(store.revealRows)|, Seqs.Count(old(store.revealRows), Miscased))
  {
    var table, fixed := FixAll(store.revealRows);
    assert forall k :: 0 <= k < |table| ==> table[k].id == store.revealRows[k].id;
    message := Report(|store.revealRows|, fixed);
    store.revealRows := table;
  }
}
