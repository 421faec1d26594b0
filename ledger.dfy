/** The append-only spending ledger: entries are inserted by `logSpend`,
    stamped by `signEntry` and read back newest first. Amounts are kept as
    exact decimals. */
module Ledger {
  import opened Wrappers
  import Seqs
  import RoomState

  /** An optional string argument as it reaches the server: left out,
      passed as `null`, or passed as a string. The store's `v.optional`
      validator accepts the first and the last only. */
  datatype Arg = Omitted | NullArg | Passed(s: string)

  datatype LogSpendArgs = LogSpendArgs(
    amountGBP: real,
    allocation: string,
    merchant: Arg,
    date: string,
    scanId: Arg,
    verifiedBy: Arg)

  datatype Entry = Entry(
    id: nat,
    userId: string,
    amountGBP: real,
    allocation: string,
    merchant: string,
    date: string,
    scanId: Option<string>,
    verifiedBy: string,
    createdAt: int,
    signedAt: Option<int>,
    signedBy: Option<string>)

  datatype Stamp = Stamp(signedAt: int, signedBy: string)

  const ValidationError := "ArgumentValidationError"

  /** `args.x ?? dflt` after validation. */
  function OrDefault(a: Arg, dflt: string): string
    requires !a.NullArg?
  {
    if a.Passed? then a.s else dflt
  }

  function OptionOf(a: Arg): Option<string>
    requires !a.NullArg?
  {
    if a.Passed? then Some(a.s) else None
  }

  predicate ValidArgs(args: LogSpendArgs) {
    !args.merchant.NullArg? && !args.scanId.NullArg? && !args.verifiedBy.NullArg?
  }

  /** The entry `logSpend` stores. */
  function NewEntry(id: nat, userId: string, args: LogSpendArgs, now: int): Entry
    requires ValidArgs(args)
  {
    Entry(id, userId, args.amountGBP, args.allocation, OrDefault(args.merchant, "UNKNOWN VENDOR"), args.date,
      OptionOf(args.scanId), OrDefault(args.verifiedBy, "Julian"), now, None, None)
  }

  /** `logSpend` on the table: one insert, or a validation failure that
      writes nothing. */
  function AppendSpend(rows: seq<Entry>, nextId: nat, identity: Option<string>, args: LogSpendArgs, now: int)
    : (r: Result<(seq<Entry>, nat)>)
    ensures r.Failure? <==> !ValidArgs(args)
    ensures r.Success? ==> |r.value.0| == |rows| + 1 && r.value.0[..|rows|] == rows && r.value.0[|rows|].id == r.value.1
  {
    if !ValidArgs(args) then Failure(ValidationError)
    else Success((rows + [NewEntry(nextId, RoomState.UserOf(identity), args, now)], nextId))
  }

  /** `logSpend` appends exactly one entry, returns its id, stores the given
      fields and applies the guest, vendor and verifier defaults; a `null`
      optional argument is refused. */
  lemma LogSpendInserts(rows: seq<Entry>, nextId: nat, identity: Option<string>, args: LogSpendArgs, now: int)
    ensures var res := AppendSpend(rows, nextId, identity, args, now);
      (res.Failure? <==> args.merchant == NullArg || args.scanId == NullArg || args.verifiedBy == NullArg) &&
      (res.Success? ==>
        var (rows', id) := res.value;
        id == nextId && |rows'| == |rows| + 1 && rows'[..|rows|] == rows &&
        var e := rows'[|rows|];
        e.id == id && e.amountGBP == args.amountGBP && e.allocation == args.allocation &&
        e.date == args.date && e.createdAt == now && e.signedAt.None? &&
        e.userId == RoomState.UserOf(identity) &&
        e.merchant == (if args.merchant == Omitted then "UNKNOWN VENDOR" else args.merchant.s) &&
        e.verifiedBy == (if args.verifiedBy == Omitted then "Julian" else args.verifiedBy.s) &&
        (e.scanId.Some? <==> args.scanId.Passed?))
  {
    if ValidArgs(args) {
      var rows' := rows + [NewEntry(nextId, RoomState.UserOf(identity), args, now)];
      assert rows'[..|rows|] == rows;
    }
  }

  function IndexOfId(rows: seq<Entry>, id: nat): Option<nat> {
    Seqs.FirstIndex(rows, (e: Entry) => e.id == id)
  }

  /** `signEntry`: the entry gets the caller and the time as its stamp,
      overwriting any earlier one; a missing entry makes the patch throw. */
  function Sign(rows: seq<Entry>, identity: Option<string>, entryId: nat, now: int): (r: Result<(seq<Entry>, Stamp)>)
    ensures r.Failure? <==> forall k :: 0 <= k < |rows| ==> rows[k].id != entryId
    ensures r.Success? ==> |r.value.0| == |rows| && forall k :: 0 <= k < |rows| ==> r.value.0[k].id == rows[k].id
  {
    match IndexOfId(rows, entryId)
    case None => Failure("Nonexistent document")
    case Some(i) =>
      var user := RoomState.UserOf(identity);
      Success((rows[i := rows[i].(signedAt := Some(now), signedBy := Some(user))], Stamp(now, user)))
  }

  /** Signing changes only the two stamp fields of that one entry and returns
      exactly the stored stamp, even when the entry was already signed. */
  lemma SignEntryStamps(rows: seq<Entry>, identity: Option<string>, entryId: nat, now: int)
    ensures var res := Sign(rows, identity, entryId, now);
      (res.Failure? <==> forall k :: 0 <= k < |rows| ==> rows[k].id != entryId) &&
      (res.Success? ==>
        var (rows', stamp) := res.value;
        |rows'| == |rows| &&
        stamp == Stamp(now, RoomState.UserOf(identity)) &&
        forall k :: 0 <= k < |rows| ==>
          if k == IndexOfId(rows, entryId).value
          then rows'[k] == rows[k].(signedAt := Some(stamp.signedAt), signedBy := Some(stamp.signedBy))
          else rows'[k] == rows[k])
  {
  }

  /** A second signature replaces the first: the stored stamp is the last. */
  lemma ResignOverwrites(rows: seq<Entry>, a: Option<string>, b: Option<string>, entryId: nat, t1: int, t2: int)
    requires Sign(rows, a, entryId, t1).Success?
    ensures var rows1 := Sign(rows, a, entryId, t1).value.0;
      var res := Sign(rows1, b, entryId, t2);
      res.Success? && res.value.0 == Sign(rows, b, entryId, t2).value.0
  {
    var i := IndexOfId(rows, entryId).value;
    var rows1 := Sign(rows, a, entryId, t1).value.0;
    assert forall k :: 0 <= k < |rows| ==> rows1[k].id == rows[k].id;
    assert IndexOfId(rows1, entryId) == Some(i);
  }

  function OwnedBy(user: string): Entry -> bool {
    (e: Entry) => e.userId == user
  }

  /** `getRecentAllocations`: nothing when signed out; otherwise the caller's
      entries, keyed by the subject itself, newest first, at most `limit`. */
  function RecentAllocations(rows: seq<Entry>, identity: Option<string>, limit: nat): (r: seq<Entry>)
    ensures identity.None? ==> r == []
    ensures |r| <= limit
    ensures identity.Some? ==> forall k :: 0 <= k < |r| ==> r[k] in rows && r[k].userId == identity.value
    ensures identity.Some? ==> var n := |Seqs.Filter(rows, OwnedBy(identity.value))|;
      |r| == if limit < n then limit else n
  {
    if identity.None? then []
    else
      var mine := Seqs.Filter(rows, OwnedBy(identity.value));
      assert forall k :: 0 <= k < |mine| ==> OwnedBy(identity.value)(mine[k]);
      Seqs.Take(Seqs.Reverse(mine), limit)
  }

  /** The first `limit` of a reversed increasing run decrease. */
  lemma NewestDecreasing(mine: seq<Entry>, limit: nat)
    requires IdsIncrease(mine)
    ensures var r := Seqs.Take(Seqs.Reverse(mine), limit);
      forall k :: 0 <= k < |r| - 1 ==> r[k].id > r[k + 1].id
  {
    var newest := Seqs.Reverse(mine);
    var r := Seqs.Take(newest, limit);
    forall k | 0 <= k < |r| - 1 ensures r[k].id > r[k + 1].id {
      assert r[k] == newest[k] && r[k + 1] == newest[k + 1];
      assert newest[k] == mine[|mine| - 1 - k] && newest[k + 1] == mine[|mine| - 2 - k];
    }
  }

  predicate Older(a: Entry, b: Entry) { a.id < b.id }

  /** Given that ids grow with creation, the result is the caller's newest
      entries: as many as the limit allows, newest first, and every entry of
      the caller left out is older than every entry returned. */
  lemma RecentAllocationsNewestFirst(rows: seq<Entry>, identity: Option<string>, limit: nat)
    requires IdsIncrease(rows)
    ensures var r := RecentAllocations(rows, identity, limit);
      forall k :: 0 <= k < |r| - 1 ==> r[k].id > r[k + 1].id
    ensures identity.Some? ==>
      var mine := Seqs.Filter(rows, OwnedBy(identity.value));
      var r := RecentAllocations(rows, identity, limit);
      |r| == (if limit < |mine| then limit else |mine|) &&
      multiset(r) <= multiset(mine) &&
      forall e, x :: e in mine && e !in r && x in r ==> e.id < x.id
  {
    if identity.Some? {
      var mine := Seqs.Filter(rows, OwnedBy(identity.value));
      var r := RecentAllocations(rows, identity, limit);
      assert r == Seqs.Take(Seqs.Reverse(mine), limit);
      FilterKeepsOrder(rows, OwnedBy(identity.value));
      NewestDecreasing(mine, limit);
      Seqs.TakeReverseKeepsLast(mine, limit, Older);
      forall e, x | e in mine && e !in r && x in r ensures e.id < x.id {
        assert Older(e, x);
      }
    }
  }

  /** With a positive limit the caller's newest entry comes first, and the
      result is empty only when the caller has no entry. */
  lemma RecentAllocationsNewest(rows: seq<Entry>, identity: Option<string>, limit: nat)
    requires identity.Some? && limit > 0
    ensures var r := RecentAllocations(rows, identity, limit);
      match Seqs.LastIndex(rows, OwnedBy(identity.value))
      case None => r == []
      case Some(i) => r != [] && r[0] == rows[i]
  {
    var mine := Seqs.Filter(rows, OwnedBy(identity.value));
    var r := Seqs.Take(Seqs.Reverse(mine), limit);
    assert RecentAllocations(rows, identity, limit) == r;
    Seqs.FilterLast(rows, OwnedBy(identity.value));
    if mine != [] {
      assert r[0] == Seqs.Reverse(mine)[0] == mine[|mine| - 1];
    }
  }

  /** Ids grow with creation order. */
  predicate IdsIncrease(rows: seq<Entry>) {
    forall i, j :: 0 <= i < j < |rows| ==> rows[i].id < rows[j].id
  }

  lemma FilterKeepsOrder(rows: seq<Entry>, p: Entry -> bool)
    requires IdsIncrease(rows)
    ensures IdsIncrease(Seqs.Filter(rows, p))
  {
    Seqs.FilterPairwise(rows, p, (a: Entry, b: Entry) => a.id < b.id);
  }

  /** The `ledger` table. */
  class LedgerStore {
    var rows: seq<Entry>
    var nextId: nat

    ghost predicate Valid()
      reads this
    {
      IdsIncrease(rows) && forall i :: 0 <= i < |rows| ==> rows[i].id < nextId
    }

    constructor ()
      ensures Valid() && rows == [] && nextId == 0
    {
      rows := [];
      nextId := 0;
    }

    method LogSpend(identity: Option<string>, args: LogSpendArgs, now: int) returns (res: Result<nat>)
      requires Valid()
      modifies this
      ensures Valid()
      ensures match AppendSpend(old(rows), old(nextId), identity, args, now)
        case Failure(e) => res == Failure(e) && rows == old(rows) && nextId == old(nextId)
        case Success((rows', id)) => res == Success(id) && rows == rows' && nextId == old(nextId) + 1
    {
      match AppendSpend(rows, nextId, identity, args, now)
      case Failure(e) =>
        res := Failure(e);
      case Success((rows', id)) =>
        rows := rows';
        res := Success(id);
        nextId := nextId + 1;
    }

    method SignEntry(identity: Option<string>, entryId: nat, now: int) returns (res: Result<Stamp>)
      requires Valid()
      modifies this
      ensures Valid() && nextId == old(nextId)
      ensures match Sign(old(rows), identity, entryId, now)
        case Failure(e) => res == Failure(e) && rows == old(rows)
        case Success((rows', stamp)) => res == Success(stamp) && rows == rows'
    {
      match Sign(rows, identity, entryId, now)
      case Failure(e) =>
        res := Failure(e);
      case Success((rows', stamp)) =>
        rows := rows';
        res := Success(stamp);
    }
  }
}
