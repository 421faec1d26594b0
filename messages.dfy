/** The `messages` table: chat lines saved per signed-in user, de-duplicated
    by the client's `sourceId`, and read back in creation order. The index
    `by_user_created` orders a user's messages by `createdAt` and then by
    insertion, which is the key pair (createdAt, id) here. */
module Messages {
  import opened Wrappers
  import Seqs

  datatype Message = Message(
    id: nat,
    userId: string,
    role: string,
    content: string,
    sourceId: Option<string>,
    createdAt: int)

  datatype SaveOutcome = SkippedAnonymous | Exists(id: nat) | Created(id: nat)

  /** `if (args.sourceId)`: a given, non-empty source id. */
  predicate Truthy(sourceId: Option<string>) { sourceId.Some? && sourceId.value != "" }

  /** The caller's stored message carrying `sourceId`, first in index order. */
  function FindSource(rows: seq<Message>, userId: string, sourceId: Option<string>): Option<nat> {
    Seqs.FirstIndex(rows, (m: Message) => m.userId == userId && m.sourceId == sourceId)
  }

  /** `saveMessage` on the table. */
  function Save(rows: seq<Message>, nextId: nat, identity: Option<string>, role: string, content: string,
                sourceId: Option<string>, now: int): (r: (seq<Message>, SaveOutcome))
    ensures r.1.Created? <==> |r.0| == |rows| + 1
    ensures |r.0| >= |rows| && r.0[..|rows|] == rows
    ensures r.1.Created? ==> identity.Some? && r.0[|rows|].userId == identity.value && r.0[|rows|].id == r.1.id
  {
    if identity.None? then (rows, SkippedAnonymous)
    else
      var found := if Truthy(sourceId) then FindSource(rows, identity.value, sourceId) else None;
      if found.Some? then (rows, Exists(rows[found.value].id))
      else (rows + [Message(nextId, identity.value, role, content, sourceId, now)], Created(nextId))
  }

  /** A guest writes nothing; a truthy source id already stored for the
      caller returns that message and writes nothing; everything else is
      exactly one insert owned by the caller. */
  lemma SaveMessageOutcomes(rows: seq<Message>, nextId: nat, identity: Option<string>, role: string, content: string,
                            sourceId: Option<string>, now: int)
    ensures var (rows', out) := Save(rows, nextId, identity, role, content, sourceId, now);
      (identity.None? <==> out == SkippedAnonymous) &&
      (out.SkippedAnonymous? || out.Exists? ==> rows' == rows) &&
      (out.Exists? <==>
        identity.Some? && Truthy(sourceId) &&
        exists k :: 0 <= k < |rows| && rows[k].userId == identity.value && rows[k].sourceId == sourceId) &&
      (out.Exists? ==>
        exists k :: 0 <= k < |rows| && rows[k].id == out.id &&
          rows[k].userId == identity.value && rows[k].sourceId == sourceId) &&
      (out.Created? ==>
        out.id == nextId && rows' == rows + [Message(nextId, identity.value, role, content, sourceId, now)])
  {
  }

  /** Without a truthy source id, every signed-in save inserts. */
  lemma SaveWithoutSourceInserts(rows: seq<Message>, nextId: nat, user: string, role: string, content: string,
                                 sourceId: Option<string>, now: int)
    requires !Truthy(sourceId)
    ensures Save(rows, nextId, Some(user), role, content, sourceId, now).1 == Created(nextId)
  {
  }

  /** No user holds two messages with the same truthy source id. */
  predicate UniqueSources(rows: seq<Message>) {
    forall i, j :: 0 <= i < j < |rows| && Truthy(rows[i].sourceId) ==>
      !(rows[j].userId == rows[i].userId && rows[j].sourceId == rows[i].sourceId)
  }

  predicate WellFormed(rows: seq<Message>, nextId: nat) {
    UniqueSources(rows) &&
    (forall i :: 0 <= i < |rows| ==> rows[i].id < nextId) &&
    (forall i, j :: 0 <= i < j < |rows| ==> rows[i].id < rows[j].id)
  }

  lemma SavePreserves(rows: seq<Message>, nextId: nat, identity: Option<string>, role: string, content: string,
                      sourceId: Option<string>, now: int)
    requires WellFormed(rows, nextId)
    ensures var (rows', out) := Save(rows, nextId, identity, role, content, sourceId, now);
      WellFormed(rows', if out.Created? then nextId + 1 else nextId)
  {
  }

  /** Saving the same truthy source id twice is idempotent: the second save
      reports the message the first created and leaves the table alone. */
  lemma {:induction false} SaveIdempotent(rows: seq<Message>, nextId: nat, user: string, role: string, content: string,
                                          sourceId: Option<string>, now: int, role2: string, content2: string, later: int)
    requires Truthy(sourceId)
    ensures var (rows1, out1) := Save(rows, nextId, Some(user), role, content, sourceId, now);
      var (rows2, out2) := Save(rows1, if out1.Created? then nextId + 1 else nextId, Some(user), role2, content2, sourceId, later);
      rows2 == rows1 && out2 == Exists(out1.id)
  {
    var p := (m: Message) => m.userId == user && m.sourceId == sourceId;
    var (rows1, out1) := Save(rows, nextId, Some(user), role, content, sourceId, now);
    if out1.Created? {
      assert FindSource(rows, user, sourceId).None?;
      assert p(rows1[|rows|]);
      var f := FindSource(rows1, user, sourceId);
      assert f.Some?;
    } else {
      var i := FindSource(rows, user, sourceId).value;
      assert rows1 == rows;
    }
  }

  function OwnedBy(userId: string): Message -> bool {
    (m: Message) => m.userId == userId
  }

  /** The caller's messages in index order. */
  function Ordered(rows: seq<Message>, userId: string): (r: seq<Message>)
    ensures multiset(r) == multiset(Seqs.Filter(rows, OwnedBy(userId)))
    ensures Seqs.SortedBy(r, Key)
  {
    Seqs.SortBy(Seqs.Filter(rows, OwnedBy(userId)), Key)
  }

  function Key(m: Message): (int, int) { (m.createdAt, m.id) }

  /** `getMessages`: nothing for a guest; otherwise the caller's messages
      oldest first, at most `limit`, 200 by default. */
  function GetMessages(rows: seq<Message>, identity: Option<string>, limit: Option<nat>): (r: seq<Message>)
    ensures identity.None? ==> r == []
    ensures |r| <= limit.GetOr(200)
    ensures identity.Some? ==> forall k :: 0 <= k < |r| ==> r[k] in rows && r[k].userId == identity.value
    ensures identity.Some? ==> var n := |Seqs.Filter(rows, OwnedBy(identity.value))|;
      |r| == if limit.GetOr(200) < n then limit.GetOr(200) else n
    ensures forall i, j :: 0 <= i < j < |r| ==> Seqs.KeyLe(Key(r[i]), Key(r[j]))
  {
    if identity.None? then []
    else
      var all := Ordered(rows, identity.value);
      OrderedMembers(rows, identity.value);
      assert |multiset(all)| == |multiset(Seqs.Filter(rows, OwnedBy(identity.value)))|;
      Seqs.Take(all, limit.GetOr(200))
  }

  /** `getRecentMessages`: nothing for a guest; otherwise the caller's
      messages newest first, at most `limit`, 5 by default. */
  function GetRecentMessages(rows: seq<Message>, identity: Option<string>, limit: Option<nat>): (r: seq<Message>)
    ensures identity.None? ==> r == []
    ensures |r| <= limit.GetOr(5)
    ensures identity.Some? ==> forall k :: 0 <= k < |r| ==> r[k] in rows && r[k].userId == identity.value
    ensures identity.Some? ==> var n := |Seqs.Filter(rows, OwnedBy(identity.value))|;
      |r| == if limit.GetOr(5) < n then limit.GetOr(5) else n
    ensures forall i, j :: 0 <= i < j < |r| ==> Seqs.KeyLe(Key(r[j]), Key(r[i]))
  {
    if identity.None? then []
    else
      var all := Ordered(rows, identity.value);
      OrderedMembers(rows, identity.value);
      assert |multiset(all)| == |multiset(Seqs.Filter(rows, OwnedBy(identity.value)))|;
      Seqs.Take(Seqs.Reverse(all), limit.GetOr(5))
  }

  lemma OrderedMembers(rows: seq<Message>, userId: string)
    ensures forall k :: 0 <= k < |Ordered(rows, userId)| ==>
      Ordered(rows, userId)[k] in rows && Ordered(rows, userId)[k].userId == userId
  {
    var f := Seqs.Filter(rows, OwnedBy(userId));
    var r := Ordered(rows, userId);
    forall k | 0 <= k < |r| ensures r[k] in rows && r[k].userId == userId {
      assert r[k] in multiset(r);
      assert r[k] in multiset(f);
      assert r[k] in f;
    }
  }

  /** Every message of the caller is read back, given a limit that covers
      them: the full reads are a reordering of the caller's messages, and the
      recent read is the full read reversed. */
  lemma ReadsCoverCaller(rows: seq<Message>, user: string, n: nat)
    requires n >= |rows|
    ensures multiset(GetMessages(rows, Some(user), Some(n))) == multiset(Seqs.Filter(rows, OwnedBy(user)))
    ensures GetRecentMessages(rows, Some(user), Some(n)) == Seqs.Reverse(GetMessages(rows, Some(user), Some(n)))
  {
    var all := Ordered(rows, user);
    OrderedLength(rows, user);
    assert Seqs.Take(all, n) == all;
    assert GetMessages(rows, Some(user), Some(n)) == all;
    var rev := Seqs.Reverse(all);
    assert Seqs.Take(rev, n) == rev;
    assert GetRecentMessages(rows, Some(user), Some(n)) == rev;
  }

  lemma OrderedLength(rows: seq<Message>, user: string)
    ensures |Ordered(rows, user)| <= |rows|
  {
    var mine := Seqs.Filter(rows, OwnedBy(user));
    assert |multiset(Ordered(rows, user))| == |multiset(mine)|;
  }

  /** `a` comes no later than `b` in index order. */
  predicate NotAfter(a: Message, b: Message) { Seqs.KeyLe(Key(a), Key(b)) }

  /** `b` comes no later than `a` in index order. */
  predicate NotBefore(a: Message, b: Message) { Seqs.KeyLe(Key(b), Key(a)) }

  /** `take(limit)` on the oldest-first index: as many of the caller's
      messages as the limit allows, each of them the caller's, and no
      message left out comes before one returned. */
  lemma GetMessagesExact(rows: seq<Message>, user: string, limit: Option<nat>)
    ensures var mine := Seqs.Filter(rows, OwnedBy(user));
      var r := GetMessages(rows, Some(user), limit);
      |r| == (if limit.GetOr(200) < |mine| then limit.GetOr(200) else |mine|) &&
      multiset(r) <= multiset(mine) &&
      forall m, x :: m in mine && m !in r && x in r ==> NotAfter(x, m)
  {
    var mine := Seqs.Filter(rows, OwnedBy(user));
    var all := Ordered(rows, user);
    assert |all| == |mine| by {
      assert |multiset(all)| == |multiset(mine)|;
    }
    assert GetMessages(rows, Some(user), limit) == Seqs.Take(all, limit.GetOr(200));
    Seqs.TakeLeavesTail(all, limit.GetOr(200));
    assert forall m :: m in mine ==> m in all by {
      forall m | m in mine ensures m in all {
        assert m in multiset(mine);
      }
    }
    Seqs.TakeKeepsFirst(all, limit.GetOr(200), NotAfter);
  }

  /** `take(limit)` on the newest-first index: as many of the caller's
      messages as the limit allows, each of them the caller's, and no
      message left out comes after one returned. */
  lemma GetRecentMessagesExact(rows: seq<Message>, user: string, limit: Option<nat>)
    ensures var mine := Seqs.Filter(rows, OwnedBy(user));
      var r := GetRecentMessages(rows, Some(user), limit);
      |r| == (if limit.GetOr(5) < |mine| then limit.GetOr(5) else |mine|) &&
      multiset(r) <= multiset(mine) &&
      forall m, x :: m in mine && m !in r && x in r ==> NotBefore(x, m)
  {
    var mine := Seqs.Filter(rows, OwnedBy(user));
    var all := Ordered(rows, user);
    assert |all| == |mine| by {
      assert |multiset(all)| == |multiset(mine)|;
    }
    assert GetRecentMessages(rows, Some(user), limit) == Seqs.Take(Seqs.Reverse(all), limit.GetOr(5));
    assert forall m :: m in mine ==> m in all by {
      forall m | m in mine ensures m in all {
        assert m in multiset(mine);
      }
    }
    var r := GetRecentMessages(rows, Some(user), limit);
    Seqs.TakeReverseKeepsLast(all, limit.GetOr(5), NotAfter);
    forall m, x | m in mine && m !in r && x in r ensures NotBefore(x, m) {
      assert NotAfter(m, x);
    }
  }

  /** The `messages` table. */
  class MessageStore {
    var rows: seq<Message>
    var nextId: nat

    ghost predicate Valid()
      reads this
    {
      WellFormed(rows, nextId)
    }

    constructor ()
      ensures Valid() && rows == [] && nextId == 0
    {
      rows := [];
      nextId := 0;
    }

    /** `saveMessage`: the source id lookup guards the insert. */
    method SaveMessage(identity: Option<string>, role: string, content: string, sourceId: Option<string>, now: int)
      returns (out: SaveOutcome)
      requires Valid()
      modifies this
      ensures Valid()
      ensures (rows, out) == Save(old(rows), old(nextId), identity, role, content, sourceId, now)
      ensures nextId == if out.Created? then old(nextId) + 1 else old(nextId)
    {
      SavePreserves(rows, nextId, identity, role, content, sourceId, now);
      if identity.None? {
        return SkippedAnonymous;
      }
      if Truthy(sourceId) {
        var existing := FindSource(rows, identity.value, sourceId);
        if existing.Some? {
          return Exists(rows[existing.value].id);
        }
      }
      rows := rows + [Message(nextId, identity.value, role, content, sourceId, now)];
      out := Created(nextId);
      nextId := nextId + 1;
    }
  }
}
