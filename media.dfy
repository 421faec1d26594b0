/** The studio's media records, one per uploaded asset, kept in step with
    the media host by an upsert on the asset's public id. */
module Media {
  import opened Wrappers
  import Seqs

  /** The fields the upsert takes; the optional ones may be omitted. */
  datatype MediaArgs = MediaArgs(
    publicId: string,
    url: string,
    resourceType: string,
    folder: Option<string>,
    format: string,
    bytes: real,
    width: Option<real>,
    height: Option<real>)

  datatype Record = Record(
    id: nat,
    publicId: string,
    url: string,
    resourceType: string,
    folder: Option<string>,
    format: string,
    bytes: real,
    width: Option<real>,
    height: Option<real>)

  /** An omitted optional field leaves the stored one as it was. */
  function Keep<T>(given: Option<T>, stored: Option<T>): Option<T> {
    if given.Some? then given else stored
  }

  /** `ctx.db.patch(existing._id, args)`. */
  function Patch(r: Record, a: MediaArgs): (p: Record)
    ensures p.id == r.id && p.publicId == a.publicId && p.url == a.url && p.resourceType == a.resourceType
    ensures p.format == a.format && p.bytes == a.bytes
    ensures p.folder == (if a.folder.Some? then a.folder else r.folder)
    ensures p.width == (if a.width.Some? then a.width else r.width)
    ensures p.height == (if a.height.Some? then a.height else r.height)
  {
    Record(r.id, a.publicId, a.url, a.resourceType, Keep(a.folder, r.folder), a.format, a.bytes,
      Keep(a.width, r.width), Keep(a.height, r.height))
  }

  function Inserted(id: nat, a: MediaArgs): Record {
    Record(id, a.publicId, a.url, a.resourceType, a.folder, a.format, a.bytes, a.width, a.height)
  }

  function PublicIdIs(publicId: string): Record -> bool {
    (r: Record) => r.publicId == publicId
  }

  function ByPublicId(rows: seq<Record>, publicId: string): Option<nat> {
    Seqs.FirstIndex(rows, PublicIdIs(publicId))
  }

  /** `upsertMediaRecord`: patch the first record with the public id, else
      insert one. */
  function Upsert(rows: seq<Record>, nextId: nat, a: MediaArgs): (r: (seq<Record>, nat))
    ensures r.1 == nextId ==> |r.0| == |rows|
    ensures r.1 != nextId ==> r.1 == nextId + 1 && |r.0| == |rows| + 1 && r.0[..|rows|] == rows
  {
    match ByPublicId(rows, a.publicId)
    case Some(i) => (rows[i := Patch(rows[i], a)], nextId)
    case None => (rows + [Inserted(nextId, a)], nextId + 1)
  }

  predicate HasPublicId(rows: seq<Record>, publicId: string) {
    exists k :: 0 <= k < |rows| && rows[k].publicId == publicId
  }

  /** No two records share a public id. */
  predicate UniquePublicIds(rows: seq<Record>) {
    forall i, j :: 0 <= i < j < |rows| ==> rows[i].publicId != rows[j].publicId
  }

  /** A known asset is patched in place and the table keeps its size; an
      unknown one adds exactly one record, carrying the given fields. No
      other record changes. */
  lemma UpsertOutcomes(rows: seq<Record>, nextId: nat, a: MediaArgs)
    ensures var (rows', next') := Upsert(rows, nextId, a);
      (HasPublicId(rows, a.publicId) ==> |rows'| == |rows| && next' == nextId) &&
      (!HasPublicId(rows, a.publicId) ==> rows' == rows + [Inserted(nextId, a)] && next' == nextId + 1) &&
      (forall k :: 0 <= k < |rows| && rows[k].publicId != a.publicId ==> rows'[k] == rows[k])
  {
    var f := ByPublicId(rows, a.publicId);
    if f.Some? {
      assert rows[f.value].publicId == a.publicId;
    } else {
      forall k | 0 <= k < |rows| ensures rows[k].publicId != a.publicId {
        assert !PublicIdIs(a.publicId)(rows[k]);
      }
    }
  }

  /** After the upsert the asset has a record holding every given field. */
  lemma UpsertStores(rows: seq<Record>, nextId: nat, a: MediaArgs)
    ensures var (rows', _) := Upsert(rows, nextId, a);
      exists k :: 0 <= k < |rows'| && rows'[k] == Patch(rows'[k], a)
  {
    var (rows', _) := Upsert(rows, nextId, a);
    match ByPublicId(rows, a.publicId)
    case Some(i) =>
      assert rows'[i] == Patch(rows'[i], a);
    case None =>
      assert rows'[|rows|] == Patch(rows'[|rows|], a);
  }

  /** Repeating an upsert changes nothing more. */
  lemma UpsertIdempotent(rows: seq<Record>, nextId: nat, a: MediaArgs)
    ensures var (rows', next') := Upsert(rows, nextId, a);
      Upsert(rows', next', a) == (rows', next')
  {
    var (rows', next') := Upsert(rows, nextId, a);
    var p := PublicIdIs(a.publicId);
    match ByPublicId(rows, a.publicId)
    case Some(i) =>
      assert ByPublicId(rows', a.publicId) == Some(i) by {
        assert p(rows'[i]);
        forall m | 0 <= m < i ensures !p(rows'[m]) { assert !p(rows[m]); }
      }
      assert Patch(rows'[i], a) == rows'[i];
      assert rows'[i := rows'[i]] == rows';
    case None =>
      var n := |rows|;
      assert ByPublicId(rows', a.publicId) == Some(n) by {
        assert p(rows'[n]);
        forall m | 0 <= m < n ensures !p(rows'[m]) { assert !p(rows[m]); }
      }
      assert Patch(rows'[n], a) == rows'[n];
      assert rows'[n := rows'[n]] == rows';
  }

  /** The upsert never creates a second record for an asset. */
  lemma UpsertKeepsUnique(rows: seq<Record>, nextId: nat, a: MediaArgs)
    requires UniquePublicIds(rows)
    ensures UniquePublicIds(Upsert(rows, nextId, a).0)
  {
    UpsertOutcomes(rows, nextId, a);
    var f := ByPublicId(rows, a.publicId);
    if f.None? {
      var rows' := Upsert(rows, nextId, a).0;
      assert forall k :: 0 <= k < |rows| ==> rows'[k] == rows[k];
    }
  }

  /** The `media` table. */
  class MediaStore {
    var rows: seq<Record>
    var nextId: nat

    ghost predicate Valid()
      reads this
    {
      forall k :: 0 <= k < |rows| ==> rows[k].id < nextId
    }

    constructor ()
      ensures Valid() && rows == [] && nextId == 0
    {
      rows := [];
      nextId := 0;
    }

    method UpsertMediaRecord(a: MediaArgs)
      requires Valid()
      modifies this
      ensures Valid()
      ensures (rows, nextId) == Upsert(old(rows), old(nextId), a)
    {
      var existing := ByPublicId(rows, a.publicId);
      if existing.Some? {
        var i := existing.value;
        rows := rows[i := Patch(rows[i], a)];
      } else {
        rows := rows + [Inserted(nextId, a)];
        nextId := nextId + 1;
      }
    }
  }
}
