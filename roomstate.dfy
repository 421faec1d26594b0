/** The room state store: one record of on-screen UI, objective and status
    per (user, room), upserted, patched and deleted by the store's
    mutations. Identity is the caller's subject, `None` when signed out;
    the clock is the `now` parameter. */
module RoomState {
  import opened Wrappers
  import Seqs

  datatype RoomRecord = RoomRecord(
    id: nat,
    userId: string,
    roomId: string,
    activeComponent: Option<string>,
    componentProps: Option<string>,
    currentObjective: Option<string>,
    currentStatus: Option<string>,
    lastUpdated: int)

  /** The arguments of `persistRoomUpdate`; `props` is the JSON text. */
  datatype RoomUpdate = RoomUpdate(
    roomId: string,
    component: string,
    props: string,
    objective: Option<string>,
    status: Option<string>)

  datatype Outcome = Updated(id: nat) | Created(id: nat)

  datatype ClearOutcome = Cleared(roomId: string) | NoOp(roomId: string)

  datatype AdminOutcome = AdminCleared(roomId: string) | NoStateFound(roomId: string)

  /** `identity?.subject || "guest"`. */
  function UserOf(identity: Option<string>): (u: string)
    ensures identity.Some? && identity.value != "" ==> u == identity.value
    ensures identity.None? || identity.value == "" ==> u == "guest"
  {
    if identity.Some? && identity.value != "" then identity.value else "guest"
  }

  /** A JavaScript-truthy optional string: present and non-empty. */
  predicate Given(s: Option<string>) { s.Some? && s.value != "" }

  predicate HasKey(r: RoomRecord, userId: string, roomId: string) {
    r.userId == userId && r.roomId == roomId
  }

  /** At most one record per (user, room), and distinct ids below `nextId`. */
  predicate UniqueKeys(rows: seq<RoomRecord>) {
    forall i, j :: 0 <= i < j < |rows| ==> !HasKey(rows[j], rows[i].userId, rows[i].roomId)
  }

  predicate IdsBelow(rows: seq<RoomRecord>, nextId: nat) {
    forall i :: 0 <= i < |rows| ==> rows[i].id < nextId
  }

  predicate DistinctIds(rows: seq<RoomRecord>) {
    forall i, j :: 0 <= i < j < |rows| ==> rows[i].id != rows[j].id
  }

  predicate WellFormed(rows: seq<RoomRecord>, nextId: nat) {
    UniqueKeys(rows) && IdsBelow(rows, nextId) && DistinctIds(rows)
  }

  /** The `by_user_room` lookup followed by `.first()`: the earliest record
      with that key. */
  function Find(rows: seq<RoomRecord>, userId: string, roomId: string): (r: Option<nat>)
    ensures r.Some? ==> r.value < |rows| && HasKey(rows[r.value], userId, roomId)
    ensures r.Some? ==> forall k :: 0 <= k < r.value ==> !HasKey(rows[k], userId, roomId)
    ensures r.None? ==> forall k :: 0 <= k < |rows| ==> !HasKey(rows[k], userId, roomId)
  {
    Seqs.FirstIndex(rows, (x: RoomRecord) => HasKey(x, userId, roomId))
  }

  /** The records whose key is not (userId, roomId), in order. */
  function Others(rows: seq<RoomRecord>, userId: string, roomId: string): seq<RoomRecord> {
    Seqs.Filter(rows, (x: RoomRecord) => !HasKey(x, userId, roomId))
  }

  // ------------------------------------------------------------ persistRoomUpdate

  /** The fields an update patches: component and props always, objective
      and status only when given, and the time stamp. */
  function Patched(r: RoomRecord, u: RoomUpdate, now: int): RoomRecord {
    r.(activeComponent := Some(u.component),
       componentProps := Some(u.props),
       currentObjective := if Given(u.objective) then u.objective else r.currentObjective,
       currentStatus := if Given(u.status) then u.status else r.currentStatus,
       lastUpdated := now)
  }

  /** The new record of an insert: objective and status stored as given. */
  function Fresh(id: nat, userId: string, u: RoomUpdate, now: int): RoomRecord {
    RoomRecord(id, userId, u.roomId, Some(u.component), Some(u.props), u.objective, u.status, now)
  }

  /** The rows and the result after `persistRoomUpdate`. */
  function Persist(rows: seq<RoomRecord>, nextId: nat, userId: string, u: RoomUpdate, now: int)
    : (r: (seq<RoomRecord>, Outcome))
    ensures r.1.Created? <==> |r.0| == |rows| + 1
    ensures |r.0| >= |rows|
    ensures forall k :: 0 <= k < |rows| ==> r.0[k].id == rows[k].id
    ensures forall k :: 0 <= k < |rows| && !HasKey(rows[k], userId, u.roomId) ==> r.0[k] == rows[k]
  {
    match Find(rows, userId, u.roomId)
    case Some(i) => (rows[i := Patched(rows[i], u, now)], Updated(rows[i].id))
    case None => (rows + [Fresh(nextId, userId, u, now)], Created(nextId))
  }

  /** An update patches the existing record and keeps its id; otherwise one
      record is inserted with the next id. */
  lemma PersistUpserts(rows: seq<RoomRecord>, nextId: nat, userId: string, u: RoomUpdate, now: int)
    ensures var (rows', out) := Persist(rows, nextId, userId, u, now);
      match Find(rows, userId, u.roomId)
      case Some(i) => out == Updated(rows[i].id) && |rows'| == |rows|
      case None => out == Created(nextId) && |rows'| == |rows| + 1
  {
  }

  /** After an update the key's record holds the new component, props and
      time; objective and status change only when given, and an insert stores
      them exactly as given. */
  lemma PersistStores(rows: seq<RoomRecord>, nextId: nat, userId: string, u: RoomUpdate, now: int)
    ensures var rows' := Persist(rows, nextId, userId, u, now).0;
      var i := Find(rows', userId, u.roomId);
      i.Some? &&
      rows'[i.value].activeComponent == Some(u.component) &&
      rows'[i.value].componentProps == Some(u.props) &&
      rows'[i.value].lastUpdated == now &&
      match Find(rows, userId, u.roomId)
      case Some(j) =>
        rows'[i.value].id == rows[j].id &&
        rows'[i.value].currentObjective == (if Given(u.objective) then u.objective else rows[j].currentObjective) &&
        rows'[i.value].currentStatus == (if Given(u.status) then u.status else rows[j].currentStatus)
      case None =>
        rows'[i.value].id == nextId &&
        rows'[i.value].currentObjective == u.objective &&
        rows'[i.value].currentStatus == u.status
  {
    var rows' := Persist(rows, nextId, userId, u, now).0;
    match Find(rows, userId, u.roomId)
    case Some(j) =>
      assert HasKey(rows'[j], userId, u.roomId);
      assert forall k :: 0 <= k < j ==> rows'[k] == rows[k];
      assert Find(rows', userId, u.roomId) == Some(j);
    case None =>
      assert HasKey(rows'[|rows|], userId, u.roomId);
      assert forall k :: 0 <= k < |rows| ==> rows'[k] == rows[k];
      assert Find(rows', userId, u.roomId) == Some(|rows|);
  }

  /** Records of other users or other rooms are untouched by an update. */
  lemma PersistKeepsOthers(rows: seq<RoomRecord>, nextId: nat, userId: string, u: RoomUpdate, now: int)
    ensures Others(Persist(rows, nextId, userId, u, now).0, userId, u.roomId) == Others(rows, userId, u.roomId)
  {
    var p := (x: RoomRecord) => !HasKey(x, userId, u.roomId);
    match Find(rows, userId, u.roomId)
    case Some(i) => Seqs.FilterUpdateRejected(rows, p, i, Patched(rows[i], u, now));
    case None => Seqs.FilterAppendRejected(rows, p, Fresh(nextId, userId, u, now));
  }

  /** An update keeps at most one record per key. */
  lemma PersistWellFormed(rows: seq<RoomRecord>, nextId: nat, userId: string, u: RoomUpdate, now: int)
    requires WellFormed(rows, nextId)
    ensures WellFormed(Persist(rows, nextId, userId, u, now).0,
      if Find(rows, userId, u.roomId).Some? then nextId else nextId + 1)
  {
  }

  // ------------------------------------------------------------ updateObjective

  function ObjectiveUpdate(rows: seq<RoomRecord>, nextId: nat, userId: string, roomId: string,
                           objective: string, now: int): (seq<RoomRecord>, Outcome)
  {
    match Find(rows, userId, roomId)
    case Some(i) =>
      (rows[i := rows[i].(currentObjective := Some(objective), lastUpdated := now)], Updated(rows[i].id))
    case None =>
      (rows + [RoomRecord(nextId, userId, roomId, None, None, Some(objective), None, now)], Created(nextId))
  }

  /** `updateObjective` changes only the objective and the time stamp of an
      existing record, or inserts one with no component. */
  lemma UpdateObjectiveStores(rows: seq<RoomRecord>, nextId: nat, userId: string, roomId: string,
                              objective: string, now: int)
    ensures var (rows', out) := ObjectiveUpdate(rows, nextId, userId, roomId, objective, now);
      Others(rows', userId, roomId) == Others(rows, userId, roomId) &&
      match Find(rows, userId, roomId)
      case Some(i) =>
        out == Updated(rows[i].id) && |rows'| == |rows| &&
        rows'[i] == rows[i].(currentObjective := Some(objective), lastUpdated := now)
      case None =>
        out == Created(nextId) && rows' == rows + [rows'[|rows|]] &&
        rows'[|rows|].activeComponent.None? && rows'[|rows|].componentProps.None? &&
        rows'[|rows|].currentObjective == Some(objective) && HasKey(rows'[|rows|], userId, roomId)
  {
    var p := (x: RoomRecord) => !HasKey(x, userId, roomId);
    match Find(rows, userId, roomId)
    case Some(i) =>
      Seqs.FilterUpdateRejected(rows, p, i, rows[i].(currentObjective := Some(objective), lastUpdated := now));
    case None =>
      Seqs.FilterAppendRejected(rows, p, RoomRecord(nextId, userId, roomId, None, None, Some(objective), None, now));
  }

  lemma UpdateObjectiveWellFormed(rows: seq<RoomRecord>, nextId: nat, userId: string, roomId: string,
                                  objective: string, now: int)
    requires WellFormed(rows, nextId)
    ensures WellFormed(ObjectiveUpdate(rows, nextId, userId, roomId, objective, now).0,
      if Find(rows, userId, roomId).Some? then nextId else nextId + 1)
  {
  }

  // ------------------------------------------------------------ queries

  /** `getRoomState`: the caller's record for the room, or null. */
  function GetRoomState(rows: seq<RoomRecord>, identity: Option<string>, roomId: string): (r: Option<RoomRecord>)
    ensures r.Some? <==> exists k :: 0 <= k < |rows| && HasKey(rows[k], UserOf(identity), roomId)
    ensures r.Some? ==> r.value in rows && HasKey(r.value, UserOf(identity), roomId)
  {
    match Find(rows, UserOf(identity), roomId)
    case Some(i) => Some(rows[i])
    case None => None
  }

  /** `getAllRoomStates`: every record of the caller, in table order. */
  function GetAllRoomStates(rows: seq<RoomRecord>, identity: Option<string>): (r: seq<RoomRecord>)
    ensures forall k :: 0 <= k < |r| ==> r[k] in rows && r[k].userId == UserOf(identity)
    ensures forall k :: 0 <= k < |rows| && rows[k].userId == UserOf(identity) ==> rows[k] in r
  {
    Seqs.Filter(rows, (x: RoomRecord) => x.userId == UserOf(identity))
  }

  // ------------------------------------------------------------ clearRoomState

  /** `clearRoomState`: signed-out callers are refused; otherwise the
      caller's record for the room, keyed by the subject itself, is deleted. */
  function Clear(rows: seq<RoomRecord>, identity: Option<string>, roomId: string)
    : (r: Result<(seq<RoomRecord>, ClearOutcome)>)
    ensures r.Failure? <==> identity.None?
    ensures r.Success? ==>
      (r.value.1 == Cleared(roomId) <==> |r.value.0| == |rows| - 1) &&
      forall k :: 0 <= k < |r.value.0| ==> r.value.0[k] in rows
  {
    if identity.None? then Failure("Unauthorised")
    else match Find(rows, identity.value, roomId)
      case Some(i) => Success((Seqs.RemoveAt(rows, i), Cleared(roomId)))
      case None => Success((rows, NoOp(roomId)))
  }

  /** Clearing fails exactly when signed out; it removes the caller's record,
      reports whether there was one, and leaves every other record as it was. */
  lemma ClearRoomStateRemoves(rows: seq<RoomRecord>, identity: Option<string>, roomId: string)
    requires UniqueKeys(rows)
    ensures var res := Clear(rows, identity, roomId);
      (res.Failure? <==> identity.None?) &&
      (res.Failure? ==> res.error == "Unauthorised") &&
      (res.Success? ==>
        var (rows', out) := res.value;
        Find(rows', identity.value, roomId).None? &&
        Others(rows', identity.value, roomId) == Others(rows, identity.value, roomId) &&
        (out == Cleared(roomId) <==> Find(rows, identity.value, roomId).Some?) &&
        (out == NoOp(roomId) <==> rows' == rows))
  {
    if identity.Some? {
      match Find(rows, identity.value, roomId)
      case Some(i) =>
        var rows' := Seqs.RemoveAt(rows, i);
        Seqs.FilterRemoveRejected(rows, (x: RoomRecord) => !HasKey(x, identity.value, roomId), i);
        assert rows' != rows by { assert |rows'| != |rows|; }
        forall k | 0 <= k < |rows'| ensures !HasKey(rows'[k], identity.value, roomId) {
          if k >= i { assert rows'[k] == rows[k + 1]; }
        }
      case None =>
    }
  }

  // ------------------------------------------------------------ adminClearRoom

  /** `adminClearRoom`: with no identity check, the first record of the room
      is deleted, whoever owns it. */
  function AdminClear(rows: seq<RoomRecord>, roomId: string): (r: (seq<RoomRecord>, AdminOutcome))
    ensures r.1 == AdminCleared(roomId) <==> |r.0| == |rows| - 1
    ensures forall k :: 0 <= k < |r.0| ==> r.0[k] in rows
  {
    match Seqs.FirstIndex(rows, (x: RoomRecord) => x.roomId == roomId)
    case Some(i) => (Seqs.RemoveAt(rows, i), AdminCleared(roomId))
    case None => (rows, NoStateFound(roomId))
  }

  /** The admin clear deletes exactly one record when the room has any, the
      earliest one, and otherwise nothing. */
  lemma AdminClearRoomRemovesOne(rows: seq<RoomRecord>, roomId: string)
    ensures var (rows', out) := AdminClear(rows, roomId);
      (out == AdminCleared(roomId) <==> exists k :: 0 <= k < |rows| && rows[k].roomId == roomId) &&
      (out == NoStateFound(roomId) ==> rows' == rows)
    ensures var (rows', out) := AdminClear(rows, roomId);
      out == AdminCleared(roomId) ==>
        exists i ::
          0 <= i < |rows| && rows[i].roomId == roomId && rows' == rows[..i] + rows[i + 1..] &&
          forall k :: 0 <= k < i ==> rows[k].roomId != roomId
  {
  }

  // ------------------------------------------------------------ the table

  /** The `room_state` table. */
  class RoomStore {
    var rows: seq<RoomRecord>
    var nextId: nat

    ghost predicate Valid()
      reads this
    {
      WellFormed(rows, nextId)
    }

    constructor ()
      ensures Valid() && rows == [] && nextId == 0
    {
      rows := [];
      nextId := 0;
    }

    method PersistRoomUpdate(identity: Option<string>, u: RoomUpdate, now: int) returns (out: Outcome)
      requires Valid()
      modifies this
      ensures Valid()
      ensures (rows, out) == Persist(old(rows), old(nextId), UserOf(identity), u, now)
      ensures nextId == if out.Created? then old(nextId) + 1 else old(nextId)
    {
      PersistWellFormed(rows, nextId, UserOf(identity), u, now);
      var found := Find(rows, UserOf(identity), u.roomId);
      var r := Persist(rows, nextId, UserOf(identity), u, now);
      rows, out := r.0, r.1;
      if found.None? {
        nextId := nextId + 1;
      }
    }

    method UpdateObjective(identity: Option<string>, roomId: string, objective: string, now: int)
      returns (out: Outcome)
      requires Valid()
      modifies this
      ensures Valid()
      ensures (rows, out) == ObjectiveUpdate(old(rows), old(nextId), UserOf(identity), roomId, objective, now)
      ensures nextId == if out.Created? then old(nextId) + 1 else old(nextId)
    {
      UpdateObjectiveWellFormed(rows, nextId, UserOf(identity), roomId, objective, now);
      var found := Find(rows, UserOf(identity), roomId);
      var r := ObjectiveUpdate(rows, nextId, UserOf(identity), roomId, objective, now);
      rows, out := r.0, r.1;
      if found.None? {
        nextId := nextId + 1;
      }
    }

    method ClearRoomState(identity: Option<string>, roomId: string) returns (res: Result<ClearOutcome>)
      requires Valid()
      modifies this
      ensures Valid()
      ensures match Clear(old(rows), identity, roomId)
        case Failure(e) => res == Failure(e) && rows == old(rows)
        case Success((rows', out)) => res == Success(out) && rows == rows'
      ensures nextId == old(nextId)
    {
      match Clear(rows, identity, roomId)
      case Failure(e) =>
        res := Failure(e);
      case Success((rows', out)) =>
        RemovePreservesWellFormed(rows, nextId, Find(rows, identity.value, roomId));
        rows := rows';
        res := Success(out);
    }

    method AdminClearRoom(roomId: string) returns (out: AdminOutcome)
      requires Valid()
      modifies this
      ensures Valid()
      ensures (rows, out) == AdminClear(old(rows), roomId)
      ensures nextId == old(nextId)
    {
      RemovePreservesWellFormed(rows, nextId, Seqs.FirstIndex(rows, (x: RoomRecord) => x.roomId == roomId));
      var r := AdminClear(rows, roomId);
      rows, out := r.0, r.1;
    }
  }

  lemma RemovePreservesWellFormed(rows: seq<RoomRecord>, nextId: nat, i: Option<nat>)
    requires WellFormed(rows, nextId)
    ensures i.Some? && i.value < |rows| ==> WellFormed(Seqs.RemoveAt(rows, i.value), nextId)
  {
    if i.Some? && i.value < |rows| {
      var r := Seqs.RemoveAt(rows, i.value);
      forall a, b | 0 <= a < b < |r| ensures !HasKey(r[b], r[a].userId, r[a].roomId) && r[a].id != r[b].id {
        var a' := if a < i.value then a else a + 1;
        var b' := if b < i.value then b else b + 1;
        assert r[a] == rows[a'] && r[b] == rows[b'];
      }
    }
  }
}
