/** The renderer of a room's on-screen UI: it rehydrates the local UI from
    the stored room record through a de-duplication key, applies the
    `update_room_ui` tool optimistically before persisting it, and resolves
    the active component through the registry. */
module Renderer {
  import opened Wrappers
  import opened Json
  import Text
  import Registry
  import RoomState

  /** The locally shown UI: a component name and its props. */
  datatype ActiveUI = ActiveUI(comp: string, props: Json)

  /** The reactive `getRoomState` query: still loading (`undefined`), no
      record (`null`), or a record. */
  datatype Query = Loading | NoRecord | Record(r: RoomState.RoomRecord)

  /** The renderer's state: the shown UI, the last seen key, and whether an
      error thrown by the rehydrate effect has unmounted the component. A
      crashed renderer draws nothing and runs no effect or tool again. */
  datatype View = View(ui: Option<ActiveUI>, lastStateId: Option<string>, crashed: bool)

  /** What the renderer draws. */
  datatype Render = Nothing | EmptyFrame | Drawn(c: Registry.Component, props: Json)

  function QueryOf(r: Option<RoomState.RoomRecord>): Query {
    if r.Some? then Record(r.value) else NoRecord
  }

  /** A record that names a component and carries props. */
  predicate Complete(r: RoomState.RoomRecord) {
    RoomState.Given(r.activeComponent) && RoomState.Given(r.componentProps)
  }

  /** The de-duplication key `component-lastUpdated`. */
  function StateId(r: RoomState.RoomRecord): string
    requires r.activeComponent.Some?
  {
    r.activeComponent.value + "-" + Text.IntToString(r.lastUpdated)
  }

  /** One run of the rehydrate effect. The key is recorded before the props
      are parsed, and `JSON.parse` runs unguarded, so props that fail to
      parse throw out of the effect and crash the renderer. */
  function Rehydrate(v: View, q: Query, parse: string -> Option<Json>): (r: View)
    ensures r.crashed ==> v.crashed || (q.Record? && Complete(q.r) && parse(q.r.componentProps.value).None?)
    ensures r.ui != v.ui && r.ui.Some? ==>
      q.Record? && Complete(q.r) && r.ui.value.comp == q.r.activeComponent.value &&
      parse(q.r.componentProps.value) == Some(r.ui.value.props)
  {
    if v.crashed then v
    else match q
    case Record(r) =>
      if Complete(r) then
        var id := StateId(r);
        if Some(id) != v.lastStateId then
          match parse(r.componentProps.value)
          case Some(p) => View(Some(ActiveUI(r.activeComponent.value, p)), Some(id), false)
          case None => View(v.ui, Some(id), true)
        else v
      else v
    case _ => View(None, None, false)
  }

  /** A complete record replaces the UI only when its key is new, and then
      records that key; a repeated key changes nothing; props that do not
      parse crash the renderer; a crashed renderer reacts to nothing. */
  lemma RehydrateSuppressesRepeats(v: View, r: RoomState.RoomRecord, parse: string -> Option<Json>)
    requires Complete(r)
    ensures v.crashed ==> Rehydrate(v, Record(r), parse) == v
    ensures !v.crashed ==> Rehydrate(v, Record(r), parse).lastStateId == Some(StateId(r))
    ensures v.lastStateId == Some(StateId(r)) ==> Rehydrate(v, Record(r), parse) == v
    ensures !v.crashed && v.lastStateId != Some(StateId(r)) && parse(r.componentProps.value).Some? ==>
      Rehydrate(v, Record(r), parse) ==
        View(Some(ActiveUI(r.activeComponent.value, parse(r.componentProps.value).value)), Some(StateId(r)), false)
    ensures !v.crashed && v.lastStateId != Some(StateId(r)) && parse(r.componentProps.value).None? ==>
      Rehydrate(v, Record(r), parse).crashed
    ensures Rehydrate(v, Record(r), parse).ui != v.ui ==> v.lastStateId != Some(StateId(r))
  {
  }

  /** Receiving the same record twice is the same as receiving it once. */
  lemma RehydrateIdempotent(v: View, q: Query, parse: string -> Option<Json>)
    ensures Rehydrate(Rehydrate(v, q, parse), q, parse) == Rehydrate(v, q, parse)
  {
  }

  /** Two records with the same component and time stamp lead to the same
      view as the first one alone, whatever else differs. */
  lemma RehydrateSameKey(v: View, r1: RoomState.RoomRecord, r2: RoomState.RoomRecord, parse: string -> Option<Json>)
    requires Complete(r1) && Complete(r2)
    requires r1.activeComponent == r2.activeComponent && r1.lastUpdated == r2.lastUpdated
    ensures Rehydrate(Rehydrate(v, Record(r1), parse), Record(r2), parse) == Rehydrate(v, Record(r1), parse)
  {
  }

  /** An absent record, loading or null, clears both the UI and the key; a
      present but incomplete record, such as one holding only an objective,
      changes nothing. */
  lemma RehydrateClearsOnlyWhenAbsent(v: View, q: Query, parse: string -> Option<Json>)
    ensures !q.Record? && !v.crashed ==> Rehydrate(v, q, parse) == View(None, None, false)
    ensures q.Record? && !Complete(q.r) ==> Rehydrate(v, q, parse) == v
    ensures q.Record? ==> Rehydrate(v, q, parse).lastStateId.Some? || Rehydrate(v, q, parse) == v
  {
  }

  /** The component names the `update_room_ui` tool declares. */
  const ToolComponents: set<string> := {"BunkerTerminal", "ArtifactCard", "SystemAlert"}

  /** Every name the tool accepts is a registry key. */
  lemma ToolComponentsRegistered()
    ensures ToolComponents <= Registry.Keys
  {
  }

  /** What is drawn for the shown UI. */
  function Draw(ui: Option<ActiveUI>): (d: Render)
    ensures ui.None? <==> d == Nothing
    ensures d.Drawn? <==> ui.Some? && ui.value.comp in Registry.Keys
    ensures d.Drawn? ==> Registry.Name(d.c) == ui.value.comp && d.props == ui.value.props
  {
    match ui
    case None => Nothing
    case Some(u) =>
      match Registry.Lookup(u.comp)
      case Some(c) => Drawn(c, u.props)
      case None => EmptyFrame
  }

  /** The arguments of the `update_room_ui` tool. */
  datatype ToolCall = ToolCall(
    component: string,
    props: Json,
    newRoomId: string,
    objective: Option<string>,
    status: Option<string>)

  function ToolUpdate(call: ToolCall, env: Foreign): RoomState.RoomUpdate {
    RoomState.RoomUpdate(call.newRoomId, call.component, env.stringify(call.props), call.objective, call.status)
  }

  /** The loop closes: after the tool has shown its UI and persisted it, the
      record the query then delivers rehydrates to that same UI, provided the
      stored props read back as the props the tool was given. */
  lemma {:induction false} ToolThenRehydrate(rows: seq<RoomState.RoomRecord>, nextId: nat, identity: Option<string>,
                                             call: ToolCall, now: int, lastStateId: Option<string>, env: Foreign)
    requires call.component != "" && env.stringify(call.props) != ""
    requires env.parse(env.stringify(call.props)) == Some(call.props)
    ensures var rows' := RoomState.Persist(rows, nextId, RoomState.UserOf(identity), ToolUpdate(call, env), now).0;
      var q := QueryOf(RoomState.GetRoomState(rows', identity, call.newRoomId));
      q.Record? && Complete(q.r) &&
      Rehydrate(View(Some(ActiveUI(call.component, call.props)), lastStateId, false), q, env.parse).ui
        == Some(ActiveUI(call.component, call.props))
  {
    RoomState.PersistStores(rows, nextId, RoomState.UserOf(identity), ToolUpdate(call, env), now);
  }

  /** The mounted renderer of one room. */
  class RoomRenderer {
    const roomId: string
    const hasRoomCallback: bool
    var view: View
    /** The rooms passed to `onChangeRoom`, in order. */
    var roomChanges: seq<string>
    const store: RoomState.RoomStore

    constructor (roomId: string, hasRoomCallback: bool, store: RoomState.RoomStore)
      ensures this.roomId == roomId && this.hasRoomCallback == hasRoomCallback && this.store == store
      ensures view == View(None, None, false) && roomChanges == []
    {
      this.roomId := roomId;
      this.hasRoomCallback := hasRoomCallback;
      this.store := store;
      view := View(None, None, false);
      roomChanges := [];
    }

    /** The effect that runs whenever the query result changes. */
    method OnRoomState(q: Query, parse: string -> Option<Json>)
      modifies this
      ensures view == Rehydrate(old(view), q, parse)
      ensures roomChanges == old(roomChanges)
    {
      if view.crashed {
        return;
      }
      match q
      case Record(r) =>
        if Complete(r) {
          var id := StateId(r);
          if Some(id) != view.lastStateId {
            view := view.(lastStateId := Some(id));
            var p := parse(r.componentProps.value);
            if p.Some? {
              view := view.(ui := Some(ActiveUI(r.activeComponent.value, p.value)));
            } else {
              view := view.(crashed := true);
            }
          }
        }
      case _ =>
        view := View(None, view.lastStateId, false);
        view := view.(lastStateId := None);
    }

    /** The `update_room_ui` handler: room change, then the optimistic local
        UI, then the write to the store. The key is left alone. A crashed
        renderer is unmounted, so its tool is no longer registered. */
    method HandleTool(identity: Option<string>, call: ToolCall, now: int, env: Foreign)
      returns (out: Option<RoomState.Outcome>)
      requires store.Valid()
      modifies this, store
      ensures store.Valid()
      ensures old(view.crashed) ==>
        view == old(view) && roomChanges == old(roomChanges) &&
        store.rows == old(store.rows) && store.nextId == old(store.nextId) && out.None?
      ensures !old(view.crashed) ==>
        roomChanges == old(roomChanges) + (if call.newRoomId != roomId && hasRoomCallback then [call.newRoomId] else []) &&
        view == View(Some(ActiveUI(call.component, call.props)), old(view.lastStateId), false) &&
        out.Some? &&
        (store.rows, out.value) == RoomState.Persist(old(store.rows), old(store.nextId), RoomState.UserOf(identity), ToolUpdate(call, env), now)
    {
      if view.crashed {
        out := None;
        return;
      }
      if call.newRoomId != roomId && hasRoomCallback {
        roomChanges := roomChanges + [call.newRoomId];
      }
      view := view.(ui := Some(ActiveUI(call.component, call.props)));
      var o := store.PersistRoomUpdate(identity, ToolUpdate(call, env), now);
      out := Some(o);
    }
  }
}
