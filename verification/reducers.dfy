/**
  The three slice reducers of async.js and their composition into the root
  reducer `todoApp` (async.js:75-145). Each reducer is a total function of
  the current slice and an action; an action a reducer does not recognise
  leaves its slice unchanged.
 */
module Reducers {
  import opened Sequences
  import opened Actions

  /** The callback given to `state.map` by TOGGLE_TODO: flips `completed` on
      the entries whose id is `id`. */
  function ToggleIf(id: int): Todo -> Todo
  {
    (t: Todo) => if t.id == id then t.(completed := !t.completed) else t
  }

  /** The callback given to `state.filter` by REMOVE_NOTIFICATION. */
  function KeepsOtherThan(id: int): Notification -> bool
  {
    (n: Notification) => n.id != id
  }

  /** The entries REMOVE_NOTIFICATION drops. */
  function HasId(id: int): Notification -> bool
  {
    (n: Notification) => n.id == id
  }

  /** The `todos` slice reducer. */
  function Todos(state: seq<Todo>, action: Action): (r: seq<Todo>)
    ensures action.AddTodo? ==>
              && |r| == |state| + 1
              && r[..|state|] == state
              && r[|state|] == Todo(action.id, action.text, false)
    ensures action.ToggleTodo? ==>
              && |r| == |state|
              && forall i :: 0 <= i < |state| ==>
                   && r[i].id == state[i].id
                   && r[i].text == state[i].text
                   && r[i].completed == (if state[i].id == action.id then !state[i].completed else state[i].completed)
    ensures !action.AddTodo? && !action.ToggleTodo? ==> r == state
  {
    match action
    case AddTodo(id, text) => state + [Todo(id, text, false)]
    case ToggleTodo(id) => Map(state, ToggleIf(id))
    case _ => state
  }

  /** The `visibilityFilter` slice reducer. */
  function VisibilityFilter(state: Visibility, action: Action): (r: Visibility)
    ensures action.SetVisibilityFilter? ==> r == action.filter
    ensures !action.SetVisibilityFilter? ==> r == state
  {
    match action
    case SetVisibilityFilter(filter) => filter
    case _ => state
  }

  /** The `notifications` slice reducer. */
  function Notifications(state: seq<Notification>, action: Action): (r: seq<Notification>)
    ensures action.AddNotification? ==>
              && |r| == |state| + 1
              && r[..|state|] == state
              && r[|state|] == Notification(action.text, action.id)
    ensures action.RemoveNotification? ==>
              && (forall i :: 0 <= i < |r| ==> r[i].id != action.id)
              && (forall i :: 0 <= i < |state| && state[i].id != action.id ==> state[i] in r)
              && IsSubseq(r, state)
              && Interleaves(state, r, Filter(state, HasId(action.id)))
    ensures !action.AddNotification? && !action.RemoveNotification? ==> r == state
  {
    match action
    case AddNotification(text, id) => state + [Notification(text, id)]
    case RemoveNotification(id) =>
      FilterPartition(state, KeepsOtherThan(id), HasId(id));
      Filter(state, KeepsOtherThan(id))
    case _ => state
  }

  /** The slice of the state an action is meant for. */
  datatype Slice = FilterSlice | TodosSlice | NotificationsSlice | NoSlice

  function Target(action: Action): Slice
  {
    match action
    case AddTodo(_, _) => TodosSlice
    case ToggleTodo(_) => TodosSlice
    case SetVisibilityFilter(_) => FilterSlice
    case AddNotification(_, _) => NotificationsSlice
    case RemoveNotification(_) => NotificationsSlice
    case Unrecognised(_) => NoSlice
  }

  /** The whole state: one field per slice, keyed as in `combineReducers`. */
  datatype State = State(visibilityFilter: Visibility, todos: seq<Todo>, notifications: seq<Notification>)

  /** The slice defaults the reducers fall back to when the store starts. */
  const InitialState := State(ShowAll, [], [])

  /** The root reducer `todoApp`: every action is handed to every slice. */
  function TodoApp(state: State, action: Action): (r: State)
    ensures Target(action) != FilterSlice ==> r.visibilityFilter == state.visibilityFilter
    ensures Target(action) != TodosSlice ==> r.todos == state.todos
    ensures Target(action) != NotificationsSlice ==> r.notifications == state.notifications
  {
    State(
      VisibilityFilter(state.visibilityFilter, action),
      Todos(state.todos, action),
      Notifications(state.notifications, action))
  }

  /** The state after the store dispatches `actions`, first to last. */
  function Run(state: State, actions: seq<Action>): (r: State)
    ensures (forall k :: 0 <= k < |actions| ==> Target(actions[k]) != FilterSlice) ==>
              r.visibilityFilter == state.visibilityFilter
    ensures (forall k :: 0 <= k < |actions| ==> Target(actions[k]) != TodosSlice) ==>
              r.todos == state.todos
    ensures (forall k :: 0 <= k < |actions| ==> Target(actions[k]) != NotificationsSlice) ==>
              r.notifications == state.notifications
    decreases |actions|
  {
    if actions == [] then state else Run(TodoApp(state, actions[0]), actions[1..])
  }

  /** Toggling the same id twice gives back the original list. */
  lemma ToggleTwiceRestores(state: seq<Todo>, id: int)
    ensures Todos(Todos(state, ToggleTodo(id)), ToggleTodo(id)) == state
  {
  }

  /** Toggling an id no entry carries leaves the list as it was. */
  lemma ToggleAbsentIsNoop(state: seq<Todo>, id: int)
    requires forall i :: 0 <= i < |state| ==> state[i].id != id
    ensures Todos(state, ToggleTodo(id)) == state
  {
  }

  /** Removing the same notification id twice is the same as removing it once. */
  lemma RemoveNotificationIdempotent(state: seq<Notification>, id: int)
    ensures Notifications(Notifications(state, RemoveNotification(id)), RemoveNotification(id))
         == Notifications(state, RemoveNotification(id))
  {
    FilterIdempotent(state, KeepsOtherThan(id));
  }

  /** Removing an id no notification carries leaves the list as it was. */
  lemma RemoveAbsentIsNoop(state: seq<Notification>, id: int)
    requires forall i :: 0 <= i < |state| ==> state[i].id != id
    ensures Notifications(state, RemoveNotification(id)) == state
  {
    FilterKeepsAll(state, KeepsOtherThan(id));
  }

  /** Adding a notification under a fresh id and then removing that id gives
      back the original list. */
  lemma AddThenRemoveRestores(state: seq<Notification>, text: string, id: int)
    requires forall n :: n in state ==> n.id != id
    ensures Notifications(Notifications(state, AddNotification(text, id)), RemoveNotification(id)) == state
  {
    FilterAppend(state, [Notification(text, id)], KeepsOtherThan(id));
    FilterKeepsAll(state, KeepsOtherThan(id));
  }

  /** An action no reducer recognises leaves the whole state unchanged. */
  lemma UnrecognisedIsNoop(state: State, tag: UnknownType)
    ensures TodoApp(state, Unrecognised(tag)) == state
  {
  }

  /** Starting from the slice defaults, the store's initialisation action
      (which no reducer recognises) yields SHOW_ALL and two empty lists. */
  lemma StoreInitialisation(tag: UnknownType)
    ensures TodoApp(InitialState, Unrecognised(tag)).visibilityFilter == ShowAll
    ensures TodoApp(InitialState, Unrecognised(tag)).todos == []
    ensures TodoApp(InitialState, Unrecognised(tag)).notifications == []
  {
  }

  /** Actions meant for different slices may be dispatched in either order. */
  lemma SlicesCommute(state: State, a: Action, b: Action)
    requires Target(a) != Target(b)
    ensures TodoApp(TodoApp(state, a), b) == TodoApp(TodoApp(state, b), a)
  {
  }

  /** Removing a notification id commutes with every action except one that
      adds a notification under that same id. */
  lemma RemoveCommutes(state: State, a: Action, id: int)
    requires !(a.AddNotification? && a.id == id)
    ensures TodoApp(TodoApp(state, a), RemoveNotification(id))
         == TodoApp(TodoApp(state, RemoveNotification(id)), a)
  {
    var ns := state.notifications;
    var keep := KeepsOtherThan(id);
    match a
    case AddNotification(text, j) =>
      FilterAppend(ns, [Notification(text, j)], keep);
    case RemoveNotification(j) =>
      FilterCommutes(ns, KeepsOtherThan(j), keep);
    case _ =>
  }

  /** Dispatching one more action after a run is the run extended by it. */
  lemma {:induction false} RunSnoc(state: State, actions: seq<Action>, a: Action)
    ensures Run(state, actions + [a]) == TodoApp(Run(state, actions), a)
    decreases |actions|
  {
    if actions == [] {
      assert actions + [a] == [a];
    } else {
      assert (actions + [a])[1..] == actions[1..] + [a];
      RunSnoc(TodoApp(state, actions[0]), actions[1..], a);
    }
  }

  /** Reference definition: the filter most recently set by `actions`, or
      `current` when none of them sets one. */
  function LastFilterSet(current: Visibility, actions: seq<Action>): Visibility
    decreases |actions|
  {
    if actions == [] then current
    else
      var last := actions[|actions| - 1];
      if last.SetVisibilityFilter? then last.filter
      else LastFilterSet(current, actions[..|actions| - 1])
  }

  /** After any run the visible filter is the one the latest
      SET_VISIBILITY_FILTER chose, and otherwise the one it started with. */
  lemma {:induction false} RunFilterIsLastSet(state: State, actions: seq<Action>)
    ensures Run(state, actions).visibilityFilter == LastFilterSet(state.visibilityFilter, actions)
    decreases |actions|
  {
    if actions != [] {
      var init := actions[..|actions| - 1];
      var last := actions[|actions| - 1];
      assert actions == init + [last];
      RunSnoc(state, init, last);
      RunFilterIsLastSet(state, init);
    }
  }
}
