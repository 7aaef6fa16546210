/**
  The vocabulary of the todo application: the records held in the state and
  the plain actions dispatched to the store (async.js:5-53).

  The creators `toggleTodo`, `setVisibilityFilter`, `addNotification` and
  `removeNotification` only wrap their arguments in a tagged record, so they
  are the constructors `ToggleTodo`, `SetVisibilityFilter`, `AddNotification`
  and `RemoveNotification` below. The creators that draw on a counter live in
  module Session.
 */
module Actions {

  /** The three visibility filters, SHOW_ALL, SHOW_COMPLETED and SHOW_ACTIVE. */
  datatype Visibility = ShowAll | ShowCompleted | ShowActive

  /** One entry of the todo list. */
  datatype Todo = Todo(id: int, text: string, completed: bool)

  /** One entry of the notification list. */
  datatype Notification = Notification(text: string, id: int)

  /** The type tags the reducers recognise (async.js:6-8, 14-15). */
  const KnownTypes: set<string> :=
    {"ADD_TODO", "TOGGLE_TODO", "SET_VISIBILITY_FILTER", "ADD_NOTIFICATION", "REMOVE_NOTIFICATION"}

  /** Any other type tag, such as the store's own initialisation action. */
  type UnknownType = t: string | t !in KnownTypes witness ""

  /** A plain action. `Unrecognised` stands for every action whose type tag is
      none of the five the reducers know; `tag` is that type string. */
  datatype Action =
    | AddTodo(id: int, text: string)
    | ToggleTodo(id: int)
    | SetVisibilityFilter(filter: Visibility)
    | AddNotification(text: string, id: int)
    | RemoveNotification(id: int)
    | Unrecognised(tag: UnknownType)
}
