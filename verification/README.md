# Todo app state transitions, modelled in Dafny

This project models the state logic of a small Redux todo application
(`async.js`). The application keeps three slices of state:

- the todo list, entries `{id, text, completed}`;
- the visibility filter, one of SHOW_ALL, SHOW_COMPLETED and SHOW_ACTIVE;
- a list of notifications, entries `{text, id}`.

A reducer per slice answers each plain action. The root reducer built by
`combineReducers` hands every action to every slice. A selector picks the
visible todos for the current filter. Two action creators draw ids from
global counters:

- `addTodo` takes its id from `nextTodoId`;
- `addSelfHidingNotification` takes its id from `nextNotificationId`. Its
  thunk shows a notification at once and removes it when a timer fires.

The model has five modules:

- `Sequences` (sequences.dfy): `Map` and `Filter`, which model JavaScript's
  array `map` and `filter`. It also defines two reference relations used to
  state what a filter returns: `IsSubseq` ("obtained by deleting elements")
  and `Interleaves` ("a merge of two sequences in order").
- `Actions` (actions.dfy): the filter enum, the todo and notification
  records, and the action datatype. The creators that only wrap their
  arguments (`toggleTodo`, `setVisibilityFilter`, `addNotification`,
  `removeNotification`) are the constructors of `Action`. `Unrecognised(tag)`
  stands for every action whose type is none of the five known tags. Its
  `tag` has a subset type that excludes those five strings. Redux's own
  initialisation action is one such action.
- `Reducers` (reducers.dfy): the three slice reducers, the root reducer
  `TodoApp`, and `Run`, the store dispatching a sequence of plain actions.
- `Selectors` (selectors.dfy): `getVisibleTodos`.
- `Session` (session.dfy): the store as the application drives it. The
  counters are explicit fields, and the scheduled removals are a queue.
  Every timer in the source has the same 5000 ms delay, so the timers fire
  in the order they were set. The queue holds the ids whose remove is still
  scheduled. A `TimerFired` event dispatches the remove for the oldest one.
  The lemmas in this module prove an invariant over every sequence of
  events:
  - todo ids increase along the list and stay below the counter;
  - notification ids do the same;
  - each shown notification has exactly one pending remove, in the same
    order.

TOGGLE_TODO's `state.map` (async.js:90-97) flips every entry that carries
the given id, and `Todos` does the same. Under the session invariant ids
are distinct, so at most one entry changes.

## Model

| member | source | states |
|---|---|---|
| Reducers.Todos | async.js:75-103 | ADD_TODO keeps the old list as a prefix and appends exactly one entry `{action.id, action.text, completed: false}`. TOGGLE_TODO keeps the length and every id and text. It flips `completed` exactly where the entry's id equals the action's id. Every other action returns the list unchanged. |
| Reducers.VisibilityFilter | async.js:105-115 | SET_VISIBILITY_FILTER yields the action's filter. Every other action keeps the current filter. |
| Reducers.Notifications | async.js:117-139 | ADD_NOTIFICATION keeps the old list as a prefix and appends `{text, id}`. REMOVE_NOTIFICATION yields a subsequence of the old list that holds no entry with the id. Merged in list order with the entries that carry the id, it gives back the old list, so every entry with another id is kept with its multiplicity. Every other action returns the list unchanged. |
| Reducers.ToggleTwiceRestores | async.js:88-97 | Toggling the same id twice gives back the original list. |
| Reducers.ToggleAbsentIsNoop | async.js:88-97 | Toggling an id that no entry carries leaves the list equal to the input. |
| Reducers.RemoveNotificationIdempotent | async.js:129-133 | Removing a notification id twice is the same as removing it once. |
| Reducers.RemoveAbsentIsNoop | async.js:129-133 | Removing an id that no notification carries leaves the list equal to the input. |
| Reducers.AddThenRemoveRestores | async.js:119-133 | Take a list in which the id is fresh. Adding a notification with that id and then removing the id restores the list. |
| Reducers.TodoApp | async.js:141-145 | The root reducer changes at most the slice an action is aimed at. An unknown action changes no slice. The behaviour of the slices is stated by `Reducers.UnrecognisedIsNoop` and `Reducers.SlicesCommute`. |
| Reducers.Run | async.js:141-145 | The store dispatching plain actions in order. A slice that none of the actions is aimed at ends as it started. `Reducers.RunSnoc` states that dispatching one more action extends the run. |
| Reducers.RunSnoc | async.js:141-145 | Dispatching a sequence and then one more action gives the same state as the extended sequence. |
| Reducers.UnrecognisedIsNoop | async.js:141-145 | An action with an unknown type leaves all three slices of the root state unchanged. |
| Reducers.StoreInitialisation | async.js:141-150 | The store starts from each slice's default and dispatches an action no reducer knows. That gives filter SHOW_ALL and two empty lists. |
| Reducers.SlicesCommute | async.js:141-145 | Under the root reducer, two actions aimed at different slices give the same state in either order. |
| Reducers.RemoveCommutes | async.js:117-145 | A notification remove commutes with every action except an add under the same id. |
| Reducers.RunFilterIsLastSet | async.js:105-115 | After any run of actions, the filter is the one chosen by the latest SET_VISIBILITY_FILTER. If no action set one, it is the starting filter. |
| Selectors.GetVisibleTodos | async.js:229-238 | SHOW_ALL returns the list itself. SHOW_COMPLETED returns the completed entries and SHOW_ACTIVE the active ones. Each of those is an order-preserving subsequence that contains every matching entry and only matching entries. |
| Selectors.VisiblePartition | async.js:229-238 | Merged in list order, the completed view and the active view give back the whole list, so their lengths sum to its length. |
| Session.AddTodoCreator | async.js:18-25 | `addTodo` carries the text and the current counter as its id. It advances the counter by exactly one (`nextTodoId++`). |
| Session.AddTodoCreators | async.js:18-25 | Successive `addTodo` calls issue ids `next, next+1, …` in call order, so the ids strictly increase. The counter ends past all of them. |
| Session.AddTodosKeepIdsIncreasing | async.js:77-86 | Start from a list whose ids increase and stay below the counter. Dispatching successive `addTodo` actions keeps the ids increasing along the list, so they are distinct. |
| Session.AddSelfHidingNotification | async.js:56-65 | The thunk's add and its later remove carry the same id. That id is the counter's current value, and the counter advances by exactly one (`nextNotificationId++`). |
| Session.Step | async.js:18-65 | One event of the application. `addTodo` advances the todo counter by one, and a self-hiding notification advances the notification counter by one. Every other event leaves both counters alone. Only SET_VISIBILITY_FILTER changes the filter, to the chosen value. `addTodo`, toggle and set-filter each dispatch their action, `AddTodo` with the counter's current value as id, to the root reducer, and leave the queue alone. A self-hiding notification dispatches `AddNotification` under the counter's current value and queues that id. A firing timer dispatches the remove for the oldest queued id and takes it off the queue. With nothing queued it changes nothing. |
| Session.Replay | async.js:18-65 | A run of events. Neither counter ever goes down, so an id once handed out is never handed out again. |
| Session.StartInv | async.js:18-73 | The invariant holds when the store is created: zeroed counters, empty lists and no pending timers. |
| Session.StepPreservesInv | async.js:18-65 | Every event preserves the store invariant: adding a todo, toggling, setting the filter, showing a self-hiding notification, or a timer firing. |
| Session.ReplayPreservesInv | async.js:18-65 | The invariant holds after any sequence of events. |
| Session.TodoIdsDistinct | async.js:18-25 | No two todos share an id in any state the application can reach. |
| Session.TimerRemovesOldest | async.js:62-64 | Under the invariant, a firing timer removes exactly the oldest notification. It leaves the other notifications, the todos and the filter unchanged. |
| Session.RemoveCommutesWithRun | async.js:129-133 | Removing an id after a run equals removing it before the run, when the run adds no notification under that id. |
| Session.SelfHidingLeavesNoTrace | async.js:57-65 | Show a self-hiding notification with a fresh id, then dispatch any actions that do not reuse the id, then hide it. The resulting state is the state those actions give without the notification. |
| Session.SelfHidingThenTimerRestores | async.js:57-65 | When no other notification is pending, showing a self-hiding notification and letting its timer fire restores the state. |
| Session.BuyMilkScenario | async.js:75-103 | Worked example: add "buy milk" (id 0, not completed), toggle it (completed), select SHOW_ACTIVE. The visible list is then empty. |

## Left out

- The React components, PropTypes and `ReactRedux.connect` wiring (async.js:156-315) are rendering, not state logic. The same goes for the DOM mounting (async.js:317-324). The add button's handler dispatches `addTodo(text)` and then `addSelfHidingNotification('Added item "' + text + '"')` (async.js:277-282). That handler is UI code, but the two events it produces are `DispatchAddTodo` and `DispatchSelfHidingNotification`.
- `setTimeout` and its 5000 ms delay (async.js:62-64). The model keeps only the order: the remove comes after the add, and equal delays fire first-in first-out.
- Redux internals: `createStore`, `applyMiddleware` with the thunk middleware, and `subscribe` with its `console.log` (async.js:3, 147-154). Their source is not part of this model. Only the per-slice composition of `combineReducers` is modelled. Thunk dispatch appears only as the two steps `Step` takes for a self-hiding notification.
- The fetch variant of the application ("async js with fetch todos.js"), with its FETCH_TODOS_* actions and simulated server reply, is not part of this model.
- `getVisibleTodos` with a filter outside the three constants falls through and returns `undefined`. The same applies to SET_VISIBILITY_FILTER storing an arbitrary string. The filter is an enum, so neither case can be written.
- Actions with missing or ill-typed payload fields (for example an ADD_TODO without `text`) cannot be written either, because each action constructor carries its payload.
- Ids and counters are unbounded integers. JavaScript numbers lose integer precision above 2^53, and that is not modelled.
- Object identity is not modelled: TOGGLE_TODO's `state.map` and REMOVE_NOTIFICATION's `state.filter` (async.js:90, 131) return a new array even when no entry changes, while the default branches (async.js:101, 113, 137) return the same array. States are compared by value.
