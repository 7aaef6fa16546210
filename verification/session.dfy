/**
  The store as the application drives it (async.js:17-25, 55-65, 141-150):
  the id counters `nextTodoId` and `nextNotificationId`, made explicit and
  threaded through, and the self-hiding notification of
  `addSelfHidingNotification`, whose thunk dispatches an add at once and
  schedules a remove for the same id.

  Every scheduled remove waits the same fixed delay, so the timers fire in
  the order they were set; the model keeps the ids of the scheduled removes
  in a queue `pending`, and a `TimerFired` event dispatches the remove for
  the oldest one. Time itself is not modelled.
 */
module Session {
  import opened Sequences
  import opened Actions
  import opened Reducers
  import opened Selectors

  /** `addTodo(text)` with the counter passed in: the action and the counter's
      next value (the post-increment `nextTodoId++`). */
  function AddTodoCreator(nextTodoId: nat, text: string): (r: (Action, nat))
    ensures r.0.AddTodo? && r.0.text == text
    ensures r.0.id == nextTodoId && r.1 == nextTodoId + 1
  {
    (AddTodo(nextTodoId, text), nextTodoId + 1)
  }

  /** `addTodo` called once per text, in order, starting from counter `next`. */
  function AddTodoCreators(next: nat, texts: seq<string>): (r: (seq<Action>, nat))
    ensures |r.0| == |texts| && r.1 == next + |texts|
    ensures forall i :: 0 <= i < |texts| ==> r.0[i] == AddTodo(next + i, texts[i])
    decreases |texts|
  {
    if texts == [] then ([], next)
    else
      var (first, n) := AddTodoCreator(next, texts[0]);
      var (rest, n') := AddTodoCreators(n, texts[1..]);
      ([first] + rest, n')
  }

  /** What one call of the `addSelfHidingNotification` thunk dispatches: the
      add it dispatches at once and the remove its timer dispatches later. */
  datatype SelfHiding = SelfHiding(show: Action, hide: Action)

  /** `addSelfHidingNotification(text)` with the counter passed in: the two
      actions and the counter's next value. */
  function AddSelfHidingNotification(nextNotificationId: nat, text: string): (r: (SelfHiding, nat))
    ensures r.0.show.AddNotification? && r.0.show.text == text
    ensures r.0.hide.RemoveNotification? && r.0.hide.id == r.0.show.id
    ensures r.0.show.id == nextNotificationId && r.1 == nextNotificationId + 1
  {
    var id := nextNotificationId;
    (SelfHiding(AddNotification(text, id), RemoveNotification(id)), nextNotificationId + 1)
  }

  /** The store state, the two counters, and the ids whose remove is still
      waiting on its timer, oldest first. */
  datatype Store = Store(state: State, nextTodoId: nat, nextNotificationId: nat, pending: seq<int>)

  const Start := Store(InitialState, 0, 0, [])

  /** What the application dispatches, plus the firing of the oldest timer. */
  datatype Event =
    | DispatchAddTodo(text: string)
    | DispatchToggleTodo(id: int)
    | DispatchSetVisibilityFilter(filter: Visibility)
    | DispatchSelfHidingNotification(text: string)
    | TimerFired

  function Step(s: Store, e: Event): (r: Store)
    ensures r.nextTodoId == s.nextTodoId + (if e.DispatchAddTodo? then 1 else 0)
    ensures r.nextNotificationId == s.nextNotificationId + (if e.DispatchSelfHidingNotification? then 1 else 0)
    ensures e.DispatchSetVisibilityFilter? ==> r.state.visibilityFilter == e.filter
    ensures !e.DispatchSetVisibilityFilter? ==> r.state.visibilityFilter == s.state.visibilityFilter
    ensures e.DispatchSelfHidingNotification? ==> r.pending == s.pending + [s.nextNotificationId]
    ensures e.TimerFired? && s.pending != [] ==> r.pending == s.pending[1..]
    ensures e.DispatchAddTodo? ==>
              r.state == TodoApp(s.state, AddTodo(s.nextTodoId, e.text)) && r.pending == s.pending
    ensures e.DispatchToggleTodo? ==>
              r.state == TodoApp(s.state, ToggleTodo(e.id)) && r.pending == s.pending
    ensures e.DispatchSetVisibilityFilter? ==>
              r.state == TodoApp(s.state, SetVisibilityFilter(e.filter)) && r.pending == s.pending
    ensures e.DispatchSelfHidingNotification? ==>
              r.state == TodoApp(s.state, AddNotification(e.text, s.nextNotificationId))
    ensures e.TimerFired? && s.pending != [] ==>
              r.state == TodoApp(s.state, RemoveNotification(s.pending[0]))
    ensures e.TimerFired? && s.pending == [] ==> r == s
  {
    match e
    case DispatchAddTodo(text) =>
      var (a, n) := AddTodoCreator(s.nextTodoId, text);
      s.(state := TodoApp(s.state, a), nextTodoId := n)
    case DispatchToggleTodo(id) =>
      s.(state := TodoApp(s.state, ToggleTodo(id)))
    case DispatchSetVisibilityFilter(filter) =>
      s.(state := TodoApp(s.state, SetVisibilityFilter(filter)))
    case DispatchSelfHidingNotification(text) =>
      var (sh, n) := AddSelfHidingNotification(s.nextNotificationId, text);
      s.(state := TodoApp(s.state, sh.show), nextNotificationId := n, pending := s.pending + [sh.hide.id])
    case TimerFired =>
      if s.pending == [] then s
      else s.(state := TodoApp(s.state, RemoveNotification(s.pending[0])), pending := s.pending[1..])
  }

  /** Counters only move forward, so an id once handed out is never handed
      out again. */
  function Replay(s: Store, events: seq<Event>): (r: Store)
    ensures r.nextTodoId >= s.nextTodoId
    ensures r.nextNotificationId >= s.nextNotificationId
    decreases |events|
  {
    if events == [] then s else Replay(Step(s, events[0]), events[1..])
  }

  /** Todo ids increase along the list and stay below the counter. */
  predicate TodoIdsBelow(todos: seq<Todo>, bound: int)
  {
    && (forall i, j :: 0 <= i < j < |todos| ==> todos[i].id < todos[j].id)
    && (forall i :: 0 <= i < |todos| ==> todos[i].id < bound)
  }

  /** Notification ids increase along the list and stay below the counter. */
  predicate NotificationIdsBelow(notifications: seq<Notification>, bound: int)
  {
    && (forall i, j :: 0 <= i < j < |notifications| ==> notifications[i].id < notifications[j].id)
    && (forall i :: 0 <= i < |notifications| ==> notifications[i].id < bound)
  }

  /** The store invariant: ids come from the counters in increasing order,
      and each shown notification has exactly one remove waiting for it, in
      the same order. */
  predicate Inv(s: Store)
  {
    && TodoIdsBelow(s.state.todos, s.nextTodoId)
    && NotificationIdsBelow(s.state.notifications, s.nextNotificationId)
    && |s.pending| == |s.state.notifications|
    && forall i :: 0 <= i < |s.pending| ==> s.pending[i] == s.state.notifications[i].id
  }

  /** A remove for the id at the head of a list with increasing ids drops
      exactly that head. */
  lemma RemoveOldest(ns: seq<Notification>, bound: int)
    requires NotificationIdsBelow(ns, bound) && ns != []
    ensures Notifications(ns, RemoveNotification(ns[0].id)) == ns[1..]
  {
    var keep := KeepsOtherThan(ns[0].id);
    assert !keep(ns[0]);
    FilterKeepsAll(ns[1..], keep);
  }

  lemma StartInv()
    ensures Inv(Start)
  {
  }

  lemma AddTodoPreservesInv(s: Store, text: string)
    requires Inv(s)
    ensures Inv(Step(s, DispatchAddTodo(text)))
  {
  }

  lemma ToggleTodoPreservesInv(s: Store, id: int)
    requires Inv(s)
    ensures Inv(Step(s, DispatchToggleTodo(id)))
  {
  }

  lemma SelfHidingPreservesInv(s: Store, text: string)
    requires Inv(s)
    ensures Inv(Step(s, DispatchSelfHidingNotification(text)))
  {
  }

  lemma TimerFiredPreservesInv(s: Store)
    requires Inv(s)
    ensures Inv(Step(s, TimerFired))
  {
    if s.pending != [] {
      RemoveOldest(s.state.notifications, s.nextNotificationId);
    }
  }

  lemma StepPreservesInv(s: Store, e: Event)
    requires Inv(s)
    ensures Inv(Step(s, e))
  {
    match e
    case DispatchAddTodo(text) => AddTodoPreservesInv(s, text);
    case DispatchToggleTodo(id) => ToggleTodoPreservesInv(s, id);
    case DispatchSetVisibilityFilter(filter) =>
    case DispatchSelfHidingNotification(text) => SelfHidingPreservesInv(s, text);
    case TimerFired => TimerFiredPreservesInv(s);
  }

  /** The invariant holds after every sequence of events. */
  lemma {:induction false} ReplayPreservesInv(s: Store, events: seq<Event>)
    requires Inv(s)
    ensures Inv(Replay(s, events))
    decreases |events|
  {
    if events != [] {
      StepPreservesInv(s, events[0]);
      ReplayPreservesInv(Step(s, events[0]), events[1..]);
    }
  }

  /** Whatever the application dispatches, no two todos share an id. */
  lemma TodoIdsDistinct(events: seq<Event>)
    ensures var todos := Replay(Start, events).state.todos;
            forall i, j :: 0 <= i < |todos| && 0 <= j < |todos| && i != j ==> todos[i].id != todos[j].id
  {
    StartInv();
    ReplayPreservesInv(Start, events);
  }

  /** When a timer fires it hides the oldest notification shown, and only it. */
  lemma TimerRemovesOldest(s: Store)
    requires Inv(s) && s.pending != []
    ensures Step(s, TimerFired).state.notifications == s.state.notifications[1..]
    ensures Step(s, TimerFired).state.todos == s.state.todos
    ensures Step(s, TimerFired).state.visibilityFilter == s.state.visibilityFilter
  {
    RemoveOldest(s.state.notifications, s.nextNotificationId);
  }

  /** Successive `addTodo` calls, dispatched to a list whose ids are below the
      counter, keep ids increasing along the list, hence distinct. */
  lemma {:induction false} AddTodosKeepIdsIncreasing(s: State, next: nat, texts: seq<string>)
    requires TodoIdsBelow(s.todos, next)
    ensures TodoIdsBelow(Run(s, AddTodoCreators(next, texts).0).todos, next + |texts|)
    decreases |texts|
  {
    if texts != [] {
      var actions := AddTodoCreators(next, texts).0;
      assert actions[0] == AddTodo(next, texts[0]);
      assert actions[1..] == AddTodoCreators(next + 1, texts[1..]).0;
      var s' := TodoApp(s, actions[0]);
      assert s'.todos == s.todos + [Todo(next, texts[0], false)];
      AddTodosKeepIdsIncreasing(s', next + 1, texts[1..]);
    }
  }

  /** Dispatching a remove after a run is the same as dispatching it first,
      as long as the run never adds a notification under that id. */
  lemma {:induction false} RemoveCommutesWithRun(s: State, actions: seq<Action>, id: int)
    requires forall k :: 0 <= k < |actions| ==> !(actions[k].AddNotification? && actions[k].id == id)
    ensures TodoApp(Run(s, actions), RemoveNotification(id)) == Run(TodoApp(s, RemoveNotification(id)), actions)
    decreases |actions|
  {
    if actions != [] {
      RemoveCommutesWithRun(TodoApp(s, actions[0]), actions[1..], id);
      RemoveCommutes(s, actions[0], id);
    }
  }

  /** A self-hiding notification leaves no trace: showing it, dispatching any
      actions that do not reuse its id, and then hiding it yields the same
      state as dispatching those actions alone. */
  lemma SelfHidingLeavesNoTrace(s: State, next: nat, text: string, meanwhile: seq<Action>)
    requires forall n :: n in s.notifications ==> n.id < next
    requires forall k :: 0 <= k < |meanwhile| ==> !(meanwhile[k].AddNotification? && meanwhile[k].id == next)
    ensures Run(TodoApp(s, AddSelfHidingNotification(next, text).0.show),
                meanwhile + [AddSelfHidingNotification(next, text).0.hide])
         == Run(s, meanwhile)
  {
    var sh := AddSelfHidingNotification(next, text).0;
    var shown := TodoApp(s, sh.show);
    RunSnoc(shown, meanwhile, sh.hide);
    RemoveCommutesWithRun(shown, meanwhile, next);
    AddThenRemoveRestores(s.notifications, text, next);
  }

  /** Dispatching a self-hiding notification and letting its timer fire,
      with nothing else shown, gives back the state it started from. */
  lemma SelfHidingThenTimerRestores(s: Store, text: string)
    requires Inv(s) && s.pending == []
    ensures Step(Step(s, DispatchSelfHidingNotification(text)), TimerFired).state == s.state
  {
  }

  /** Add "buy milk", toggle it, show only active todos: nothing is visible. */
  lemma BuyMilkScenario()
    ensures var s1 := Step(Start, DispatchAddTodo("buy milk"));
            var s2 := Step(s1, DispatchToggleTodo(0));
            var s3 := Step(s2, DispatchSetVisibilityFilter(ShowActive));
            && s1.state.todos == [Todo(0, "buy milk", false)]
            && s2.state.todos == [Todo(0, "buy milk", true)]
            && GetVisibleTodos(s3.state.todos, s3.state.visibilityFilter) == []
  {
  }
}
