/**
  The selector `getVisibleTodos` (async.js:229-238): the part of the todo
  list the current visibility filter lets through.
 */
module Selectors {
  import opened Sequences
  import opened Actions

  /** The callback `t => t.completed` of SHOW_COMPLETED. */
  function IsCompleted(t: Todo): bool
  {
    t.completed
  }

  /** The callback `t => !t.completed` of SHOW_ACTIVE. */
  function IsActive(t: Todo): bool
  {
    !t.completed
  }

  function GetVisibleTodos(todos: seq<Todo>, filter: Visibility): (r: seq<Todo>)
    ensures filter == ShowAll ==> r == todos
    ensures filter == ShowCompleted ==>
              && (forall i :: 0 <= i < |r| ==> r[i].completed)
              && (forall i :: 0 <= i < |todos| && todos[i].completed ==> todos[i] in r)
              && IsSubseq(r, todos)
    ensures filter == ShowActive ==>
              && (forall i :: 0 <= i < |r| ==> !r[i].completed)
              && (forall i :: 0 <= i < |todos| && !todos[i].completed ==> todos[i] in r)
              && IsSubseq(r, todos)
  {
    match filter
    case ShowAll => todos
    case ShowCompleted => Filter(todos, IsCompleted)
    case ShowActive => Filter(todos, IsActive)
  }

  /** The completed and the active views split the list: merged in list
      order they give it back, so their lengths add up to its length. */
  lemma VisiblePartition(todos: seq<Todo>)
    ensures Interleaves(todos, GetVisibleTodos(todos, ShowCompleted), GetVisibleTodos(todos, ShowActive))
    ensures |GetVisibleTodos(todos, ShowCompleted)| + |GetVisibleTodos(todos, ShowActive)| == |todos|
  {
    FilterPartition(todos, IsCompleted, IsActive);
    InterleavesLength(todos, GetVisibleTodos(todos, ShowCompleted), GetVisibleTodos(todos, ShowActive));
  }
}
