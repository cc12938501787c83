/**
 * The todo-list reducers and the visible-todos selector of `src/index.js`.
 */
module TodoReducers {
  import opened Options
  import opened Actions
  import opened Sequences

  /** One todo record `{id, text, completed}`. */
  datatype Todo = Todo(id: int, text: string, completed: bool)

  /** The three filter modes the selector knows. */
  const SHOW_ALL := "SHOW_ALL"
  const SHOW_COMPLETED := "SHOW_COMPLETED"
  const SHOW_ACTIVE := "SHOW_ACTIVE"

  /**
   * `after` is `before` updated by a toggle of id `k`: same id and text, and the
   * `completed` flag differs exactly when the id is `k`.
   */
  predicate ToggledBy(before: Todo, k: int, after: Todo) {
    && after.id == before.id
    && after.text == before.text
    && (after.completed != before.completed <==> before.id == k)
  }

  /**
   * `todo`: the reducer of a single item. `None` is an `undefined` item, which is
   * what `todos` passes for `ADD_TODO`. The source reads `state.id` for
   * `TOGGLE_TODO`, which throws on `undefined`, hence the precondition.
   */
  function TodoReducer(state: Option<Todo>, action: Action): (r: Option<Todo>)
    requires action.kind == Some(TOGGLE_TODO) ==> state.Some?
    ensures action.kind == Some(ADD_TODO) ==> r == Some(Todo(action.id, action.text, false))
    ensures action.kind == Some(TOGGLE_TODO) ==> r.Some? && ToggledBy(state.value, action.id, r.value)
    ensures action.kind != Some(ADD_TODO) && action.kind != Some(TOGGLE_TODO) ==> r == state
  {
    if action.kind == Some(ADD_TODO) then
      Some(Todo(action.id, action.text, false))
    else if action.kind == Some(TOGGLE_TODO) then
      if state.value.id != action.id then state
      else Some(state.value.(completed := !state.value.completed))
    else
      state
  }

  /**
   * `todos`: the reducer of the list, which starts from `[]`. `ADD_TODO` appends
   * a fresh record, `TOGGLE_TODO` toggles every record with the action's id and
   * keeps the rest, and any other action leaves the list as it was.
   */
  function TodosReducer(state: Option<seq<Todo>>, action: Action): (r: seq<Todo>)
    ensures var xs := state.GetOr([]);
      action.kind == Some(ADD_TODO) ==>
        |r| == |xs| + 1 && r[..|xs|] == xs && r[|xs|] == Todo(action.id, action.text, false)
    ensures var xs := state.GetOr([]);
      action.kind == Some(TOGGLE_TODO) ==>
        |r| == |xs| && forall i :: 0 <= i < |xs| ==> ToggledBy(xs[i], action.id, r[i])
    ensures action.kind != Some(ADD_TODO) && action.kind != Some(TOGGLE_TODO) ==>
      r == state.GetOr([])
  {
    var xs := state.GetOr([]);
    if action.kind == Some(ADD_TODO) then
      xs + [TodoReducer(None, action).value]
    else if action.kind == Some(TOGGLE_TODO) then
      seq(|xs|, i requires 0 <= i < |xs| => TodoReducer(Some(xs[i]), action).value)
    else
      xs
  }

  /** Toggling the same id twice gives back the list it started from. */
  lemma ToggleTwice(xs: seq<Todo>, k: int)
    ensures TodosReducer(Some(TodosReducer(Some(xs), ToggleTodo(k))), ToggleTodo(k)) == xs
  {
  }

  /**
   * `visibilityFilter`: a one-slot reducer that starts from `"SHOW_ALL"` and is
   * set to the action's `filter`, whatever it held before.
   */
  function VisibilityFilterReducer(state: Option<string>, action: Action): (r: string)
    ensures action.kind == Some(SET_VISIBILITY_FILTER) ==> r == action.filter
    ensures action.kind != Some(SET_VISIBILITY_FILTER) ==> r == state.GetOr(SHOW_ALL)
  {
    if action.kind == Some(SET_VISIBILITY_FILTER) then action.filter else state.GetOr(SHOW_ALL)
  }

  predicate Completed(t: Todo) { t.completed }

  predicate Active(t: Todo) { !t.completed }

  /**
   * `getVisibleTodos`: the list unchanged for `"SHOW_ALL"`, its completed items
   * for `"SHOW_COMPLETED"`, its other items for `"SHOW_ACTIVE"`, each in list
   * order. The `switch` has no `default`, so any other filter gives `undefined`.
   */
  function GetVisibleTodos(todos: seq<Todo>, filter: string): (r: Option<seq<Todo>>)
    ensures r.Some? <==> filter in {SHOW_ALL, SHOW_COMPLETED, SHOW_ACTIVE}
    ensures filter == SHOW_ALL ==> r == Some(todos)
    ensures filter == SHOW_COMPLETED ==>
      && r.Some?
      && Subsequence(r.value, todos)
      && (forall t :: t in r.value ==> t.completed)
      && (forall t :: t in todos && t.completed ==> multiset(r.value)[t] == multiset(todos)[t])
    ensures filter == SHOW_ACTIVE ==>
      && r.Some?
      && Subsequence(r.value, todos)
      && (forall t :: t in r.value ==> !t.completed)
      && (forall t :: t in todos && !t.completed ==> multiset(r.value)[t] == multiset(todos)[t])
  {
    if filter == SHOW_ALL then Some(todos)
    else if filter == SHOW_COMPLETED then Some(Filter(Completed, todos))
    else if filter == SHOW_ACTIVE then Some(Filter(Active, todos))
    else None
  }

  /**
   * The completed and the active views split the list: their lengths add up to
   * the list's length, and together they hold exactly its items.
   */
  lemma VisiblePartition(todos: seq<Todo>)
    ensures var done := GetVisibleTodos(todos, SHOW_COMPLETED).value;
      var active := GetVisibleTodos(todos, SHOW_ACTIVE).value;
      |done| + |active| == |todos| && multiset(done) + multiset(active) == multiset(todos)
  {
    FilterPartition(Completed, Active, todos);
  }

  /** The commented-out `testAddTodo` and `testToggleTodo` of the source. */
  lemma TodosExamples()
    ensures TodosReducer(Some([]), AddTodo(0, "Learn Redux")) == [Todo(0, "Learn Redux", false)]
    ensures TodosReducer(Some([Todo(0, "Learn Redux", false), Todo(1, "Go shopping", false)]), ToggleTodo(1))
         == [Todo(0, "Learn Redux", false), Todo(1, "Go shopping", true)]
  {
  }
}
