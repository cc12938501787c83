/**
 * `todoApp` of `src/index.js`: `combineReducers({todos, visibilityFilter})`, and
 * the state it goes through in a short session.
 */
module TodoApp {
  import opened Options
  import opened Actions
  import opened TodoReducers
  import opened Combine
  import opened Stores

  const TODOS := "todos"
  const VISIBILITY_FILTER := "visibilityFilter"

  /**
   * A slice of the top-level state: the todo list under `todos`, the filter mode
   * under `visibilityFilter`.
   */
  datatype Slice = TodoSlice(items: seq<Todo>) | FilterSlice(mode: string)

  /** `todos` on its slice; a slice of the other kind is read as absent. */
  function TodosSliceReducer(state: Option<Slice>, action: Action): (r: Slice)
    ensures r.TodoSlice?
    ensures state.Some? && state.value.TodoSlice? ==> r.items == TodosReducer(Some(state.value.items), action)
    ensures !(state.Some? && state.value.TodoSlice?) ==> r.items == TodosReducer(None, action)
  {
    match state
    case Some(TodoSlice(xs)) => TodoSlice(TodosReducer(Some(xs), action))
    case _ => TodoSlice(TodosReducer(None, action))
  }

  /** `visibilityFilter` on its slice; a slice of the other kind is read as absent. */
  function FilterSliceReducer(state: Option<Slice>, action: Action): (r: Slice)
    ensures r.FilterSlice?
    ensures state.Some? && state.value.FilterSlice? ==> r.mode == VisibilityFilterReducer(Some(state.value.mode), action)
    ensures !(state.Some? && state.value.FilterSlice?) ==> r.mode == VisibilityFilterReducer(None, action)
  {
    match state
    case Some(FilterSlice(f)) => FilterSlice(VisibilityFilterReducer(Some(f), action))
    case _ => FilterSlice(VisibilityFilterReducer(None, action))
  }

  /** The object `{todos: todos, visibilityFilter: visibilityFilter}`. */
  function TodoAppReducers(): (r: ReducerMap<Slice>)
    ensures r.Valid()
    ensures r.table.Keys == {TODOS, VISIBILITY_FILTER}
  {
    ReducerMap([TODOS, VISIBILITY_FILTER], map[TODOS := TodosSliceReducer, VISIBILITY_FILTER := FilterSliceReducer])
  }

  /** A top-level state of the shape `todoApp` produces. */
  function AppState(todos: seq<Todo>, filter: string): map<string, Slice> {
    map[TODOS := TodoSlice(todos), VISIBILITY_FILTER := FilterSlice(filter)]
  }

  /**
   * One step of `todoApp` on a state of its own shape: the todo list goes through
   * `todos`, the filter through `visibilityFilter`, and the result has that shape
   * again.
   */
  lemma TodoAppStep(todos: seq<Todo>, filter: string, action: Action)
    ensures Combined(TodoAppReducers(), Some(AppState(todos, filter)), action)
         == AppState(TodosReducer(Some(todos), action), VisibilityFilterReducer(Some(filter), action))
  {
  }

  /** With no prior state, `todoApp` yields `{todos: [], visibilityFilter: "SHOW_ALL"}`. */
  lemma TodoAppInitial()
    ensures Combined(TodoAppReducers(), None, Init) == AppState([], SHOW_ALL)
  {
  }

  /** An action no slice reducer recognises leaves a state of `todoApp`'s shape as it was. */
  lemma TodoAppIgnoresUnknown(todos: seq<Todo>, filter: string, action: Action)
    requires action.kind !in {Some(ADD_TODO), Some(TOGGLE_TODO), Some(SET_VISIBILITY_FILTER)}
    ensures Combined(TodoAppReducers(), Some(AppState(todos, filter)), action) == AppState(todos, filter)
  {
  }

  /** The list after adding "Learn" (id 0) and "Shop" (id 1) to an empty one. */
  lemma AddTwo()
    ensures TodosReducer(Some(TodosReducer(Some([]), AddTodo(0, "Learn"))), AddTodo(1, "Shop"))
         == [Todo(0, "Learn", false), Todo(1, "Shop", false)]
  {
  }

  /** Toggling id 1 in that list completes "Shop" only. */
  lemma ToggleShop()
    ensures TodosReducer(Some([Todo(0, "Learn", false), Todo(1, "Shop", false)]), ToggleTodo(1))
         == [Todo(0, "Learn", false), Todo(1, "Shop", true)]
  {
  }

  /** Of that list, `SHOW_COMPLETED` shows "Shop" alone. */
  lemma ShowCompletedShop()
    ensures GetVisibleTodos([Todo(0, "Learn", false), Todo(1, "Shop", true)], SHOW_COMPLETED)
         == Some([Todo(1, "Shop", true)])
  {
    var done := [Todo(0, "Learn", false), Todo(1, "Shop", true)];
    var last := [Todo(1, "Shop", true)];
    assert done[1..] == last && last[1..] == [];
    assert Sequences.Filter(Completed, last) == last;
    assert Sequences.Filter(Completed, done) == Sequences.Filter(Completed, last);
  }

  /** The `todoApp` states of the session below, one step at a time. */
  lemma SessionSteps()
    ensures Combined(TodoAppReducers(), Some(AppState([], SHOW_ALL)), AddTodo(0, "Learn"))
         == AppState([Todo(0, "Learn", false)], SHOW_ALL)
    ensures Combined(TodoAppReducers(), Some(AppState([Todo(0, "Learn", false)], SHOW_ALL)), AddTodo(1, "Shop"))
         == AppState([Todo(0, "Learn", false), Todo(1, "Shop", false)], SHOW_ALL)
    ensures Combined(TodoAppReducers(), Some(AppState([Todo(0, "Learn", false), Todo(1, "Shop", false)], SHOW_ALL)), ToggleTodo(1))
         == AppState([Todo(0, "Learn", false), Todo(1, "Shop", true)], SHOW_ALL)
    ensures Combined(TodoAppReducers(), Some(AppState([Todo(0, "Learn", false), Todo(1, "Shop", true)], SHOW_ALL)), SetVisibilityFilter(SHOW_COMPLETED))
         == AppState([Todo(0, "Learn", false), Todo(1, "Shop", true)], SHOW_COMPLETED)
  {
    var one := [Todo(0, "Learn", false)];
    var two := [Todo(0, "Learn", false), Todo(1, "Shop", false)];
    var done := [Todo(0, "Learn", false), Todo(1, "Shop", true)];
    TodoAppStep([], SHOW_ALL, AddTodo(0, "Learn"));
    TodoAppStep(one, SHOW_ALL, AddTodo(1, "Shop"));
    AddTwo();
    TodoAppStep(two, SHOW_ALL, ToggleTodo(1));
    ToggleShop();
    TodoAppStep(done, SHOW_ALL, SetVisibilityFilter(SHOW_COMPLETED));
  }

  /**
   * A session on a store built from `todoApp`: it starts empty and showing all;
   * after adding "Learn" and "Shop" and toggling "Shop", the list holds both with
   * only "Shop" completed; after switching to `SHOW_COMPLETED` the visible list
   * is just "Shop".
   */
  method TodoAppSession() returns (initial: map<string, Slice>, toggled: map<string, Slice>, visible: Option<seq<Todo>>)
    ensures initial == AppState([], SHOW_ALL)
    ensures toggled == AppState([Todo(0, "Learn", false), Todo(1, "Shop", true)], SHOW_ALL)
    ensures visible == Some([Todo(1, "Shop", true)])
  {
    var store := new Store(CombineReducers(TodoAppReducers()));
    TodoAppInitial();
    SessionSteps();
    ShowCompletedShop();
    initial := store.GetState();
    var notified := store.Dispatch(AddTodo(0, "Learn"));
    notified := store.Dispatch(AddTodo(1, "Shop"));
    notified := store.Dispatch(ToggleTodo(1));
    toggled := store.GetState();
    notified := store.Dispatch(SetVisibilityFilter(SHOW_COMPLETED));
    var state := store.GetState();
    visible := GetVisibleTodos(state[TODOS].items, state[VISIBILITY_FILTER].mode);
  }
}
