/**
 * Actions: the plain objects `{type, ...payload}` that are dispatched to a store.
 */
module Actions {
  import opened Options

  const ADD_TODO := "ADD_TODO"
  const TOGGLE_TODO := "TOGGLE_TODO"
  const SET_VISIBILITY_FILTER := "SET_VISIBILITY_FILTER"
  const INCREMENT := "INCREMENT"
  const DECREMENT := "DECREMENT"

  /**
   * An action object. `kind` is its `type` property (`None` when the object has
   * none, as in `{}`); `id`, `text` and `filter` are the payload properties the
   * reducers read. Reducers only look at the payload of the types they handle.
   */
  datatype Action = Action(kind: Option<string>, id: int, text: string, filter: string)

  /** `{type: "ADD_TODO", id, text}` */
  function AddTodo(id: int, text: string): Action {
    Action(Some(ADD_TODO), id, text, "")
  }

  /** `{type: "TOGGLE_TODO", id}` */
  function ToggleTodo(id: int): Action {
    Action(Some(TOGGLE_TODO), id, "", "")
  }

  /** `{type: "SET_VISIBILITY_FILTER", filter}` */
  function SetVisibilityFilter(filter: string): Action {
    Action(Some(SET_VISIBILITY_FILTER), 0, "", filter)
  }

  /** An action with a type and no payload, such as `{type: "INCREMENT"}`. */
  function OfType(kind: string): Action {
    Action(Some(kind), 0, "", "")
  }

  /** The empty object `{}` a store dispatches to itself when it is created. */
  const Init: Action := Action(None, 0, "", "")
}
