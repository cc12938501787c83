# A verified model of a hand-rolled Redux core

This project models the state-container core of a small Redux tutorial
application: the pure reducers of a todo list (`todo`, `todos`,
`visibilityFilter`), the selector `getVisibleTodos`, the reducer combinator
`combineReducers`, the `counter` reducer, and the hand-written `createStore`
with its `getState`, `dispatch` and `subscribe`/unsubscribe operations.

- `actions.dfy`: an action object `{type, ...payload}` as a record whose `kind` is
  the `type` property (`None` for `{}`), with typed payload fields.
- `options.dfy`: `Option`, standing for `undefined`; `GetOr` is a default parameter.
- `sequences.dfy`: `Array.prototype.filter` as `Filter`, fully characterised.
- `todos.dfy`: the todo reducers and the selector (`src/index.js`).
- `combine.dfy`: `combineReducers`, with a key-by-key reference definition
  (`Combined`) and the `reduce` loop proved equal to it (`CombinedReduce`).
- `todo_app.dfy`: `todoApp = combineReducers({todos, visibilityFilter})`, its
  initial state, its step on a state of its own shape, and a short session.
- `counter.dfy`: the `counter` reducer (`src/indexCounter.js`).
- `store.dfy`: `createStore` as a class `Store` whose fields are the closure's
  `state` and `listeners`; listeners are opaque tokens, and `Dispatch` returns
  the tokens it notified, in order.

Unsubscribing removes every registration equal to the listener
(`listeners.filter(l => l !== listener)`, src/indexCounter.js:60), so
registering one listener twice and calling one unsubscribe closure removes both
(`Stores.DuplicateSubscription`).

## Model

| member | source | states |
|---|---|---|
| `TodoReducers.TodoReducer` | src/index.js:12-31 | `ADD_TODO` yields `{id, text, completed: false}` from the payload; `TOGGLE_TODO` keeps id and text and flips `completed` exactly when the ids match; any other action returns the item unchanged |
| `TodoReducers.TodosReducer` | src/index.js:37-49 | absent list is `[]`; `ADD_TODO` gives length + 1, the old list as prefix and the new record last; `TOGGLE_TODO` keeps length and order and toggles exactly the items with the action's id; other actions return the list unchanged |
| `TodoReducers.ToggleTwice` | src/index.js:20-27 | toggling the same id twice returns the original list |
| `TodoReducers.TodosExamples` | src/index.js:51-107 | the two commented-out tests: adding to `[]` and toggling id 1 in a two-item list |
| `TodoReducers.VisibilityFilterReducer` | src/index.js:110-117 | absent state is `"SHOW_ALL"`; `SET_VISIBILITY_FILTER` yields the action's filter whatever the prior state; other actions return the prior state |
| `TodoReducers.GetVisibleTodos` | src/index.js:264-275 | defined exactly for the three modes (`None`, i.e. `undefined`, otherwise); `SHOW_ALL` returns the list; `SHOW_COMPLETED`/`SHOW_ACTIVE` return an order-preserving subsequence holding only completed/active items and every such item as often as the list does |
| `TodoReducers.VisiblePartition` | src/index.js:268-271 | the completed and active views have lengths summing to the list length and together hold exactly the list's items |
| `Sequences.Filter` | src/index.js:269-271 | `filter` keeps only elements satisfying the predicate, each such element as often as in the input, as a subsequence of the input |
| `Combine.Combined` | src/index.js:133-144 | the combined state has exactly the keys of the reducer object (none when that object is empty), and under each key that key's reducer applied to `state[key]` |
| `Combine.CombinedReduce` | src/index.js:135-141 | the `reduce` loop over `Object.keys` yields, for each key and only those keys, that key's reducer applied to `state[key]` (absent when `state` is `undefined` or lacks the key), whatever the key order |
| `Combine.CombineReducers` | src/index.js:133-143 | the returned reducer, for every prior state and action, yields exactly the keys of the reducer object and under each key that key's reducer applied to `state[key]` (absent when `state` is `undefined` or lacks the key) |
| `Combine.CombinedUnchanged` | src/index.js:135-140 | for a prior state with exactly the reducer object's keys, when every slice reducer returns its prior slice, the combined reducer returns a state equal to the prior one |
| `TodoApp.TodosSliceReducer` | src/index.js:150 | the `todos` slice always holds a list: `todos` applied to the prior list, or to `undefined` when the slice is absent |
| `TodoApp.FilterSliceReducer` | src/index.js:151 | the `visibilityFilter` slice always holds a mode: `visibilityFilter` applied to the prior mode, or to `undefined` when the slice is absent |
| `TodoApp.TodoAppReducers` | src/index.js:149-152 | the reducer object is well formed with keys `todos` and `visibilityFilter` |
| `TodoApp.TodoAppStep` | src/index.js:149-152 | one `todoApp` step sends the list through `todos` and the mode through `visibilityFilter` and keeps the state's shape |
| `TodoApp.TodoAppInitial` | src/index.js:134-140 | with no prior state, `todoApp` yields `{todos: [], visibilityFilter: "SHOW_ALL"}` |
| `TodoApp.TodoAppIgnoresUnknown` | src/index.js:46-47 | an action no slice reducer recognises leaves a `todoApp` state unchanged (the default branches of `todos` here and of `visibilityFilter` at src/index.js:114-115) |
| `TodoApp.AddTwo` | src/index.js:39-43 | adding "Learn" (0) then "Shop" (1) to `[]` gives both, not completed, in that order |
| `TodoApp.ToggleShop` | src/index.js:44-45 | toggling id 1 completes "Shop" and leaves "Learn" as it was |
| `TodoApp.ShowCompletedShop` | src/index.js:268-269 | `SHOW_COMPLETED` of that list is "Shop" alone |
| `TodoApp.SessionSteps` | src/index.js:149-152 | the `todoApp` state after each of the session's actions: adding "Learn" and "Shop", toggling "Shop", setting `SHOW_COMPLETED` |
| `TodoApp.TodoAppSession` | src/index.js:149-155 | a store built from `todoApp` starts `{todos: [], visibilityFilter: "SHOW_ALL"}`, reaches the two-item list with "Shop" completed, and then shows "Shop" alone under `SHOW_COMPLETED` |
| `Counter.CounterReducer` | src/indexCounter.js:9-18 | absent state is 0; `INCREMENT` adds one, `DECREMENT` subtracts one, any other type leaves the count |
| `Counter.IncrementDecrementInverse` | src/indexCounter.js:11-14 | `DECREMENT` undoes `INCREMENT` and vice versa |
| `Counter.CounterExamples` | src/indexCounter.js:20-34 | the four `expect` checks |
| `Stores.Without` | src/indexCounter.js:60 | the filtered listener list has no entry equal to the removed listener, keeps every other entry as often as before, in order, and adds none |
| `Stores.WithoutAbsent` | src/indexCounter.js:60 | removing a listener that is not registered changes nothing |
| `Stores.WithoutOnly` | src/indexCounter.js:60 | removing the only listener registered (any number of times) empties the list |
| `Stores.WithoutIdempotent` | src/indexCounter.js:59-61 | a second call of an unsubscribe closure made right after the first changes nothing |
| `Stores.Store.constructor` | src/indexCounter.js:48-73 | a new store has no listeners and the state `reducer(undefined, {})`, so its state is defined from then on |
| `Stores.Store.GetState` | src/indexCounter.js:51 | returns the current (defined) state and changes nothing |
| `Stores.Store.Dispatch` | src/indexCounter.js:52-55 | the new state is `reducer(old state, action)`; the listeners are unchanged; every registration present when the dispatch began is notified once, in registration order (a listener registered twice is notified twice) |
| `Stores.Store.Subscribe` | src/indexCounter.js:57-62 | the listener is appended; the state and the earlier listeners are unchanged; the returned closure belongs to this store and that listener |
| `Stores.Store.Unsubscribe` | src/indexCounter.js:59-61 | a closure acts only on the store that issued it; the listener list becomes the old one with every registration of the listener removed; the state is unchanged |
| `Stores.DuplicateSubscription` | src/indexCounter.js:57-61 | a listener subscribed twice is notified twice; after one unsubscribe it is not notified at all |
| `Stores.CounterStore` | src/indexCounter.js:76-79 | `createStore(counter)` reads 0 and, after one `INCREMENT`, 1 |

## Left out

- React and ReactDOM components and rendering (`Link`, `FilterLink`, `Footer`, `Todo`, `TodoLIst`, `AddTodo`, `TodoApp`, `Counter`, `render`): presentation only.
- The library `createStore` imported from `redux` in `src/index.js`: its source is not part of this model; `TodoApp.TodoAppSession` uses the hand-written store of `src/indexCounter.js` in its place.
- Module-level singletons (`store`, `nextTodoId++`), the subscribe/render wiring, `console.log` and the `expect` library: I/O and glue; the test values are kept as lemmas.
- What a listener does when called, including a re-entrant `dispatch`, `subscribe` or unsubscribe from inside a listener: listeners are opaque tokens, so only which were notified, and in what order, is recorded.
- Reference identity: the model works on values, so "the prior state is not mutated", "a fresh top-level object" and "unchanged items keep their references" reduce to equality of values.
- JavaScript dynamic typing: payloads are typed fields of `Action`; the `todoApp` state is a map to a `Slice` sum type, and a slice of the wrong kind is read as absent; a `null` prior state (on which `state[key]` throws) is not modelled.
- TodoReducers.TodoReducer: requires a present item for `TOGGLE_TODO`, because the source reads `state.id` and throws on `undefined`; `todos` never calls it that way.
- Counter.CounterReducer: the count is an unbounded integer, whereas JavaScript numbers are IEEE doubles; past 2^53 `++state` rounds (incrementing 9007199254740992 gives 9007199254740992 again), and a fractional state such as 0.5 is not representable in the model.
- Exceptions thrown by reducers: every reducer given to `combineReducers` or to a store is total, so a dispatch that fails part-way is not modelled.
- Combine.Combined: a JavaScript object is modelled as a plain string map; keys inherited from `Object.prototype` (such as `toString` or `constructor`, which `state[key]` reads through the prototype chain) and the key `__proto__` (whose assignment sets the prototype instead of an own key) are not modelled.
- Combine.CombinedReduce: the same prototype-chain keys and the `__proto__` key are not modelled, for the same reason.
- Combine.CombineReducers: the same prototype-chain keys and the `__proto__` key are not modelled, for the same reason.
