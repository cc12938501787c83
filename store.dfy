/**
 * The hand-written `createStore` of `src/indexCounter.js`: a state cell that
 * only `Dispatch` changes, and a list of listeners notified after each change.
 */
module Stores {
  import opened Options
  import opened Actions
  import opened Sequences
  import opened Combine
  import opened Counter

  /**
   * A listener callback, identified by a token. Two registrations of the same
   * function are two entries with the same token.
   */
  type ListenerId = nat

  /**
   * The unsubscribe closure `subscribe` returns: it captures the store it came
   * from and its listener. A value built by hand, such as `Subscription(store, 9)`,
   * acts exactly like the closure that store hands out for listener 9, and changes
   * nothing when 9 is not registered (`WithoutAbsent`).
   */
  datatype Subscription<S> = Subscription(store: Store<S>, listener: ListenerId)

  /**
   * `listeners.filter(l => l !== listener)`: every entry equal to `listener`
   * removed, the others kept in their relative order and number.
   */
  function Without(listeners: seq<ListenerId>, listener: ListenerId): (r: seq<ListenerId>)
    ensures listener !in r
    ensures forall l :: l in r ==> l in listeners
    ensures forall l :: l in listeners && l != listener ==> multiset(r)[l] == multiset(listeners)[l]
    ensures Subsequence(r, listeners)
  {
    Filter((l: ListenerId) => l != listener, listeners)
  }

  /** Removing a listener that is not registered leaves the list as it is. */
  lemma WithoutAbsent(listeners: seq<ListenerId>, listener: ListenerId)
    requires listener !in listeners
    ensures Without(listeners, listener) == listeners
  {
    FilterKeepsAll((l: ListenerId) => l != listener, listeners);
  }

  /** Removing a listener from a list that holds nothing else leaves it empty. */
  lemma {:induction false} WithoutOnly(listeners: seq<ListenerId>, listener: ListenerId)
    requires forall l :: l in listeners ==> l == listener
    ensures Without(listeners, listener) == []
  {
    if listeners != [] {
      assert listeners[0] in listeners;
      forall l | l in listeners[1..] ensures l == listener {
        assert l in listeners;
      }
      WithoutOnly(listeners[1..], listener);
    }
  }

  /** A second call of the same unsubscribe closure changes nothing. */
  lemma WithoutIdempotent(listeners: seq<ListenerId>, listener: ListenerId)
    ensures Without(Without(listeners, listener), listener) == Without(listeners, listener)
  {
    WithoutAbsent(Without(listeners, listener), listener);
  }

  class Store<S> {
    const reducer: Reducer<S>
    /** `let state;`: `None` until the dispatch made by the constructor. */
    var state: Option<S>
    var listeners: seq<ListenerId>

    /** Once the constructor's own dispatch has run, the state is never `undefined`. */
    predicate Valid()
      reads this
    {
      state.Some?
    }

    /** `createStore(reducer)`: no listeners, then one dispatch of `{}`. */
    constructor (reducer: Reducer<S>)
      ensures this.reducer == reducer
      ensures state == Some(reducer(None, Init))
      ensures listeners == []
      ensures Valid()
    {
      this.reducer := reducer;
      state := None;
      listeners := [];
      new;
      var _ := Dispatch(Init);
    }

    /** `getState()`: the current state. */
    method GetState() returns (s: S)
      requires Valid()
      ensures Some(s) == state
    {
      s := state.value;
    }

    /**
     * `dispatch(action)`: replaces the state with `reducer(state, action)`, then
     * calls each listener registered when the pass began, once each, in
     * registration order. The tokens of the listeners called are returned.
     */
    method Dispatch(action: Action) returns (notified: seq<ListenerId>)
      modifies this
      ensures state == Some(reducer(old(state), action))
      ensures listeners == old(listeners)
      ensures notified == old(listeners)
      ensures Valid()
    {
      state := Some(reducer(state, action));
      var snapshot := listeners;
      notified := [];
      var i := 0;
      while i < |snapshot|
        invariant 0 <= i <= |snapshot|
        invariant notified == snapshot[..i]
      {
        notified := notified + [snapshot[i]];
        i := i + 1;
      }
    }

    /** `subscribe(listener)`: appends it and hands back its unsubscribe closure. */
    method Subscribe(listener: ListenerId) returns (unsubscribe: Subscription<S>)
      requires Valid()
      modifies this
      ensures Valid()
      ensures listeners == old(listeners) + [listener]
      ensures state == old(state)
      ensures unsubscribe.store == this && unsubscribe.listener == listener
    {
      listeners := listeners + [listener];
      unsubscribe := Subscription(this, listener);
    }

    /**
     * Calling an unsubscribe closure this store handed out: drops every
     * registration of its listener.
     */
    method Unsubscribe(unsubscribe: Subscription<S>)
      requires Valid() && unsubscribe.store == this
      modifies this
      ensures Valid()
      ensures listeners == Without(old(listeners), unsubscribe.listener)
      ensures state == old(state)
    {
      listeners := Without(listeners, unsubscribe.listener);
    }
  }

  /**
   * Registering one listener twice and calling one of the two unsubscribe
   * closures: the first dispatch calls it twice, the second not at all.
   */
  method DuplicateSubscription<S>(reducer: Reducer<S>, listener: ListenerId)
    returns (first: seq<ListenerId>, second: seq<ListenerId>)
    ensures first == [listener, listener]
    ensures second == []
  {
    var store := new Store(reducer);
    var unsubscribe := store.Subscribe(listener);
    var _ := store.Subscribe(listener);
    first := store.Dispatch(Init);
    store.Unsubscribe(unsubscribe);
    WithoutOnly([listener, listener], listener);
    second := store.Dispatch(Init);
  }

  /**
   * The module-level use of the store: `createStore(counter)` reads 0, and after
   * one `INCREMENT` reads 1.
   */
  method CounterStore() returns (initial: int, incremented: int)
    ensures initial == 0
    ensures incremented == 1
  {
    var store := new Store(CounterReducer);
    initial := store.GetState();
    var _ := store.Dispatch(OfType(INCREMENT));
    incremented := store.GetState();
  }
}
