/**
 * `WrappedStateActionProtocol`: an action on an optional state given by a mutation of
 * the wrapped value. Its `mutate` unwraps, sets the state to nil while the wrapped
 * mutation runs on its own copy, and stores the result.
 */
module WrappedStateActions {
  import opened Optionals
  import opened Atomics
  import opened Stores

  /**
   * `mutate(_:)`, on the optional state it is handed. `during` is the state as it stood
   * while `mutateWrapped` ran, if it ran.
   */
  method MutateWrapped<W(!new)>(state: Cell<Option<W>>, mutateWrapped: W -> W) returns (ghost during: Option<Option<W>>)
    modifies state
    ensures state.value == MapOption(old(state.value), mutateWrapped)
    ensures during.Some? <==> old(state.value).Some?
    ensures during.Some? ==> during.value == None
    ensures state.value == Mutate(WrappedAction(mutateWrapped), old(state.value))
  {
    during := None;
    if state.value.None? {
      return;
    }
    var wrapped := state.value.value;
    state.value := None;
    during := Some(state.value);
    wrapped := mutateWrapped(wrapped);
    state.value := Some(wrapped);
  }

  /** A wrapped-state action as an action on the optional state. */
  function WrappedAction<W(!new)>(mutateWrapped: W -> W): (action: Action<Option<W>>)
    ensures Mutate(action, None) == None
    ensures forall w :: Mutate(action, Some(w)) == Some(mutateWrapped(w))
  {
    CustomAction(o => MapOption(o, mutateWrapped))
  }
}
