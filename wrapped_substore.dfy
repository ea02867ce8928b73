/**
 * `WrappedSubstore<InputState, WrappedState>`: the same store as `WrappedKeyPathStore`, a
 * non-optional field below a parent with optional state, declared in its own file.
 */
module WrappedSubstores {
  import opened Optionals
  import opened KeyPaths
  import opened Atomics
  import opened Callbacks
  import opened Downstream
  import opened Subscribers
  import opened AnyStores
  import opened WrappedKeyPathStores

  class WrappedSubstore<R(!new), I(!new), W(!new)> {
    const inputStore: AnyOptionalStore<R, I>
    const keyPath: KeyPath<I, W>
    const downstream: DownstreamList
    const subscribers: SubscriberTable<Option<W>>

    /** `init(_:keyPath:)`: empty lists, and this store appended to the parent's `downstream`. */
    constructor (inputStore: AnyOptionalStore<R, I>, keyPath: KeyPath<I, W>)
      modifies inputStore.Downstream()
      ensures this.inputStore == inputStore && this.keyPath == keyPath
      ensures fresh(downstream) && downstream.closures == []
      ensures fresh(subscribers) && subscribers.subscribers == map[] && subscribers.calls == []
      ensures inputStore.Downstream().closures == old(inputStore.Downstream().closures) + [NotifyDownstream(this)]
    {
      this.inputStore := inputStore;
      this.keyPath := keyPath;
      downstream := new DownstreamList([]);
      subscribers := new SubscriberTable();
      new;
      inputStore.AppendDownstream(NotifyDownstream(this));
    }

    function Queue(): QueueId
    {
      inputStore.Queue()
    }

    function StateAt(r: R): Option<W>
    {
      MapOption(inputStore.StateAt(r), keyPath.get)
    }

    /** `state`: `inputStore.state?[keyPath: keyPath]` */
    function State(): Option<W>
      reads inputStore.Cell()
    {
      StateAt(inputStore.Cell().value)
    }

    function Writes(): Focus<R, W>
    {
      OptionalParentWrites(inputStore, keyPath)
    }

    /** `perform(_:)`: as `WrappedKeyPathStore.perform`. */
    method Perform(closure: W -> W)
      modifies inputStore.Cell()
      ensures Performed(inputStore, keyPath, old(inputStore.Cell().value), inputStore.Cell().value, closure)
      ensures inputStore.Wrapped? ==> inputStore.Cell().value == Apply(Writes(), old(inputStore.Cell().value), closure)
      ensures OptionalParentCoherent(inputStore) && OptionalParentLawful(inputStore) && Lawful(keyPath) ==>
        inputStore.Cell().value == Apply(Writes(), old(inputStore.Cell().value), closure) &&
        State() == MapOption(old(State()), closure)
    {
      ghost var before := inputStore.Cell().value;
      match inputStore
      case Wrapped(s) => s.Perform(i => Modify(keyPath, i, closure));
      case Optional(s) => s.Perform(o => Reinserted(keyPath, o, closure));
      if OptionalParentCoherent(inputStore) && OptionalParentLawful(inputStore) && Lawful(keyPath) {
        PerformedReadBack(inputStore, keyPath, before, inputStore.Cell().value, closure);
      }
    }

    method Subscribe(triggerNow: bool, closure: CallbackId) returns (disposable: SubscriberDisposable<Option<W>>)
      modifies subscribers
      ensures fresh(disposable) && disposable.subscribable == subscribers
      ensures subscribers.subscribers == old(subscribers.subscribers)[disposable := closure]
      ensures subscribers.calls == old(subscribers.calls) +
        (if triggerNow then [Call(disposable, closure, State())] else [])
    {
      disposable := subscribers.SubscribeTriggering(triggerNow, closure, State());
    }
  }
}
