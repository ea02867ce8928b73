# Swux in Dafny

Swux is a small Swift state-container library. A root `Store` holds the application state
in an `Atomic` (a value guarded by a serial queue). Derived stores look at part of that
state through key paths:

- `map`, `optionalMap` and `merge` give further `Store`s and `OptionalStore`s;
- the `KeyPathStore` family (key-path, wrapped, substore, read-only and optional read
  stores) reads through a type-erased parent (`AnyStore`) and writes through the
  parent's `perform`.

Dispatching an action on a store mutates the root state at that store's slot, calls the
store's subscribers once each with the mutated state, and then runs the store's
`downstream` closures. Those closures notify the stores derived from it. On top of the
stores sit `Mall` (one optional store per dictionary key), `Box`, `Item` and `Shelf` (an
item held weakly by a box that tells its subscribers when the item is replaced or
changes; it also means to tell them when the item goes away, see Findings), and `Clerk` and `SealedBox` (a clerk's stamp guards an item's access). Two earlier
revisions of the library, `Swux.swift` and `Swux/Store.swift`, are modelled in their own
modules.

How things are represented:

- **Root state.** Every store of a tree shares one root cell (`Atomics.Cell`).
- **Slots.** A store's slot in the root is a `KeyPaths.Focus`. Its `peek` reads the slot
  when every hop on the way is present; its `poke` writes it back.
- **Key paths.** Swift key paths are getter/setter pairs (`KeyPaths.KeyPath`) with the
  get-set, set-get and set-set laws.
- **Closures.** Subscriber closures are identities (`Callbacks.CallbackId`). A ghost log of
  `Call`s records each invocation, and `IsBroadcast` says that one notification round
  called every registered closure exactly once with the same value.
- **Downstream closures** are the `Downstream.Notifier` values they would call.
- **Weak references** are nullable fields. The runtime zeroing them is an explicit method.

## Model

| member | source | states |
|---|---|---|
| Atomics.Cell.constructor | Sources/Swux/Atomic.swift:14-17 | the atomic starts holding the given value on the given queue |
| Atomics.Cell.Access | Sources/Swux/Atomic.swift:25-27 | after `access` the value is the block applied to the value before |
| Downstream.DownstreamList.constructor | Sources/Swux/Store.swift:62-65 | a store's downstream array starts as the closures it is given |
| Downstream.DownstreamList.Append | Sources/Swux/Store.swift:111 | appending adds exactly one closure at the end and keeps the earlier ones in order |
| Callbacks.Broadcast | Sources/Swux/Subscriber.swift:42-44 | the loop over the subscriber dictionary calls every registered closure once, under its own key, with the value, and calls nothing else |
| Callbacks.TokensAppend | Sources/Swux/Subscriber.swift:42-44 | one more call adds exactly its key to the set of keys called so far |
| Callbacks.DistinctTokensCount | Sources/Swux/Subscriber.swift:42-44 | a call log with no repeated key has as many keys as calls |
| Callbacks.BroadcastCallsEachOnce | Sources/Swux/Subscriber.swift:42-44 | a notification round makes exactly as many calls as there are subscribers, reaches each subscriber with its own closure and the value, and never calls one key twice |
| Subscribers.SubscriberTable.constructor | Sources/Swux/Store.swift:57 | a subscriber dictionary starts empty, and nothing has been called |
| Subscribers.SubscriberTable.Subscribe | Sources/Swux/Subscriber.swift:34-38 | `_subscribe` stores the closure under a new disposable that was not a key before, changes no other entry and calls nothing |
| Subscribers.SubscriberTable.SubscribeTriggering | Sources/Swux/Subscribable.swift:19-25 | as `Subscribe`; with `triggerNow` the closure is also called once, with the current value, and otherwise nothing is called |
| Subscribers.SubscriberTable.NotifySubscribers | Sources/Swux/Subscriber.swift:42-44 | `notifySubscribers` leaves the dictionary unchanged and appends one complete broadcast of the value to the call log |
| Subscribers.SubscriberDisposable.constructor | Sources/Swux/Subscriber.swift:25 | a disposable refers back to the dictionary's owner |
| Subscribers.SubscriberDisposable.SubscribableReleased | Sources/Swux/Subscriber.swift:23 | the weak reference becomes nil when the owner goes away |
| Subscribers.SubscriberDisposable.Deinit | Sources/Swux/Subscriber.swift:27-30 | while the owner lives, the disposable's closure, and only it, leaves the dictionary, and nothing is called |
| Subscriptions.Subscribable.constructor | Sources/Swux/Substore.swift:15-16 | both subscriber dictionaries start empty, and the subscribable reads its state from the given root cell through the given reader |
| Subscriptions.Subscribable.Subscribe | Sources/Swux/Subscribable.swift:19-25 | the closure goes into the selected dictionary only, under a fresh subscription key; with `triggerNow` it is called once with the current state first |
| Subscriptions.Subscribable.Notify | Sources/Swux/Subscribable.swift:33-35 | both dictionaries are unchanged, and every closure of the selected one is called once with the state |
| Subscriptions.TriggerCalls | Sources/Swux/Subscription.swift:25-29 | `trigger` makes one call per dictionary that holds this subscription, each to the closure stored there under it and all with the current state; the action dictionary's call comes first |
| Subscriptions.Subscription.constructor | Sources/Swux/Subscription.swift:17 | a subscription refers back to its subscribable |
| Subscriptions.Subscription.SubscribableReleased | Sources/Swux/Subscription.swift:15 | the weak reference becomes nil when the subscribable goes away |
| Subscriptions.Subscription.End | Sources/Swux/Subscription.swift:19-23 | while the subscribable lives, this subscription's key leaves both dictionaries, nothing else changes, and nothing is called |
| Subscriptions.Subscription.Trigger | Sources/Swux/Subscription.swift:25-29 | while the subscribable lives, exactly the calls of `TriggerCalls` are made with the subscribable's own current state, and the dictionaries are unchanged |
| Subscriptions.Subscription.Deinit | Sources/Swux/Subscription.swift:31-33 | after `deinit` the subscription is in neither dictionary |
| Subscriptions.EndTwice | Sources/Swux/Subscription.swift:19-23 | ending twice removes the subscription exactly as ending once does |
| Subscriptions.TriggerAfterEnd | Sources/Swux/Subscription.swift:19-29 | after `end`, `trigger` calls nothing |
| KeyPaths.ModifyOnlyAtPath | Sources/Swux/KeyPathStore.swift:33 | `closure(&state[keyPath: keyPath])` leaves the field holding `closure` of its old value, and nothing outside the field differs |
| KeyPaths.AppendingLawful | Sources/Swux/Store+Map.swift:16-18 | `keyPath.appending(path:)` of two writable key paths is again a lawful writable key path |
| KeyPaths.AppendingReads | Sources/Swux/Store+Map.swift:16-18 | reading through an appended path reads the outer field, then the inner field inside it |
| KeyPaths.AppendingModifies | Sources/Swux/Store+Map.swift:16-18 | mutating through an appended path mutates the inner field inside the outer field |
| KeyPaths.ApplyLaws | Sources/Swux/Store.swift:35-45 | a mutation through a lawful slot changes nothing when the slot is absent; otherwise the slot holds the mutator's result, and no other part of the root differs |
| KeyPaths.ThenLawful | Sources/Swux/Store.swift:106-113 | a traverse composed below a lawful parent slot is a lawful slot of the root |
| KeyPaths.ApplyThen | Sources/Swux/Store.swift:106-113 | mutating through a composed slot is the parent's mutation running the child's mutation; an absent parent slot skips the child entirely |
| KeyPaths.WholeLawful | Sources/Swux/Store.swift:67-70 | a root store's slot, the whole state, obeys the slot laws |
| KeyPaths.FieldLawful | Sources/Swux/Store.swift:115-119 | the field behind a lawful key path is an always-present lawful slot |
| KeyPaths.PresentLawful | Sources/Swux/Store.swift:157-160 | the wrapped value of an optional root is a lawful slot that is absent exactly when the root is nil |
| KeyPaths.OptionalFieldLawful | Sources/Swux/Store.swift:203-216 | an optional field is a lawful slot that is absent while the field is nil |
| KeyPaths.EntryLawful | Sources/Swux/Mall.swift:20-29 | a dictionary entry is a lawful slot, and writing it never adds or removes a key |
| KeyPaths.PlainParentPlainField | Sources/Swux/KeyPathStore.swift:33 | below a plain parent, a plain field is mutated only when the parent's slot is present, and then only that field changes |
| KeyPaths.PlainParentOptionalField | Sources/Swux/Store.swift:205-214 | below a plain parent, a nil optional field means no mutation and no change; otherwise the field is set to the mutated value |
| KeyPaths.OptionalParentPlainField | Sources/Swux/WrappedKeyPathStore.swift:66-78 | below an optional parent, a nil parent means no mutation; a present one is reinserted, still present, with only the field changed |
| Stores.AtomicMapCoherent | Sources/Swux/Store.swift:106-113 | a map whose traverse writes exactly the part its transform reads is a store that reads back what it writes |
| Stores.OptionalAtomicMapCoherent | Sources/Swux/Store.swift:194-201 | the same for `optionalMap`: the mapped store reads nil exactly when its slot is absent |
| Stores.DispatchReadsBack | Sources/Swux/Store.swift:35-45 | after a dispatch, a coherent store's state is the action's mutation of the state before |
| Stores.OptionalDispatchReadsBack | Sources/Swux/Store.swift:35-45 | on an optional store, a dispatch while the state is nil changes nothing; otherwise the state afterwards is the mutated state, non-nil |
| Stores.RanEach | Sources/Swux/Store.swift:39 | `downstream.forEach { $0() }` runs every downstream closure once, in array order |
| Stores.Store.FromAtomic | Sources/Swux/Store.swift:62-65 | a store over an atomic starts with the given downstream closures and no subscribers |
| Stores.Store.RunDownstream | Sources/Swux/Store.swift:39 | the downstream closures run in order and nothing else happens |
| Stores.Store.NotifyDownstream | Sources/Swux/Store.swift:28-31 | `notifyDownstream` calls every subscriber once with the current state and then runs the downstream closures in order |
| Stores.Store.Dispatch | Sources/Swux/Store.swift:35-45 | the action mutates the store's slot. If the slot is present, each subscriber is called once with the mutated state and then the downstream closures run. If it is absent, nothing is notified. Subscribers and downstream are unchanged |
| Stores.Store.DispatchState | Sources/Swux/Store.swift:94-96 | dispatching a state is dispatching `SetAction` of it, and a coherent store then reads that state |
| Stores.Store.DispatchClosure | Sources/Swux/Store.swift:98-100 | dispatching a closure is dispatching `MutateAction` of it, and a coherent store then reads the closure of its old state |
| Stores.Store.Subscribe | Sources/Swux/Store.swift:84-86 | the closure is stored under a new subscription; with `triggerNow` it is called once with the current state |
| Stores.Store.MapWith | Sources/Swux/Store.swift:106-113 | `map(transform:traverse:)` gives a new store over the same root, reading the transform and writing through the traverse below this store's slot; the parent gains exactly one downstream closure that notifies it |
| Stores.Store.Map | Sources/Swux/Store.swift:115-119 | `map(_ keyPath:)` gives a store whose state is the field at the key path, and registers it downstream |
| Stores.Store.OptionalMapWith | Sources/Swux/Store.swift:194-201 | `optionalMap(transform:traverse:)` gives an optional store over the same root and registers it downstream |
| Stores.Store.OptionalMap | Sources/Swux/Store.swift:203-216 | `optionalMap(_ keyPath:)` gives an optional store whose state is the optional field, writing only while the field is non-nil |
| Stores.OptionalStore.FromAtomic | Sources/Swux/Store.swift:152-155 | an optional store over an atomic starts with the given downstream closures and no subscribers |
| Stores.OptionalStore.RunDownstream | Sources/Swux/Store.swift:39 | the downstream closures run in order and nothing else happens |
| Stores.OptionalStore.NotifyDownstream | Sources/Swux/Store.swift:28-31 | every subscriber is called once with the current optional state, then the downstream closures run |
| Stores.OptionalStore.Dispatch | Sources/Swux/Store.swift:35-45 | `OptionalStore.dispatch`: the action runs only while the slot is present; then each subscriber is told the mutated state as non-nil (`notifyMutateState`, line 162) and the downstream closures run; a nil state notifies nobody |
| Stores.OptionalStore.DispatchState | Sources/Swux/Store.swift:184-186 | dispatching a state is dispatching `SetAction` of it; a coherent store that was non-nil then reads that state, and one that was nil is untouched |
| Stores.OptionalStore.DispatchClosure | Sources/Swux/Store.swift:188-190 | dispatching a closure is dispatching `MutateAction` of it; a coherent store that was non-nil then reads the closure of its old state, and one that was nil is untouched |
| Stores.OptionalStore.Subscribe | Sources/Swux/Store.swift:174-176 | the closure is stored under a new subscription; with `triggerNow` it is called once with the current optional state |
| Stores.NewStore | Sources/Swux/Store.swift:67-70 | `Store.init(_ state:)` makes a new root holding the state, whose slot is the whole root, with empty downstream and no subscribers |
| Stores.NewOptionalStore | Sources/Swux/Store.swift:157-160 | `OptionalStore.init(_ state:)` makes a new optional root whose slot is its wrapped value |
| Stores.RootAtomicsCoherent | Sources/Swux/Store.swift:67-70 | root stores, plain and optional, read back what they write and have lawful slots |
| Stores.MappedAtomicsCoherent | Sources/Swux/Store.swift:115-119 | stores made by `map(_ keyPath:)` and `optionalMap(_ keyPath:)` from a coherent, lawful store are coherent and lawful |
| Stores.OptionalMapTraverse | Sources/Swux/Store.swift:205-214 | the traverse returns at once when the field is nil; otherwise the field is nil while the mutator runs and afterwards holds the mutated value; the effect is the optional-field slot's mutation |
| Stores.Merge2 | Sources/Swux/Store.swift:121-127 | a merged store reads the transform of both parents' states over their shared root, and has one downstream closure that notifies both parents in order |
| Stores.Merge3 | Sources/Swux/Store.swift:129-135 | as `Merge2`, for three parents |
| Stores.Merge4 | Sources/Swux/Store.swift:137-143 | as `Merge2`, for four parents |
| AnyStores.AnyStore.Perform | Sources/Swux/AnyStore.swift:22 | a type-erased parent's `perform` runs the mutator through the parent's slot of the root |
| AnyStores.AnyStore.AppendDownstream | Sources/Swux/KeyPathStore.swift:20 | `appendDownstream` adds exactly the given closure at the end of the parent's downstream array |
| AnyStores.AnyOptionalStore.AppendDownstream | Sources/Swux/WrappedKeyPathStore.swift:17-22 | either case appends exactly the closure to the wrapped parent's downstream array |
| AnyStores.AnyGenericStore.AppendDownstream | Sources/Swux/OptionalReadOnlyStore.swift:24-29 | either case appends exactly the closure to the wrapped parent's downstream array |
| KeyPathStores.FieldWritesReadBack | Sources/Swux/KeyPathStore.swift:32-33 | through a coherent, lawful parent, a `perform` reads back as the closure applied to the field, and the root changes nowhere else |
| KeyPathStores.KeyPathStore.constructor | Sources/Swux/KeyPathStore.swift:17-21 | the new store has empty downstream and subscribers, and the parent's downstream gains exactly one closure notifying it |
| KeyPathStores.KeyPathStore.Perform | Sources/Swux/KeyPathStore.swift:33 | the parent runs the closure on the field at the key path; over a coherent, lawful parent the state afterwards is the closure of the state before |
| KeyPathStores.KeyPathStore.Subscribe | Sources/Swux/KeyPathStore.swift:41-43 | the closure is stored under a new subscription; with `triggerNow` it is called once with the current state |
| KeyPathStores.AsAnyStoreCoherent | Sources/Swux/KeyPathStore.swift:30-34 | a key-path store over a coherent, lawful parent is itself a coherent, lawful parent for further stores |
| WrappedKeyPathStores.Reinserted | Sources/Swux/WrappedKeyPathStore.swift:69-76 | the `.optional` branch leaves a nil parent state nil, and otherwise runs the closure on the field of the present state |
| WrappedKeyPathStores.ClearAndReinsert | Sources/Swux/WrappedKeyPathStore.swift:70-76 | the branch returns at once on nil; otherwise the parent state is nil while the closure runs and afterwards holds the mutated copy |
| WrappedKeyPathStores.ReinsertedWrites | Sources/Swux/WrappedKeyPathStore.swift:69-76 | the clear-and-reinsert branch writes exactly where the field slot inside the parent's wrapped value lies |
| WrappedKeyPathStores.PerformedReadBack | Sources/Swux/WrappedKeyPathStore.swift:66-78 | for either kind of parent, `perform` leaves a nil state nil and applies the closure to a present one |
| WrappedKeyPathStores.WrappedKeyPathStore.constructor | Sources/Swux/WrappedKeyPathStore.swift:45-49 | the new store has empty lists, and the parent's downstream gains exactly one closure notifying it |
| WrappedKeyPathStores.WrappedKeyPathStore.Perform | Sources/Swux/WrappedKeyPathStore.swift:66-78 | the branch matching the parent's case runs; over a coherent, lawful parent a nil state stays nil and a present one has the closure applied |
| WrappedKeyPathStores.WrappedKeyPathStore.Subscribe | Sources/Swux/WrappedKeyPathStore.swift:86-88 | the closure is stored under a new subscription; with `triggerNow` it is called once with the current optional state |
| WrappedKeyPathStores.AsAnyStoreCoherent | Sources/Swux/WrappedKeyPathStore.swift:62-79 | a wrapped key-path store over a coherent, lawful parent is a coherent, lawful `.wrapped` parent |
| WrappedStateActions.MutateWrapped | Sources/Swux/WrappedStateAction.swift:14-19 | `mutate` leaves nil alone; otherwise the state is nil while `mutateWrapped` runs and afterwards holds its result; as an `Action`, this is its mutation of the optional state |
| WrappedSubstores.WrappedSubstore.constructor | Sources/Swux/WrappedSubstore.swift:45-49 | the new store has empty lists, and the parent's downstream gains exactly one closure notifying it |
| WrappedSubstores.WrappedSubstore.Perform | Sources/Swux/WrappedSubstore.swift:68-80 | the same two-case mutation as the wrapped key-path store, with the same read-back |
| WrappedSubstores.WrappedSubstore.Subscribe | Sources/Swux/WrappedSubstore.swift:92-94 | the closure is stored under a new subscription; with `triggerNow` it is called once with the current optional state |
| Substores.Substore.constructor | Sources/Swux/Substore.swift:18-22 | the substore keeps the parent's `notifyUpstream` as its upstream, starts with two empty dictionaries, and does not change the parent |
| Substores.Substore.Perform | Sources/Swux/Substore.swift:36 | the parent runs the closure on the field; over a coherent, lawful parent the state afterwards is the closure of the state before |
| Substores.Substore.Subscribe | Sources/Swux/Substore.swift:52-54 | the closure goes into `actionSubscribers` only; with `triggerNow` it is called once first |
| Substores.Substore.SubscribeToDownstreamStateChanges | Sources/Swux/Substore.swift:48-50 | the closure goes into `upstreamSubscribers` only; with `triggerNow` it is called once first |
| OptionalSubstores.OptionalSubstore.constructor | Sources/Swux/OptionalSubstore.swift:18-22 | the substore keeps the parent's `notifyUpstream`, starts with two empty dictionaries, and does not change the parent |
| OptionalSubstores.OptionalSubstore.Perform | Sources/Swux/OptionalSubstore.swift:42-54 | the closure runs on the optional field only while the parent's state is present; read back, a nil parent leaves the state nil and otherwise the state is the closure of the state before |
| OptionalSubstores.PerformRunsOnOptionalField | Sources/Swux/OptionalSubstore.swift:42-54 | while the parent's state is present, the closure runs on the optional field itself, nil or not, and the parent then holds the field set to what it returned; while the parent is nil the root is unchanged |
| OptionalSubstores.OptionalSubstore.Subscribe | Sources/Swux/OptionalSubstore.swift:66-68 | the closure goes into `actionSubscribers` only; with `triggerNow` it is called once first |
| OptionalSubstores.OptionalSubstore.SubscribeToDownstreamStateChanges | Sources/Swux/OptionalSubstore.swift:62-64 | the closure goes into `upstreamSubscribers` only; with `triggerNow` it is called once first |
| ReadStores.ReadStore.constructor | Sources/Swux/ReadStore.swift:11-23 | the store keeps the parent's `notifyUpstream`, starts with two empty dictionaries, and does not change the parent |
| ReadStores.ReadStore.Subscribe | Sources/Swux/ReadStore.swift:36-38 | the closure goes into `actionSubscribers` only; with `triggerNow` it is called once with the state read through the key path |
| ReadOnlyStores.ReadOnlyStore.constructor | Sources/Swux/ReadOnlyStore.swift:11-22 | the store starts with empty lists, and the parent's downstream gains exactly one closure notifying it |
| ReadOnlyStores.ReadOnlyStore.Subscribe | Sources/Swux/ReadOnlyStore.swift:39-41 | the closure is stored under a new subscription; with `triggerNow` it is called once with the current state |
| OptionalReadStores.OptionalReadStore.constructor | Sources/Swux/OptionalReadStore.swift:16-28 | the store keeps the parent's `notifyUpstream`, starts with two empty dictionaries, and does not change the parent |
| OptionalReadStores.OptionalReadStore.Subscribe | Sources/Swux/OptionalReadStore.swift:61-63 | the closure goes into `actionSubscribers` only; with `triggerNow` it is called once first |
| OptionalReadStores.OptionalReadStore.SubscribeToDownstreamStateChanges | Sources/Swux/OptionalReadStore.swift:57-59 | the closure goes into `upstreamSubscribers` only; with `triggerNow` it is called once first |
| OptionalReadStores.WithSimplePath | Sources/Swux/OptionalReadStore.swift:31-33 | a plain key path is stored as `.simple`, and the store is nil exactly when the parent is, and otherwise holds the field |
| OptionalReadStores.WithOptionalPath | Sources/Swux/OptionalReadStore.swift:35-37 | a key path to an optional is stored as `.optional`, and the store is nil when the parent or the field is |
| OptionalReadOnlyStores.OptionalReadOnlyStore.constructor | Sources/Swux/OptionalReadOnlyStore.swift:43-47 | the store starts with empty lists, and the parent, whichever case it is, gains exactly one downstream closure notifying it |
| OptionalReadOnlyStores.OptionalReadOnlyStore.Subscribe | Sources/Swux/OptionalReadOnlyStore.swift:90-92 | the closure is stored under a new subscription; with `triggerNow` it is called once with the current optional state |
| OptionalReadOnlyStores.FromStoreWithSimplePath | Sources/Swux/OptionalReadOnlyStore.swift:51-53 | a plain parent and a plain path select `.simple` and `.simple`, and the parent registers the new store downstream |
| OptionalReadOnlyStores.FromWrappedStoreWithSimplePath | Sources/Swux/OptionalReadOnlyStore.swift:55-57 | a parent mutated through its wrapped value and a plain path select `.optional(.wrapped)` and `.simple` |
| OptionalReadOnlyStores.FromOptionalStoreWithSimplePath | Sources/Swux/OptionalReadOnlyStore.swift:59-61 | a parent mutated as an optional and a plain path select `.optional(.optional)` and `.simple` |
| OptionalReadOnlyStores.FromStoreWithOptionalPath | Sources/Swux/OptionalReadOnlyStore.swift:63-65 | a plain parent and a path to an optional select `.simple` and `.optional` |
| OptionalReadOnlyStores.FromWrappedStoreWithOptionalPath | Sources/Swux/OptionalReadOnlyStore.swift:67-69 | a parent mutated through its wrapped value and a path to an optional select `.optional(.wrapped)` and `.optional` |
| OptionalReadOnlyStores.FromOptionalStoreWithOptionalPath | Sources/Swux/OptionalReadOnlyStore.swift:71-73 | a parent mutated as an optional and a path to an optional select `.optional(.optional)` and `.optional` |
| OptionalReadOnlyStores.SeesPlainParentWrite | Sources/Swux/OptionalReadOnlyStore.swift:77-82 | below a plain parent that reads what it writes, the store reads, through its path, the parent's state as the parent's `perform` left it |
| OptionalReadOnlyStores.SeesWrappedParentWrite | Sources/Swux/OptionalReadOnlyStore.swift:77-82 | below a `.wrapped` parent, a `perform` while the parent is nil leaves the store reading nil, and otherwise the store reads through the mutated state |
| OptionalReadOnlyStores.SeesOptionalParentWrite | Sources/Swux/OptionalReadOnlyStore.swift:77-82 | below an `.optional` parent, the store reads through whatever the parent's `perform` made of its optional state |
| StoreMaps.AsAnyStoreCoherent | Sources/Swux/AnyStore.swift:18-24 | a store that reads back what it writes erases to a coherent parent |
| StoreMaps.KeyPathSubscript | Sources/Swux/Store+Map.swift:10-12 | `store[keyPath:]` gives a key-path store over this store, reading the field, registered in this store's downstream |
| StoreMaps.ReRoot | Sources/Swux/Store+Map.swift:16-18 | a key-path store's subscript builds the child on its own parent with the appended path; the child reads the field of this store's state and registers in the parent's downstream |
| StoreMaps.ReRootEquivalent | Sources/Swux/Store+Map.swift:16-18 | a store on the appended path reads and writes exactly what a store on the inner path below the outer store would |
| StoreMaps.ReRootCoherent | Sources/Swux/Store+Map.swift:16-18 | a re-rooted store over a coherent, lawful parent with lawful paths is itself coherent and lawful |
| StoreSubscripts.ReadOnlySubscript | Sources/Swux/Store+Subscript.swift:10-12 | a read-only path gives a read-only store of the field, registered in the parent's downstream (also lines 40-42) |
| StoreSubscripts.OptionalPathSubscript | Sources/Swux/Store+Subscript.swift:14-16 | a read-only path to an optional gives an optional read-only store over the parent taken as plain, nil exactly when the field is (also lines 22-24, 44-46, 52-54) |
| StoreSubscripts.PlainPathOnOptionalSubscript | Sources/Swux/Store+Subscript.swift:18-20 | a plain read-only path from an optional state gives a store that is never nil (also lines 48-50) |
| StoreSubscripts.WrappedSubscript | Sources/Swux/Store+Subscript.swift:30-32 | a writable path into the wrapped state gives a wrapped key-path store over the parent as an `.optional` parent, nil exactly when the parent is (also lines 60-62) |
| StoreSubscripts.WrappedReadOnlySubscript | Sources/Swux/Store+Subscript.swift:70-72 | a read-only path on a wrapped key-path store gives an optional read-only store rooted at it, nil exactly when it is |
| StoreSubscripts.WrappedOptionalPathSubscript | Sources/Swux/Store+Subscript.swift:74-76 | a read-only path to an optional on a wrapped key-path store is nil when the store or the field is |
| StoreSubscripts.WrappedReRoot | Sources/Swux/Store+Subscript.swift:78-80 | a writable path on a wrapped key-path store re-roots at its parent with the appended path and registers there |
| StoreSubscripts.WrappedReRootEquivalent | Sources/Swux/Store+Subscript.swift:78-80 | re-rooting a wrapped store reads and writes exactly what nesting a key-path store below it would |
| Malls.EntryAtomicCoherent | Sources/Swux/Mall.swift:19-33 | the store for one key of a coherent, lawful dictionary store reads nil exactly when the key is missing, and writes a lawful slot |
| Malls.MallTraverse | Sources/Swux/Mall.swift:20-29 | the traverse returns at once for a missing key; otherwise the entry is absent while the mutator runs and then holds the mutated value; no key is added or removed and no other entry changes |
| Malls.Mall.constructor | Sources/Swux/Mall.swift:13-15 | a mall starts with no cached stores |
| Malls.Mall.Get | Sources/Swux/Mall.swift:17-38 | `mall[key]` returns the cached store for the key if there is one and changes nothing; otherwise it caches and returns a new optional store over the dictionary store's root whose state is the entry under the key |
| Malls.GetTwice | Sources/Swux/Mall.swift:17-38 | asking twice for one key yields the same store |
| Boxes.Box.constructor | Sources/Swux/Box.swift:15-25 | a new box holds no item and has no subscribers |
| Boxes.Box.SetItem | Sources/Swux/Box.swift:16-21 | assigning `item` severs the old item's back reference, and the subscribers are each told the new value (nil for no item) once |
| Boxes.Box.PutItem | Sources/Swux/Box.swift:33-37 | `item(_ value:)` puts a new item holding the value and pointing back at this box into the box, whose value is then the given one; the old item no longer points at the box; subscribers are told the value once each |
| Boxes.Box.ItemWillDeinit | Sources/Swux/Box.swift:41-44 | only the item the box holds counts: its going away tells each subscriber nil once; any other item tells nobody |
| Boxes.Box.Changed | Sources/Swux/Box.swift:48-50 | `changed` tells every subscriber the value once |
| Boxes.Box.ItemReleased | Sources/Swux/Box.swift:16 | the weak `item` becomes nil when the item is deallocated |
| Boxes.Box.Subscribe | Sources/Swux/Shelf.swift:52-55 | the closure is stored under a new disposable, and nothing is called |
| Boxes.Box.SubscribeTriggering | Sources/Swux/Box.swift:54-56 | the closure is stored under a new subscription; with `triggerNow` it is called once with the box's value |
| Boxes.Item.constructor | Sources/Swux/Box.swift:67-70 | an item holds the value and points back at its box |
| Boxes.Item.Access | Sources/Swux/Box.swift:63-65 | `access` mutates the value and tells nobody |
| Boxes.Item.Deinit | Sources/Swux/Box.swift:72-75 | corrected: a dying item tells its box's subscribers nil only when the box still holds it |
| Boxes.Item.DeinitAsWritten | Sources/Swux/Box.swift:72-75 | as written, the weak `item` is already nil when `deinit` asks the box, so the box drops the item and nobody is told anything |
| Boxes.HeldItemDeinitAsWritten | Sources/Swux/Box.swift:41-44 | as written, a box with one subscriber whose item goes away has told that subscriber the item's value once and never nil |
| Boxes.HeldItemDeinit | Sources/Swux/Box.swift:41-44 | corrected, the same steps tell the subscriber nil |
| Boxes.ReplacedItemDeinit | Sources/Swux/Box.swift:33-44 | after a second item replaces the first, the first one's going away tells nobody and the box keeps the second value |
| Shelves.Shelf.constructor | Sources/Swux/Shelf.swift:86-89 | a shelf starts with no boxes |
| Shelves.Shelf.Get | Sources/Swux/Shelf.swift:93-102 | `shelf[key]` returns the box stored under the key, or else stores and returns a new empty box; different keys never share a box |
| Shelves.Shelf.PutItem | Sources/Swux/Shelf.swift:104-106 | `item(_ value:)` puts a new item into the box of the value's key, making the box if there is none; that box keeps its subscribers and tells them the value once each, and its old item no longer points at it; every other box keeps its item, value, subscribers and calls |
| Shelves.Shelf.PutInto | Sources/Swux/Shelf.swift:104-106 | for a box already on the shelf: it holds the new item, its subscribers are told the value once each, and every other box is unchanged |
| Clerks.Item.constructor | Sources/Swux/Item.swift:19-22 | the corrected initialiser stores both back references, and the item starts unstamped |
| Clerks.Item.AsWritten | Sources/Swux/Item.swift:19-22 | the initialiser as written stores the box but leaves the sealed box nil whatever it is given |
| Clerks.Item.Deinit | Sources/Swux/Item.swift:24-27 | a dying stamped item tells its box nothing, because a box only ever holds the items it made itself |
| Clerks.Item.AccessStamped | Sources/Swux/Item.swift:31-37 | corrected `access(stamp:)`: the value is mutated, the stamp is recorded, and the box and then the sealed box tell their subscribers the new value |
| Clerks.Item.AccessStampedAsWritten | Sources/Swux/Item.swift:31-37 | `access(stamp:)` as written mutates and notifies but leaves the stamp nil, so the guard at line 32 never fires |
| Clerks.Item.Notify | Sources/Swux/Item.swift:34-36 | the box is told the new value, wrapped as non-nil, then the sealed box is told it |
| Clerks.Item.StampReleased | Sources/Swux/Item.swift:17 | the weak stamp becomes nil when the clerk's stamp goes away, and nothing else changes |
| Clerks.SealedBox.constructor | Sources/Swux/SealedBox.swift:21-24 | a sealed box starts with an item holding the value and pointing back at it, unstamped, with no subscribers |
| Clerks.SealedBox.PutItemStamped | Sources/Swux/SealedBox.swift:28-34 | with the corrected initialiser, `item(_:stamp:)` records the stamp and puts in a new item that points back at the sealed box |
| Clerks.SealedBox.PutItemStampedAsWritten | Sources/Swux/SealedBox.swift:28-34 | as written, the new item does not point back at the sealed box |
| Clerks.SealedBox.Changed | Sources/Swux/SealedBox.swift:15-18 | `changed` tells every subscriber the value once |
| Clerks.SealedBox.Subscribe | Sources/Swux/SealedBox.swift:38-40 | the closure is stored under a new subscription; with `triggerNow` it is called once with the sealed box's value |
| Clerks.SealedBox.StampReleased | Sources/Swux/SealedBox.swift:19 | the weak stamp becomes nil, and the item is kept |
| Clerks.Clerk.constructor | Sources/Swux/Clerk.swift:17-21 | a clerk starts inactive, with no callbacks |
| Clerks.Clerk.ShouldNotifyBox | Sources/Swux/Clerk.swift:24-27 | a live box gets, or keeps, exactly one callback under its own identity; a nil box changes nothing |
| Clerks.Clerk.ShouldNotifySealedBox | Sources/Swux/Clerk.swift:29-36 | a live sealed box gets, or keeps, exactly one callback under its own identity; a nil one changes nothing |
| Clerks.Clerk.ItemInSealedBox | Sources/Swux/Clerk.swift:43-46 | as written, only an active clerk may put an item in a sealed box; the sealed box then carries the clerk's stamp and the new item, which does not point back at it |
| Clerks.Clerk.ItemInSealedBoxCorrected | Sources/Swux/Clerk.swift:43-46 | corrected, with the initialiser that stores its `sealedBox`: the same, and the new item points back at the sealed box |
| Clerks.Clerk.Access | Sources/Swux/Clerk.swift:53-58 | corrected, over the corrected `access(stamp:_:)`: an active clerk changes the item once under its stamp, the item's boxes are told, and the clerk keeps one callback for each of them and for no other new key |
| Clerks.Clerk.AccessAsWritten | Sources/Swux/Clerk.swift:53-58 | as written, an active clerk's access mutates the item and stores the same callbacks, but the item is left unstamped |
| Clerks.ClerkCallbacksAfter | Sources/Swux/Clerk.swift:56-57 | after an access the callbacks hold an entry for the item's box and its sealed box, and every other entry is as before |
| Clerks.ReissuedAccessAsWritten | Sources/Swux/SealedBox.swift:28-34 | as written, changing an item that a clerk put in a sealed box changes the sealed box's value but tells none of its subscribers |
| Clerks.ReissuedAccess | Sources/Swux/SealedBox.swift:28-34 | corrected, the same steps tell every subscriber of the sealed box the new value once |
| Clerks.AccessTwiceAsWritten | Sources/Swux/Item.swift:31-37 | as written, two stamped accesses to one item both go through, and the item is still unstamped |
| FirstSwux.AnySubscriber.constructor | Swux.swift:88-92 | an `AnySubscriber` captures the subscribing object |
| FirstSwux.AnySubscriber.TargetReleased | Swux.swift:89-91 | the weak capture becomes nil when the subscriber is deallocated |
| FirstSwux.DeliveriesReachLiveSubscribers | Swux.swift:51 | one assignment of the state tells every live subscriber the new state and tells nobody else |
| FirstSwux.DeliveriesFollowLive | Swux.swift:51 | one assignment makes exactly one call per live subscriber, in array order, each with the new state |
| FirstSwux.LiveAppend | Swux.swift:60 | filtering one more subscriber at the end keeps what the shorter list kept, and the new one if it is live |
| FirstSwux.Live | Swux.swift:60 | `filter { !$0.released() }` keeps exactly the live subscribers |
| FirstSwux.KeptAsWritten | Swux.swift:65 | the filter as written keeps exactly the live subscribers that are the one being removed |
| FirstSwux.Without | Swux.swift:65 | the intended filter keeps exactly the live subscribers other than the one being removed |
| FirstSwux.Store.constructor | Swux.swift:55 | a store starts with the state and no subscribers |
| FirstSwux.Store.SetState | Swux.swift:49-52 | the setter stores the value and then tells each live subscriber the new state, in array order |
| FirstSwux.Store.Subscribe | Swux.swift:59-62 | released subscribers are dropped and the new one is added last |
| FirstSwux.Store.UnsubscribeAsWritten | Swux.swift:64-67 | `unsubscribe` as written keeps only the subscriber being removed |
| FirstSwux.Store.Unsubscribe | Swux.swift:64-67 | corrected, every live subscriber other than the removed one stays, and the removed one is gone |
| FirstSwux.Store.Dispatch | Swux.swift:71-73 | `dispatch` sets the state to the action's mutation of it, which tells the subscribers |
| FirstSwux.UnsubscribeCounterexample | Swux.swift:64-67 | with two subscribers, unsubscribing the first leaves exactly the first, and the next state goes only to it |
| FirstSwux.UnsubscribeExample | Swux.swift:64-67 | corrected, the same steps leave exactly the second subscriber, and the next state goes only to it |
| FirstSwux.CounterExample | Swux.swift:108-110 | the example store at zero, incremented then decremented, is back at zero |
| EarlySwux.Store.constructor | Swux/Store.swift:17-19 | a store starts with the state and no subscribers |
| EarlySwux.Store.Subscribe | Swux/Store.swift:38-43 | the subscriber's closure is stored under a new disposable and not called |
| EarlySwux.Store.Dispatch | Swux/Store.swift:47-56 | in either mode the action mutates the state and then every subscriber is told the result once |
| EarlySwux.DispatchTwice | Swux/Store.swift:47-56 | two dispatches compose their mutations and call each subscriber twice in total |

## Left out

- Queues and main-thread hops are not modelled: `onQueue`, `onMain`, `wrap` and every `on queue:` parameter. The sync and async dispatch modes therefore behave the same, and `accessAsync` (Sources/Swux/Atomic.swift) is the same as `access`.
- Concurrency and the timing of weak-reference zeroing are not modelled. The runtime's zeroing is an explicit method that a caller invokes.
- Closures are not modelled as code. Subscriber closures are identities whose calls are logged, and downstream closures are the notifications they would send.
- Dispatch on the `KeyPathStore` family is not modelled, including `Substore.dispatch` and `trigger`. The `_StoreProtocol` extension that defines them is not part of this model. Only `perform`, which they write through, is modelled.
- `AtomicMap`, `OptionalAtomicMap` and `AtomicMerge2/3/4` are not part of this model. A mapped store's atomic is modelled as a focus on the shared root, and a merged store's write slot is a parameter (`writes`) of `Merge2`/`Merge3`/`Merge4`.
- The Swift declarations of `SetAction` and `MutateAction` are not part of this model. They are the `Stores.Action` cases of the same names, and `Stores.Mutate` gives them the meaning their uses at Sources/Swux/Store.swift:94-100 imply: replace the state, or run the closure on it.
- `Box` and `Item` are each declared twice, in Sources/Swux/Box.swift and in Sources/Swux/Shelf.swift. Both copies are modelled once, as `Boxes.Box` and `Boxes.Item`; only the Shelf.swift `subscribe` differs (no `triggerNow`, a `Disposable` result) and is `Boxes.Box.Subscribe`. The stamped `Item` of Sources/Swux/Item.swift is `Clerks.Item`.
- Stores.Merge2, Stores.Merge3, Stores.Merge4: only merges of stores over one shared root cell are modelled. Swift's `merge` also combines stores over different roots, through `AtomicMerge2/3/4`, and that case is not captured.
- Swift's `WritableKeyPath` laws are assumed, not proved. The read-back contracts of `Perform` and `Dispatch` hold under `Lawful` premises on the key paths involved.
- `OptionalKeyPathStore` is not modelled, because its body is commented out. Neither are the subscripts that produce it (Sources/Swux/Store+Subscript.swift:34-36, 64-66, 82-84, 88-102).
- The `Store` subscript at Sources/Swux/Store+Subscript.swift:26-28 has no member of its own. It is the same as Sources/Swux/Store+Map.swift:10-12, which `StoreMaps.KeyPathSubscript` models.
- The subscripts at Sources/Swux/Store+Subscript.swift:22-24 and 40-62 have no members of their own. They do what lines 10-20 and 30-32 and Sources/Swux/Store+Map.swift:16-18 do, and the members for those already take any type-erased parent.
- The `AnyOptionalStore` and `PossiblyOptionalKeyPath` declarations that appear twice are modelled once each.
- The `AnyOptionalStore` extensions in Sources/Swux/WrappedKeyPathStore.swift and Sources/Swux/WrappedSubstore.swift:16-37 give no `_state` or `notifyUpstream`, yet Sources/Swux/OptionalSubstore.swift:21 and 39 use them. `AnyStores.AnyOptionalStore.InternalStateAt` and `AnyStores.AnyOptionalStore.NotifyUpstream` supply what `OptionalSubstore` assumes: in either case, those of the wrapped `AnyStore`.
- The `subscribe` variants that take a subscriber object are not modelled. They differ only in wrapping the object's method as a closure.
- The `triggerNow` form of `_subscribe` on `SubscribableProtocolBase` is not part of this model. `Boxes.Box.SubscribeTriggering` and `Clerks.SealedBox.Subscribe` model it like Sources/Swux/Subscribable.swift:19-25.
- `SealedBox.changed` and `SealedBox.notifySubscribers` come from the `BoxProtocol` extension, which is not part of this model. They are modelled as `Box` does them.
- `Clerk.item(_:in: Box)` and `Clerk.item(_:in: Shelf)` (Sources/Swux/Clerk.swift:38-41, 48-51) are not modelled. They call `Box.item(_:stamp:)`, which no file defines.
- Running a clerk's stored callbacks is not modelled, because no file shows who runs them. The model records which callbacks are stored.
- Clerks.Item.AccessStamped: the broadcasts to the box's and the sealed box's subscribers are stated only when the two subscriber tables are distinct objects (`Separate()`). Dafny cannot otherwise see that tables of different value types never alias.
- Clerks.Item.Notify: its broadcasts are stated only under `Separate()`, for the same reason.
- Clerks.Clerk.Access: the item's broadcasts are stated only under `Separate()`, for the same reason.
- Clerks.Item.AccessStampedAsWritten: its broadcasts to the box's and the sealed box's subscribers are stated only under `Separate()`, for the same reason.
- Clerks.Clerk.AccessAsWritten: the item's broadcasts are stated only under `Separate()`, for the same reason.
- Clerks.Item.AccessStamped, Clerks.Item.AccessStampedAsWritten, Clerks.SealedBox.PutItemStamped, Clerks.SealedBox.PutItemStampedAsWritten, Clerks.Clerk.ItemInSealedBox, Clerks.Clerk.ItemInSealedBoxCorrected, Clerks.Clerk.Access, Clerks.Clerk.AccessAsWritten: the `fatalError` traps (Sources/Swux/Item.swift:32, Sources/Swux/SealedBox.swift:29, Sources/Swux/Clerk.swift:44, 54) are preconditions. A call that would trap is excluded rather than modelled as a crash, and so are the lemmas built on these members.
- FirstSwux.CounterExample: Swift's `Int` overflow trap is not modelled, because the counters are unbounded integers.

## Findings

| source | as written | input that shows it | evidently intended | confidence | as-written member | corrected member |
|---|---|---|---|---|---|---|
| Swux.swift:64-67 | `unsubscribe` keeps the subscribers that are live and equal to the one removed | subscribe two observers, unsubscribe the first: only the first remains and is told the next state | keep every live subscriber other than the one removed | not executed | FirstSwux.Store.UnsubscribeAsWritten, FirstSwux.UnsubscribeCounterexample | FirstSwux.Store.Unsubscribe, FirstSwux.UnsubscribeExample |
| Sources/Swux/Item.swift:19-22 | `init(_:box:sealedBox:)` never stores its `sealedBox` argument | a clerk puts an item into a sealed box through `SealedBox.item(_:stamp:)` (Sources/Swux/SealedBox.swift:28-34), then changes it: the sealed box's subscribers are not told | the item points back at its sealed box, which is told of every change | not executed | Clerks.Item.AsWritten, Clerks.SealedBox.PutItemStampedAsWritten, Clerks.Clerk.ItemInSealedBox, Clerks.ReissuedAccessAsWritten | Clerks.Item.constructor, Clerks.SealedBox.PutItemStamped, Clerks.Clerk.ItemInSealedBoxCorrected, Clerks.ReissuedAccess |
| Sources/Swux/Item.swift:31-37 | `access(stamp:_:)` never sets `stamp`, so its guard at line 32 never fires | two stamped accesses under one clerk stamp: both mutate the value and notify | the first access records the stamp, and later ones under the same stamp are refused | not executed; an item made by `Box.item(_:stamp:)`, which no file defines, might be stamped there | Clerks.Item.AccessStampedAsWritten, Clerks.AccessTwiceAsWritten, Clerks.Clerk.AccessAsWritten | Clerks.Item.AccessStamped, Clerks.Clerk.Access |
| Sources/Swux/Box.swift:72-75 | `deinit` asks the box whether it still holds this item, but the box's `item` is weak and Swift has already made it nil, so the guard at Sources/Swux/Box.swift:42 fails and nil is never sent | a box with one subscriber holds an item, and the item is deallocated: the subscriber is never told nil | the subscribers are told nil when the held item goes away | not executed | Boxes.Item.DeinitAsWritten, Boxes.HeldItemDeinitAsWritten | Boxes.Item.Deinit, Boxes.HeldItemDeinit |
