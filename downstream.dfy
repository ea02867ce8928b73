/**
 * The `downstream: [() -> Void]` arrays of the stores. Each closure is named by what it
 * calls; the weak capture of its target is not modelled. A store's array is held in a
 * `DownstreamList` object so that a type-erased parent (`AnyStore.appendDownstream`)
 * can append to it.
 */
module Downstream {

  datatype Notifier =
    /** `{ [weak store] in store?.notifyDownstream() }` */
    | NotifyDownstream(store: object)
    /** `{ [weak store] in store?.notifyUpstream() }`, the `notifyUpstream` of an `AnyStore` */
    | NotifyUpstream(store: object)
    /** `merge`'s closure: `notifyDownstream()` on each parent, in argument order */
    | NotifyEachDownstream(stores: seq<object>)

  class DownstreamList {
    var closures: seq<Notifier>

    constructor (closures: seq<Notifier>)
      ensures this.closures == closures
    {
      this.closures := closures;
    }

    /** `downstream.append(closure)` */
    method Append(closure: Notifier)
      modifies this
      ensures closures == old(closures) + [closure]
    {
      closures := closures + [closure];
    }
  }
}
