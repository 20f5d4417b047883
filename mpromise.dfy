/**
 * `ManagedPromise` (src/util/mpromise.ts): a promise whose `resolve` and `reject` are exposed to its
 * owner. Its state is a three-state machine, and the first settlement wins, because `resolve` and
 * `reject` are the native resolvers of the wrapped promise.
 */
module ManagedPromises {
  import opened Wrappers

  datatype Settlement<T, R> = Pending | Resolved(value: T) | Rejected(reason: R)

  /** A call of one of the two resolvers. */
  datatype ResolverCall<T, R> = ResolveCall(value: T) | RejectCall(reason: R)

  /** The state after one resolver call: a pending promise settles, a settled one ignores the call. */
  function Settle<T, R>(s: Settlement<T, R>, call: ResolverCall<T, R>): Settlement<T, R> {
    if !s.Pending? then s
    else match call
      case ResolveCall(v) => Resolved(v)
      case RejectCall(r) => Rejected(r)
  }

  /** The state after a sequence of resolver calls, in order. */
  function SettleAll<T, R>(s: Settlement<T, R>, calls: seq<ResolverCall<T, R>>): Settlement<T, R>
    decreases |calls|
  {
    if calls == [] then s else SettleAll(Settle(s, calls[0]), calls[1..])
  }

  /** Once settled, no later call changes the state. */
  lemma {:induction false} SettledStays<T, R>(s: Settlement<T, R>, calls: seq<ResolverCall<T, R>>)
    requires !s.Pending?
    ensures SettleAll(s, calls) == s
    decreases |calls|
  {
    if calls != [] {
      SettledStays(Settle(s, calls[0]), calls[1..]);
    }
  }

  /** Of any sequence of `resolve`/`reject` calls on a pending promise, only the first takes effect. */
  lemma {:induction false} FirstSettlementWins<T, R>(calls: seq<ResolverCall<T, R>>)
    requires calls != []
    ensures SettleAll(Pending, calls) == Settle(Pending, calls[0])
    ensures SettleAll(Pending, calls) == match calls[0]
      case ResolveCall(v) => Resolved(v)
      case RejectCall(r) => Rejected(r)
  {
    SettledStays(Settle(Pending, calls[0]), calls[1..]);
  }

  /** The promise `then(onResolve, onReject)` returns: pending while the wrapped one is, otherwise
      settled by the callback that receives the value or the reason. An omitted `onReject` passes the
      rejection on. */
  function Derived<T, R, V>(s: Settlement<T, R>, onResolve: T -> V, onReject: Option<R -> V>): Settlement<V, R> {
    match s
    case Pending => Pending
    case Resolved(v) => Resolved(onResolve(v))
    case Rejected(r) => if onReject.Some? then Resolved(onReject.value(r)) else Rejected(r)
  }

  /** After `resolve(v)`, `then`'s success callback receives exactly `v`; after `reject(r)`, its failure
      callback receives exactly `r`; before either, `then` stays pending. */
  lemma ThenSeesSettlement<T, R, V>(v: T, r: R, f: T -> V, g: R -> V)
    ensures Derived(Settle(Pending, ResolveCall(v)), f, Some(g)) == Resolved(f(v))
    ensures Derived(Settle(Pending, RejectCall(r)), f, Some(g)) == Resolved(g(r))
    ensures Derived(Pending, f, Some(g)) == Pending
  {
  }

  /** `then` with the identity callback forwards the settled value unaltered. */
  lemma ThenForwards<T, R>(s: Settlement<T, R>)
    ensures Derived(s, (x: T) => x, None) == s
  {
  }

  class ManagedPromise<T, R> {
    var state: Settlement<T, R>

    /** The constructor wraps a fresh promise, which is pending. */
    constructor ()
      ensures state == Pending
    {
      state := Pending;
    }

    /** `resolve(value)` */
    method Resolve(v: T)
      modifies this
      ensures state == Settle(old(state), ResolveCall(v))
      ensures old(state).Pending? ==> state == Resolved(v)
      ensures !old(state).Pending? ==> state == old(state)
    {
      if state.Pending? {
        state := Resolved(v);
      }
    }

    /** `reject(reason)` */
    method Reject(r: R)
      modifies this
      ensures state == Settle(old(state), RejectCall(r))
      ensures old(state).Pending? ==> state == Rejected(r)
      ensures !old(state).Pending? ==> state == old(state)
    {
      if state.Pending? {
        state := Rejected(r);
      }
    }

    /** `then(onResolve, onReject)`, forwarded to the wrapped promise. */
    function Then<V>(onResolve: T -> V, onReject: Option<R -> V>): (d: Settlement<V, R>)
      reads this
      ensures d.Pending? <==> state.Pending?
      ensures state.Resolved? ==> d == Resolved(onResolve(state.value))
      ensures state.Rejected? ==> d == if onReject.Some? then Resolved(onReject.value(state.reason)) else Rejected(state.reason)
    {
      Derived(state, onResolve, onReject)
    }
  }
}
