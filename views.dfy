/**
 * What every view of src/ui/base.ts shares: a private emitter exposed as `events`, and events written
 * as object literals that carry a `$case` discriminant. The emitter of src/util/index.ts dispatches on
 * a `type` field, which such a literal does not have.
 */
module Views {
  import opened Wrappers
  import opened Emitters

  /** As written: the `type` field of an event built as `{ $case: ... }` is undefined, whatever the
      event is. */
  function TypeFieldAsWritten<E>(ev: E): Option<string> {
    None
  }

  /** Intended: the event is dispatched under its `$case`. */
  function CaseTag<E>(caseOf: E -> string, ev: E): (tag: Option<string>)
    ensures tag.Some? && tag.value == caseOf(ev)
  {
    Some(caseOf(ev))
  }

  /** As written, a view event reaches no receiver: neither a handler added with `on` nor the one-shot
      receiver of a pending `next`, which keeps waiting and stays registered. */
  lemma {:induction false} ViewEventLostAsWritten<E>(m: Registry, t: string, h: nat, w: nat, caught: map<nat, E>, ev: E)
    requires w !in caught
    ensures var m1 := Add(Add(m, t, Handler(h)), t, Waiter(w));
            Dispatch(m1, TypeFieldAsWritten(ev)) == {} &&
            AfterEmit(m1, TypeFieldAsWritten(ev)) == m1 &&
            w !in Settle(caught, Dispatch(m1, TypeFieldAsWritten(ev)), ev)
  {
    var m1 := Add(Add(m, t, Handler(h)), t, Waiter(w));
    assert Dispatch(m1, None) == {};
    assert Serials({}) == {};
  }

  /** Dispatching on the `$case`, the same event reaches the handler and resolves the pending `next`
      with that event, after which the one-shot receiver is gone and the handler stays. */
  lemma {:induction false} ViewEventDeliveredByCase<E>(m: Registry, caseOf: E -> string, h: nat, w: nat, caught: map<nat, E>, ev: E)
    requires forall u :: u in m ==> Waiter(w) !in m[u]
    requires w !in caught
    ensures var t := caseOf(ev);
            var m1 := Add(Add(m, t, Handler(h)), t, Waiter(w));
            Handler(h) in Dispatch(m1, CaseTag(caseOf, ev)) &&
            Waiter(w) in Dispatch(m1, CaseTag(caseOf, ev)) &&
            Settle(caught, Dispatch(m1, CaseTag(caseOf, ev)), ev)[w] == ev &&
            Handler(h) in Registered(AfterEmit(m1, CaseTag(caseOf, ev)), t) &&
            Waiter(w) !in Registered(AfterEmit(m1, CaseTag(caseOf, ev)), t)
  {
    var t := caseOf(ev);
    var m1 := Add(Add(m, t, Handler(h)), t, Waiter(w));
    AddRegisters(m, t, Handler(h), t);
    AddRegisters(Add(m, t, Handler(h)), t, Waiter(w), t);
    assert Waiter(w) in Waiters(Dispatch(m1, Some(t)));
    assert w in Serials(Dispatch(m1, Some(t)));
  }
}
