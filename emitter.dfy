/**
 * The typed event emitter of src/util/emitter.ts (src/util/index.ts holds an identical copy).
 *
 * Receivers are identified by opaque ids. `Handler(id)` is a function a caller registers with `on`;
 * `Waiter(serial)` is the private one-shot receiver that `next` installs, numbered by the emitter so
 * that each call of `next` gets a fresh one (a fresh closure in the source). The promise returned by
 * `next` is represented by that serial: it is settled once `caught` holds a value for it.
 */
module Emitters {
  import opened Wrappers
  import ManagedPromises

  datatype Receiver = Handler(id: nat) | Waiter(serial: nat)

  /** The `receivers` map: event type to the set of receivers registered for that type. */
  type Registry = map<string, set<Receiver>>

  /** The receivers registered for type `t` (none when `t` has no entry). */
  function Registered(m: Registry, t: string): set<Receiver> {
    if t in m then m[t] else {}
  }

  /** The map after `on(t, r)`: `r` joins the set for `t`, which is created when missing. */
  function Add(m: Registry, t: string, r: Receiver): Registry {
    if t in m then m[t := m[t] + {r}] else m[t := {r}]
  }

  /** The map after `off(t, r)`: unchanged when `t` has no entry; otherwise `r` leaves the set for `t`
      and the entry stays, possibly empty. */
  function Remove(m: Registry, t: string, r: Receiver): Registry {
    if t in m then m[t := m[t] - {r}] else m
  }

  /** The receivers `emit` invokes for an event whose `type` field is `tag` (None: the field is undefined,
      and no entry of the map is keyed by undefined). */
  function Dispatch(m: Registry, tag: Option<string>): set<Receiver> {
    if tag.Some? then Registered(m, tag.value) else {}
  }

  /** The one-shot receivers among `rs`. */
  function Waiters(rs: set<Receiver>): set<Receiver> {
    set r | r in rs && r.Waiter?
  }

  /** The serials of the one-shot receivers among `rs`. */
  function Serials(rs: set<Receiver>): set<nat> {
    set r | r in rs && r.Waiter? :: r.serial
  }

  /** The map after `emit`: every one-shot receiver that fired has taken itself off with `off`. */
  function AfterEmit(m: Registry, tag: Option<string>): Registry {
    if tag.Some? && tag.value in m then m[tag.value := m[tag.value] - Waiters(m[tag.value])] else m
  }

  /** The promises of `next` once the one-shot receivers in `fired` have called `resolve(ev)`; a promise
      that was already settled keeps its value, as a promise's resolver does. */
  function Settle<E>(caught: map<nat, E>, fired: set<Receiver>, ev: E): map<nat, E> {
    map n | n in caught.Keys + Serials(fired) :: if n in caught then caught[n] else ev
  }

  /** The promise `next` returned for serial `n`, read off `caught`: resolved with the caught event, or
      pending. Nothing rejects it. */
  function PromiseOf<E>(caught: map<nat, E>, n: nat): ManagedPromises.Settlement<E, ()> {
    if n in caught then ManagedPromises.Resolved(caught[n]) else ManagedPromises.Pending
  }

  /** `Settle` follows the promise's own first-settlement rule: the promise of every one-shot receiver
      that fired takes one `resolve(ev)` call, and every other promise is unchanged. */
  lemma SettleIsResolve<E>(caught: map<nat, E>, fired: set<Receiver>, ev: E, n: nat)
    ensures PromiseOf(Settle(caught, fired, ev), n) ==
      if Waiter(n) in fired then ManagedPromises.Settle(PromiseOf(caught, n), ManagedPromises.ResolveCall(ev))
      else PromiseOf(caught, n)
  {
  }

  predicate Distinct<T(==)>(s: seq<T>) {
    forall i, j :: 0 <= i < j < |s| ==> s[i] != s[j]
  }

  // ---------------------------------------------------------------------------------------------
  // Properties of the registry operations

  /** `on` registers exactly `r` for `t` and leaves every other type alone; on a type with no entry it
      creates a set holding only `r`. */
  lemma AddRegisters(m: Registry, t: string, r: Receiver, u: string)
    ensures Registered(Add(m, t, r), u) == if u == t then Registered(m, t) + {r} else Registered(m, u)
    ensures t !in m ==> Add(m, t, r)[t] == {r}
    ensures Add(m, t, r).Keys == m.Keys + {t}
  {
  }

  /** Registering the same receiver twice for a type leaves one registration. */
  lemma AddIdempotent(m: Registry, t: string, r: Receiver)
    ensures Add(Add(m, t, r), t, r) == Add(m, t, r)
  {
    assert Add(m, t, r)[t] + {r} == Add(m, t, r)[t];
  }

  /** `off` removes only `r` from `t`: every other type and every other receiver of `t` stays. */
  lemma RemoveIsolated(m: Registry, t: string, r: Receiver, u: string)
    ensures Registered(Remove(m, t, r), u) == if u == t then Registered(m, t) - {r} else Registered(m, u)
    ensures Remove(m, t, r).Keys == m.Keys
  {
  }

  /** `off` on a type that was never registered changes nothing. */
  lemma RemoveUnknown(m: Registry, t: string, r: Receiver)
    requires t !in m
    ensures Remove(m, t, r) == m
  {
  }

  /** `off` undoes an `on` of a receiver that was not yet registered for a type that had an entry. */
  lemma RemoveUndoesAdd(m: Registry, t: string, r: Receiver)
    requires t in m && r !in m[t]
    ensures Remove(Add(m, t, r), t, r) == m
  {
    assert (m[t] + {r}) - {r} == m[t];
  }

  /** After `offAll` the map is empty, so no event reaches anybody. */
  lemma ClearedDispatchesNothing(tag: Option<string>)
    ensures Dispatch(map[], tag) == {}
  {
  }

  // ---------------------------------------------------------------------------------------------
  // Any sequence of registrations, against a reference definition

  /** A registration call on the emitter. */
  datatype Op = On(t: string, r: Receiver) | Off(t: string, r: Receiver) | OffAll

  function Apply(m: Registry, op: Op): Registry {
    match op
    case On(t, r) => Add(m, t, r)
    case Off(t, r) => Remove(m, t, r)
    case OffAll => map[]
  }

  /** The map after a fresh emitter has seen `ops`, in order. */
  function Replay(ops: seq<Op>): Registry
    decreases |ops|
  {
    if ops == [] then map[] else Apply(Replay(ops[..|ops| - 1]), ops[|ops| - 1])
  }

  /** Reference definition: `r` hears type `t` iff the latest call concerning the pair `(t, r)` is an
      `on` and no `offAll` came after it. */
  predicate Subscribed(ops: seq<Op>, t: string, r: Receiver)
    decreases |ops|
  {
    if ops == [] then false
    else match ops[|ops| - 1]
      case On(t', r') => (t' == t && r' == r) || Subscribed(ops[..|ops| - 1], t, r)
      case Off(t', r') => !(t' == t && r' == r) && Subscribed(ops[..|ops| - 1], t, r)
      case OffAll => false
  }

  /** For every sequence of `on`/`off`/`offAll` calls, a following `emit` of type `t` reaches `r` iff
      `r` is subscribed to `t` by the reference definition. */
  lemma {:induction false} ReplayDispatch(ops: seq<Op>, t: string, r: Receiver)
    ensures r in Dispatch(Replay(ops), Some(t)) <==> Subscribed(ops, t, r)
    decreases |ops|
  {
    if ops != [] {
      var prefix := ops[..|ops| - 1];
      ReplayDispatch(prefix, t, r);
      match ops[|ops| - 1]
      case On(t', r') => AddRegisters(Replay(prefix), t', r', t);
      case Off(t', r') => RemoveIsolated(Replay(prefix), t', r', t);
      case OffAll =>
    }
  }

  /** Invoking one more receiver `r` settles at most one more promise, that of `r` if it is a
      one-shot receiver and its promise is still pending. */
  lemma SettleOne<E>(before: map<nat, E>, done: set<Receiver>, r: Receiver, ev: E)
    ensures var c := Settle(before, done, ev);
            Settle(before, done + {r}, ev) == if r.Waiter? && r.serial !in c then c[r.serial := ev] else c
  {
    if r.Waiter? {
      assert Serials(done + {r}) == Serials(done) + {r.serial};
    } else {
      assert Serials(done + {r}) == Serials(done);
    }
  }

  /** The one-shot receiver installed by `next(t)` with a fresh serial `w`: an event of another type does
      not reach it; the first event `ev1` of type `t` resolves its promise with `ev1` and takes it off, so a
      second emit of any type does not reach it and the promise keeps `ev1`. */
  lemma NextFiresOnce<E>(m: Registry, caught: map<nat, E>, t: string, w: nat,
                         other: string, ev1: E, tag2: Option<string>, ev2: E)
    requires forall u :: u in m ==> Waiter(w) !in m[u]
    requires w !in caught && other != t
    ensures Waiter(w) !in Dispatch(Add(m, t, Waiter(w)), Some(other))
    ensures var m1 := Add(m, t, Waiter(w));
            var caught1 := Settle(caught, Dispatch(m1, Some(t)), ev1);
            var m2 := AfterEmit(m1, Some(t));
            && Waiter(w) in Dispatch(m1, Some(t))
            && caught1[w] == ev1
            && Waiter(w) !in Dispatch(m2, tag2)
            && Settle(caught1, Dispatch(m2, tag2), ev2)[w] == ev1
  {
    var m1 := Add(m, t, Waiter(w));
    AddRegisters(m, t, Waiter(w), other);
    AddRegisters(m, t, Waiter(w), t);
    assert Waiter(w) in Dispatch(m1, Some(t));
  }

  // ---------------------------------------------------------------------------------------------

  /** `Emitter<T>`: on/off listeners for eventful objects. `tagOf` reads an event's `type` field. */
  class Emitter<E> {
    const tagOf: E -> Option<string>
    var receivers: Registry
    /** The serial the next call of `next` gives its one-shot receiver. */
    var serial: nat
    /** The value each settled promise of `next` resolved with, by serial. */
    var caught: map<nat, E>

    ghost predicate Valid()
      reads this
    {
      && (forall n :: n in caught ==> n < serial)
      && (forall u, r :: u in receivers && r in receivers[u] && r.Waiter? ==> r.serial < serial)
    }

    constructor (tagOf: E -> Option<string>)
      ensures Valid()
      ensures this.tagOf == tagOf && receivers == map[] && caught == map[] && serial == 0
    {
      this.tagOf := tagOf;
      receivers := map[];
      serial := 0;
      caught := map[];
    }

    /** The settled value of the promise `next` returned with serial `w`, None while it is pending. */
    function Awaited(w: nat): Option<E>
      reads this
    {
      if w in caught then Some(caught[w]) else None
    }

    /** `on(type, receiver)`: returns `this`. Callers hand in their own functions, never the private
        one-shot receiver of `next`. */
    method On(t: string, r: Receiver) returns (self: Emitter<E>)
      requires Valid() && r.Handler?
      modifies this
      ensures Valid() && self == this
      ensures receivers == Add(old(receivers), t, r)
      ensures serial == old(serial) && caught == old(caught)
    {
      if t in receivers {
        receivers := receivers[t := receivers[t] + {r}];
      } else {
        receivers := receivers[t := {r}];
      }
      self := this;
    }

    /** `off(type, receiver)`: returns `this`, or nothing (`undefined`) when `type` has no entry. */
    method Off(t: string, r: Receiver) returns (self: Option<Emitter<E>>)
      requires Valid()
      modifies this
      ensures Valid()
      ensures receivers == Remove(old(receivers), t, r)
      ensures self == if t in old(receivers) then Some(this) else None
      ensures serial == old(serial) && caught == old(caught)
    {
      if t !in receivers {
        return None; // nothing to do
      }
      receivers := receivers[t := receivers[t] - {r}];
      self := Some(this);
    }

    /** `offAll()`: clears every registration; returns `this`. */
    method OffAll() returns (self: Emitter<E>)
      requires Valid()
      modifies this
      ensures Valid() && self == this
      ensures receivers == map[]
      ensures serial == old(serial) && caught == old(caught)
    {
      receivers := map[];
      self := this;
    }

    /** `next(type)`: installs a fresh one-shot receiver for `type` and returns the serial standing for
        its promise, which is pending. */
    method Next(t: string) returns (w: nat)
      requires Valid()
      modifies this
      ensures Valid()
      ensures w == old(serial) && serial == w + 1 && Awaited(w) == None
      ensures forall u :: u in old(receivers) ==> Waiter(w) !in old(receivers)[u]
      ensures receivers == Add(old(receivers), t, Waiter(w))
      ensures caught == old(caught)
    {
      w := serial;
      serial := serial + 1;
      // this.on(type, receiver), with the private one-shot receiver
      receivers := Add(receivers, t, Waiter(w));
    }

    /** Invokes `r`, one of the receivers `fired` for type `t`, after those in `done`; `base` and
        `before` are the registrations and the settled promises as `emit` found them. */
    method Fire(t: string, r: Receiver, ev: E, ghost base: Registry, ghost before: map<nat, E>,
                ghost fired: set<Receiver>, ghost done: set<Receiver>)
      requires Valid() && done <= fired && r in fired && r !in done
      requires receivers == base[t := fired - Waiters(done)]
      requires caught == Settle(before, done, ev)
      modifies this
      ensures Valid() && serial == old(serial)
      ensures receivers == base[t := fired - Waiters(done + {r})]
      ensures caught == Settle(before, done + {r}, ev)
    {
      SettleOne(before, done, r, ev);
      assert Waiters(done + {r}) == Waiters(done) + Waiters({r});
      if r.Waiter? {
        // the one-shot receiver of `next`: resolve(ev), then this.off(type, receiver)
        if r.serial !in caught {
          caught := caught[r.serial := ev];
        }
        receivers := receivers[t := receivers[t] - {r}];
        assert receivers[t] == fired - Waiters(done + {r});
      } else {
        assert Waiters(done + {r}) == Waiters(done);
      }
    }

    /** `emit(event)`: invokes, once each, the receivers registered for the event's type as the set stands
        when `emit` is called, and returns them in invocation order. A one-shot receiver resolves its
        promise with the event and takes itself off. */
    method Emit(ev: E) returns (calls: seq<Receiver>)
      requires Valid()
      modifies this
      ensures Valid()
      ensures Distinct(calls)
      ensures forall r :: r in calls <==> r in Dispatch(old(receivers), tagOf(ev))
      ensures receivers == AfterEmit(old(receivers), tagOf(ev))
      ensures caught == Settle(old(caught), Dispatch(old(receivers), tagOf(ev)), ev)
      ensures serial == old(serial)
    {
      calls := [];
      var tag := tagOf(ev);
      if tag.None? || tag.value !in receivers {
        assert Serials({}) == {};
        return; // nobody will receive this
      }
      var t := tag.value;
      ghost var fired := receivers[t];
      var pending := receivers[t];
      assert fired - pending == {} && Serials({}) == {} && Waiters({}) == {};
      assert fired - Waiters(fired - pending) == fired;
      assert receivers == old(receivers)[t := fired];
      while pending != {}
        invariant Valid()
        invariant pending <= fired
        invariant Distinct(calls)
        invariant forall r :: r in calls <==> r in fired && r !in pending
        invariant receivers == old(receivers)[t := fired - Waiters(fired - pending)]
        invariant caught == Settle(old(caught), fired - pending, ev)
        invariant serial == old(serial)
        decreases pending
      {
        var r :| r in pending;
        ghost var done := fired - pending;
        Fire(t, r, ev, old(receivers), old(caught), fired, done);
        calls := calls + [r];
        pending := pending - {r};
        assert fired - pending == done + {r};
      }
    }
  }
}
