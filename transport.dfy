/**
 * The transport base of src/transports/base.ts: the events a transport emits, the case filters
 * `streamCase` and `nextCase` over its incoming message stream, and the abstract transport itself.
 *
 * The stream a transport yields after a consumer subscribes is modelled as the finite sequence of the
 * events emitted since then, in arrival order.
 */
module Transports {
  import opened Wrappers
  import opened Emitters

  /** `TransportEvent<Incoming>` */
  datatype TransportEvent<M> =
    | Connected(peer: Option<string>)
    | Message(peer: Option<string>, message: M)
    | Disconnected(peer: Option<string>, reason: Option<string>)
    | Error

  /** The `type` field of a transport event. */
  function TypeOf<M>(ev: TransportEvent<M>): string {
    match ev
    case Connected(_) => "connected"
    case Message(_, _) => "message"
    case Disconnected(_, _) => "disconnected"
    case Error => "error"
  }

  /** True iff `ev` is a `message` event whose `message.$case` is `c`. */
  predicate IsCase<M>(caseOf: M -> string, c: string, ev: TransportEvent<M>) {
    ev.Message? && caseOf(ev.message) == c
  }

  /** `streamCase($case)`: the `message` events whose `message.$case` matches, in arrival order. */
  function StreamCase<M>(caseOf: M -> string, c: string, events: seq<TransportEvent<M>>): (r: seq<TransportEvent<M>>)
    ensures |r| <= |events|
    ensures forall i :: 0 <= i < |r| ==> r[i].Message? && caseOf(r[i].message) == c
    ensures forall e :: e in r ==> e in events
    decreases |events|
  {
    if events == [] then []
    else if IsCase(caseOf, c, events[0]) then [events[0]] + StreamCase(caseOf, c, events[1..])
    else StreamCase(caseOf, c, events[1..])
  }

  /** `nextCase($case)`: the first matching `message` event; None while none has arrived (the await is
      still pending). */
  function NextCase<M>(caseOf: M -> string, c: string, events: seq<TransportEvent<M>>): (r: Option<TransportEvent<M>>)
    ensures r.Some? ==> r.value in events && IsCase(caseOf, c, r.value)
    decreases |events|
  {
    if events == [] then None
    else if IsCase(caseOf, c, events[0]) then Some(events[0])
    else NextCase(caseOf, c, events[1..])
  }

  /** Filtering a concatenation filters each part: nothing is dropped or reordered across arrivals. */
  lemma {:induction false} StreamCaseAppend<M>(caseOf: M -> string, c: string, a: seq<TransportEvent<M>>, b: seq<TransportEvent<M>>)
    ensures StreamCase(caseOf, c, a + b) == StreamCase(caseOf, c, a) + StreamCase(caseOf, c, b)
    decreases |a|
  {
    if a != [] {
      assert (a + b)[0] == a[0];
      assert (a + b)[1..] == a[1..] + b;
      StreamCaseAppend(caseOf, c, a[1..], b);
    } else {
      assert a + b == b;
    }
  }

  /** Every matching event of the input is yielded, as many times as it arrived; other events never. */
  lemma {:induction false} StreamCaseCounts<M>(caseOf: M -> string, c: string, events: seq<TransportEvent<M>>, e: TransportEvent<M>)
    ensures multiset(StreamCase(caseOf, c, events))[e] == if IsCase(caseOf, c, e) then multiset(events)[e] else 0
    decreases |events|
  {
    if events != [] {
      StreamCaseCounts(caseOf, c, events[1..], e);
      assert events == [events[0]] + events[1..];
    }
  }

  /** Filtering the output of `streamCase(c)` again by `c` yields the same sequence. */
  lemma {:induction false} StreamCaseIdempotent<M>(caseOf: M -> string, c: string, events: seq<TransportEvent<M>>)
    ensures StreamCase(caseOf, c, StreamCase(caseOf, c, events)) == StreamCase(caseOf, c, events)
    decreases |events|
  {
    if events != [] {
      StreamCaseIdempotent(caseOf, c, events[1..]);
      var rest := StreamCase(caseOf, c, events[1..]);
      if IsCase(caseOf, c, events[0]) {
        assert ([events[0]] + rest)[1..] == rest;
      }
    }
  }

  /** `nextCase(c)` is the first element `streamCase(c)` yields. */
  lemma {:induction false} NextCaseIsHead<M>(caseOf: M -> string, c: string, events: seq<TransportEvent<M>>)
    ensures var s := StreamCase(caseOf, c, events);
            NextCase(caseOf, c, events) == if s == [] then None else Some(s[0])
    decreases |events|
  {
    if events != [] {
      NextCaseIsHead(caseOf, c, events[1..]);
    }
  }

  /** Once a matching event has arrived, later arrivals do not change what `nextCase` resolved with. */
  lemma {:induction false} NextCaseSettled<M>(caseOf: M -> string, c: string, a: seq<TransportEvent<M>>, b: seq<TransportEvent<M>>)
    requires NextCase(caseOf, c, a).Some?
    ensures NextCase(caseOf, c, a + b) == NextCase(caseOf, c, a)
    decreases |a|
  {
    assert a != [];
    assert (a + b)[0] == a[0];
    if !IsCase(caseOf, c, a[0]) {
      assert (a + b)[1..] == a[1..] + b;
      NextCaseSettled(caseOf, c, a[1..], b);
    }
  }

  /**
   * A transport: an emitter of transport events plus the state its `connect`/`send`/`disconnect`
   * (abstract in the base class) act on. The transport itself extends `Emitter`; here it owns one.
   */
  class Transport<M> {
    const uri: string
    const emitter: Emitter<TransportEvent<M>>
    var connected: bool
    /** The outgoing messages passed to `send`, in order. */
    var sent: seq<M>

    /** A new transport: not connected, with no listeners. */
    constructor (uri: string)
      ensures this.uri == uri && fresh(emitter) && emitter.Valid()
      ensures emitter.receivers == map[] && emitter.caught == map[]
      ensures forall ev :: emitter.tagOf(ev) == Some(TypeOf(ev))
      ensures !connected && sent == []
    {
      this.uri := uri;
      emitter := new Emitter((ev: TransportEvent<M>) => Some(TypeOf(ev)));
      connected := false;
      sent := [];
    }

    method Connect()
      modifies this
      ensures connected && sent == old(sent)
    {
      connected := true;
    }

    /** Closes the channel; calling it twice, or before connecting, is harmless. */
    method Disconnect()
      modifies this
      ensures !connected && sent == old(sent)
    {
      connected := false;
    }

    method Send(m: M)
      modifies this
      ensures sent == old(sent) + [m] && connected == old(connected)
    {
      sent := sent + [m];
    }
  }
}
