/**
 * The session of src/main.ts after the heartbeat has started: the `island_changed` handler that swaps
 * the comms transport on every island assignment, the listeners it wires between the transport, the
 * application view and the heartbeat state (`wantedPosition`, `wantedIsland`), and the heartbeat tick.
 *
 * The handler is a fixed sequence of steps. `Step` names them, `SwapSteps` lists them in order, and the
 * coordinator records each step it takes in a ghost trace. `Holding` reads off a trace which transports
 * still have listeners attached, or are still connected. The lemmas show that at every point of every
 * run whose handlers do not overlap at their `await`s, at most one transport is in either state. The
 * coordinator keeps the trace in agreement with the transports themselves.
 */
module Station {
  import opened Wrappers
  import opened Emitters
  import opened Comms
  import opened Transports
  import opened Archipelago
  import opened ChatViews
  import opened App
  import opened Steps

  /** The ids of the receivers the handler attaches. */
  const ON_MESSAGE: nat := 10
  const LOG_TO_CONSOLE: nat := 11
  const ON_SEND_CHAT: nat := 12
  const ON_TELEPORT: nat := 13
  const ON_REQUEST_PROFILE: nat := 14

  /** The steps of the handler; transports are numbered in the order they are built. */
  datatype Step =
    | ClearAppListeners
    | ClearListeners(k: nat)
    | Disconnect(k: nat)
    | AskJoin
    | Build(k: nat, uri: string)
    | Attach(k: nat, eventType: string)
    | Connect(k: nat)
    | AttachApp(eventType: string)
    | ShowChat
    | ShowPosition

  /** The teardown: clear the application's listeners, then clear the previous transport's listeners
      and disconnect it, if there is one. */
  function Teardown(prev: Option<nat>): seq<Step> {
    [ClearAppListeners] + (if prev.Some? then [ClearListeners(prev.value), Disconnect(prev.value)] else [])
  }

  /** The rewiring: build transport `k`, attach its listeners, connect it, then wire the UI events. */
  function Rewire(k: nat, uri: string): seq<Step> {
    [AskJoin, Build(k, uri), Attach(k, "message"), Attach(k, "disconnected"), Attach(k, "connected"), Connect(k),
     AttachApp("send-chat"), AttachApp("teleport"), AttachApp("request-profile"), ShowChat, ShowPosition]
  }

  /** One run of the handler, replacing transport `prev` (if any) by transport `k` built from `uri`. */
  function SwapSteps(prev: Option<nat>, k: nat, uri: string): seq<Step> {
    Teardown(prev) + Rewire(k, uri)
  }

  /** The steps of a session that received island assignments with these uris, in this order. */
  function History(uris: seq<string>): seq<Step>
    decreases |uris|
  {
    if uris == [] then []
    else
      var n := |uris| - 1;
      History(uris[..n]) + Teardown(if n == 0 then None else Some(n - 1)) + Rewire(n, uris[n])
  }

  /** The transport a step takes up: by attaching a listener (`listeners`) or by connecting it. */
  function Opens(s: Step, listeners: bool): Option<nat> {
    if listeners then (if s.Attach? then Some(s.k) else None)
    else (if s.Connect? then Some(s.k) else None)
  }

  /** The transport a step lets go of: by clearing its listeners (`listeners`) or by disconnecting it. */
  function Closes(s: Step, listeners: bool): Option<nat> {
    if listeners then (if s.ClearListeners? then Some(s.k) else None)
    else (if s.Disconnect? then Some(s.k) else None)
  }

  /** The transports that have listeners attached (`listeners`), or are connected, after `steps`. */
  function Holding(steps: seq<Step>, listeners: bool): set<nat>
    decreases |steps|
  {
    if steps == [] then {}
    else
      var s := steps[|steps| - 1];
      var before := Holding(steps[..|steps| - 1], listeners);
      var kept := if Closes(s, listeners).Some? then before - {Closes(s, listeners).value} else before;
      if Opens(s, listeners).Some? then kept + {Opens(s, listeners).value} else kept
  }

  /** `a` happens before `b` in `s`. */
  predicate Precedes(s: seq<Step>, a: Step, b: Step) {
    exists i, j :: 0 <= i < j < |s| && s[i] == a && s[j] == b
  }

  /** An order inside some steps survives putting other steps in front of them. */
  lemma PrecedesAfter(a: seq<Step>, b: seq<Step>, x: Step, y: Step)
    requires Precedes(b, x, y)
    ensures Precedes(a + b, x, y)
  {
    var i, j :| 0 <= i < j < |b| && b[i] == x && b[j] == y;
    assert (a + b)[|a| + i] == x && (a + b)[|a| + j] == y;
  }

  /** An order inside some steps survives putting other steps after them. */
  lemma PrecedesBefore(a: seq<Step>, b: seq<Step>, x: Step, y: Step)
    requires Precedes(a, x, y)
    ensures Precedes(a + b, x, y)
  {
    var i, j :| 0 <= i < j < |a| && a[i] == x && a[j] == y;
    assert (a + b)[i] == x && (a + b)[j] == y;
  }

  /** The rewiring builds the transport before attaching to it, attaches every listener before it
      connects, and wires the UI events only after the connection. */
  lemma RewireOrder(k: nat, uri: string)
    ensures var r := Rewire(k, uri);
            Precedes(r, Build(k, uri), Attach(k, "message")) &&
            Precedes(r, Attach(k, "message"), Connect(k)) &&
            Precedes(r, Attach(k, "disconnected"), Connect(k)) &&
            Precedes(r, Attach(k, "connected"), Connect(k)) &&
            Precedes(r, Connect(k), AttachApp("send-chat")) &&
            Precedes(r, Connect(k), AttachApp("teleport")) &&
            Precedes(r, Connect(k), AttachApp("request-profile"))
  {
    var r := Rewire(k, uri);
    assert r[1] == Build(k, uri) && r[2] == Attach(k, "message");
    assert r[3] == Attach(k, "disconnected") && r[4] == Attach(k, "connected");
    assert r[5] == Connect(k) && r[6] == AttachApp("send-chat");
    assert r[7] == AttachApp("teleport") && r[8] == AttachApp("request-profile");
  }

  /** The order the handler promises: the application's listeners go first; the previous transport
      loses its listeners before it is disconnected; the new one is built from the island's uri, gets
      its listeners, and only then connects; the UI events are wired only after the connection. */
  lemma SwapOrder(prev: Option<nat>, k: nat, uri: string)
    ensures var s := SwapSteps(prev, k, uri);
            s[0] == ClearAppListeners &&
            (prev.Some? ==> Precedes(s, ClearListeners(prev.value), Disconnect(prev.value))) &&
            Precedes(s, Build(k, uri), Attach(k, "message")) &&
            Precedes(s, Attach(k, "message"), Connect(k)) &&
            Precedes(s, Attach(k, "disconnected"), Connect(k)) &&
            Precedes(s, Attach(k, "connected"), Connect(k)) &&
            Precedes(s, Connect(k), AttachApp("send-chat")) &&
            Precedes(s, Connect(k), AttachApp("teleport")) &&
            Precedes(s, Connect(k), AttachApp("request-profile"))
  {
    var t := Teardown(prev);
    assert SwapSteps(prev, k, uri) == t + Rewire(k, uri);
    assert (t + Rewire(k, uri))[0] == t[0] == ClearAppListeners;
    if prev.Some? {
      assert t[1] == ClearListeners(prev.value) && t[2] == Disconnect(prev.value);
      PrecedesBefore(t, Rewire(k, uri), ClearListeners(prev.value), Disconnect(prev.value));
    }
    RewireOrder(k, uri);
    PrecedesAfter(t, Rewire(k, uri), Build(k, uri), Attach(k, "message"));
    PrecedesAfter(t, Rewire(k, uri), Attach(k, "message"), Connect(k));
    PrecedesAfter(t, Rewire(k, uri), Attach(k, "disconnected"), Connect(k));
    PrecedesAfter(t, Rewire(k, uri), Attach(k, "connected"), Connect(k));
    PrecedesAfter(t, Rewire(k, uri), Connect(k), AttachApp("send-chat"));
    PrecedesAfter(t, Rewire(k, uri), Connect(k), AttachApp("teleport"));
    PrecedesAfter(t, Rewire(k, uri), Connect(k), AttachApp("request-profile"));
  }

  /** `Holding` after one more step. */
  lemma HoldingStep(x: seq<Step>, s: Step, listeners: bool)
    ensures var before := Holding(x, listeners);
            var kept := if Closes(s, listeners).Some? then before - {Closes(s, listeners).value} else before;
            Holding(x + [s], listeners) == if Opens(s, listeners).Some? then kept + {Opens(s, listeners).value} else kept
  {
    assert (x + [s])[..|x|] == x;
  }

  /** Steps that take up only transports in `taken` add at most those to what is held. */
  lemma {:induction false} HoldingGrowth(x: seq<Step>, t: seq<Step>, listeners: bool, taken: set<nat>)
    requires forall i :: 0 <= i < |t| && Opens(t[i], listeners).Some? ==> Opens(t[i], listeners).value in taken
    ensures Holding(x + t, listeners) <= Holding(x, listeners) + taken
    decreases |t|
  {
    if t != [] {
      var n := |t| - 1;
      HoldingGrowth(x, t[..n], listeners, taken);
      assert x + t == (x + t[..n]) + [t[n]];
      HoldingStep(x + t[..n], t[n], listeners);
    } else {
      assert x + t == x;
    }
  }

  /** Steps that let go of nothing keep everything that is held. */
  lemma {:induction false} HoldingKept(x: seq<Step>, t: seq<Step>, listeners: bool)
    requires forall i :: 0 <= i < |t| ==> Closes(t[i], listeners).None?
    ensures Holding(x, listeners) <= Holding(x + t, listeners)
    decreases |t|
  {
    if t != [] {
      var n := |t| - 1;
      HoldingKept(x, t[..n], listeners);
      assert x + t == (x + t[..n]) + [t[n]];
      HoldingStep(x + t[..n], t[n], listeners);
    } else {
      assert x + t == x;
    }
  }

  /** The teardown leaves nothing held when only the previous transport was. */
  lemma TeardownReleases(x: seq<Step>, prev: Option<nat>, listeners: bool)
    requires Holding(x, listeners) <= if prev.Some? then {prev.value} else {}
    ensures Holding(x + Teardown(prev), listeners) == {}
  {
    HoldingStep(x, ClearAppListeners, listeners);
    if prev.Some? {
      var p := prev.value;
      HoldingStep(x + [ClearAppListeners], ClearListeners(p), listeners);
      HoldingStep(x + [ClearAppListeners] + [ClearListeners(p)], Disconnect(p), listeners);
      assert x + Teardown(prev) == x + [ClearAppListeners] + [ClearListeners(p)] + [Disconnect(p)];
    } else {
      assert x + Teardown(prev) == x + [ClearAppListeners];
    }
  }

  /** The rewiring lets go of nothing and takes up only the new transport. */
  lemma RewireOpensOnlyNew(k: nat, uri: string, listeners: bool)
    ensures var r := Rewire(k, uri);
            forall i :: 0 <= i < |r| ==>
              Closes(r[i], listeners).None? && (Opens(r[i], listeners).Some? ==> Opens(r[i], listeners).value == k)
  {
  }

  /** After the rewiring from nothing held, at most the new transport is held. */
  lemma RewireHoldsAtMostNew(y: seq<Step>, k: nat, uri: string, listeners: bool)
    requires Holding(y, listeners) == {}
    ensures Holding(y + Rewire(k, uri), listeners) <= {k}
  {
    RewireOpensOnlyNew(k, uri, listeners);
    HoldingGrowth(y, Rewire(k, uri), listeners, {k});
  }

  /** The rewiring takes up the new transport, and nothing after that lets go of it. */
  lemma RewireHoldsNew(y: seq<Step>, k: nat, uri: string, listeners: bool)
    ensures k in Holding(y + Rewire(k, uri), listeners)
  {
    var r := Rewire(k, uri);
    var at := if listeners then 2 else 5;
    RewireOpensOnlyNew(k, uri, listeners);
    assert Opens(r[at], listeners) == Some(k);
    HoldingStep(y + r[..at], r[at], listeners);
    assert y + r[..at + 1] == (y + r[..at]) + [r[at]];
    HoldingKept(y + r[..at + 1], r[at + 1..], listeners);
    assert y + r == (y + r[..at + 1]) + r[at + 1..];
  }

  /** After the rewiring from nothing held, exactly the new transport is held. */
  lemma RewireTakesNew(y: seq<Step>, k: nat, uri: string, listeners: bool)
    requires Holding(y, listeners) == {}
    ensures Holding(y + Rewire(k, uri), listeners) == {k}
  {
    RewireHoldsAtMostNew(y, k, uri, listeners);
    RewireHoldsNew(y, k, uri, listeners);
  }

  /** A session's steps: those of the sessions before the last assignment, then one swap. */
  lemma HistorySplit(uris: seq<string>)
    requires uris != []
    ensures var n := |uris| - 1;
            History(uris) == (History(uris[..n]) + Teardown(if n == 0 then None else Some(n - 1))) + Rewire(n, uris[n])
  {
  }

  /** After any session whose handlers ran one after another, exactly the newest transport has listeners
      and exactly it is connected. */
  lemma {:induction false} HistoryHoldsNewest(uris: seq<string>, listeners: bool)
    ensures Holding(History(uris), listeners) == if uris == [] then {} else {|uris| - 1}
    decreases |uris|
  {
    if uris != [] {
      var n := |uris| - 1;
      var front := uris[..n];
      var h := History(front);
      HistoryHoldsNewest(front, listeners);
      var prev := if n == 0 then None else Some(n - 1);
      assert |front| == n;
      assert Holding(h, listeners) <= if prev.Some? then {prev.value} else {};
      TeardownReleases(h, prev, listeners);
      RewireTakesNew(h + Teardown(prev), n, uris[n], listeners);
      HistorySplit(uris);
    }
  }

  /** Appending steps in two goes is appending them in one. */
  lemma Associative(a: seq<Step>, b: seq<Step>, c: seq<Step>)
    ensures (a + b) + c == a + (b + c)
  {
  }

  /** One more assignment adds one swap to the session's steps, after which exactly the new
      transport is held. */
  lemma AssignmentExtendsHistory(uris: seq<string>, uri: string)
    ensures var k := |uris|;
            History(uris + [uri]) == History(uris) + SwapSteps(if k == 0 then None else Some(k - 1), k, uri) &&
            Holding(History(uris + [uri]), true) == {k} && Holding(History(uris + [uri]), false) == {k}
  {
    var us := uris + [uri];
    assert us[..|us| - 1] == uris;
    HistorySplit(us);
    var k := |uris|;
    Associative(History(uris), Teardown(if k == 0 then None else Some(k - 1)), Rewire(k, uri));
    HistoryHoldsNewest(us, true);
    HistoryHoldsNewest(us, false);
  }

  /** The trace of one more assignment, as the handler builds it: the teardown, then the rewiring, gives
      the steps of the longer run, with exactly the new transport held. */
  lemma SwapHistory(uris: seq<string>, uri: string)
    ensures var prev := if uris == [] then None else Some(|uris| - 1);
            (History(uris) + Teardown(prev)) + Rewire(|uris|, uri) == History(uris + [uri]) &&
            History(uris + [uri]) == History(uris) + SwapSteps(prev, |uris|, uri) &&
            Holding(History(uris + [uri]), true) == {|uris|} && Holding(History(uris + [uri]), false) == {|uris|}
  {
    var prev := if uris == [] then None else Some(|uris| - 1);
    AssignmentExtendsHistory(uris, uri);
    Associative(History(uris), Teardown(prev), Rewire(|uris|, uri));
  }

  /** The rewiring, one step at a time, as the coordinator records it. */
  lemma RewireSteps(x: seq<Step>, k: nat, uri: string)
    ensures x + [AskJoin] + [Build(k, uri)] + [Attach(k, "message")] + [Attach(k, "disconnected")] +
            [Attach(k, "connected")] + [Connect(k)] + [AttachApp("send-chat")] + [AttachApp("teleport")] +
            [AttachApp("request-profile")] + [ShowChat] + [ShowPosition] == x + Rewire(k, uri)
  {
  }

  lemma AtMostOne(s: set<nat>, x: nat)
    requires s <= {x}
    ensures |s| <= 1
  {
    if x in s {
      assert s == {x};
    } else {
      assert s == {};
    }
  }

  /** At every point of a session whose assignment handlers run one after another, even halfway
      through a swap, at most one transport has listeners attached and at most one is connected. */
  lemma {:induction false} NeverTwoLive(uris: seq<string>, i: nat, listeners: bool)
    requires i <= |History(uris)|
    ensures |Holding(History(uris)[..i], listeners)| <= 1
    decreases |uris|
  {
    if uris == [] {
      assert History(uris)[..i] == [];
    } else {
      var n := |uris| - 1;
      var h := History(uris[..n]);
      var prev := if n == 0 then None else Some(n - 1);
      var hist := History(uris);
      HistorySplit(uris);
      assert |uris[..n]| == n;
      if i <= |h| {
        assert hist[..i] == h[..i];
        NeverTwoLive(uris[..n], i, listeners);
      } else if i <= |h| + |Teardown(prev)| {
        var td := Teardown(prev)[..i - |h|];
        assert hist[..i] == h + td;
        HistoryHoldsNewest(uris[..n], listeners);
        HoldingGrowth(h, td, listeners, {});
        if prev.Some? {
          AtMostOne(Holding(hist[..i], listeners), prev.value);
        } else {
          AtMostOne(Holding(hist[..i], listeners), 0);
        }
      } else {
        var y := h + Teardown(prev);
        var rw := Rewire(n, uris[n])[..i - |y|];
        assert hist[..i] == y + rw;
        HistoryHoldsNewest(uris[..n], listeners);
        TeardownReleases(h, prev, listeners);
        HoldingGrowth(y, rw, listeners, {n});
        AtMostOne(Holding(hist[..i], listeners), n);
      }
    }
  }

  /** The sender `handleMessage` is given: the event's peer, or "" when it has none. */
  function SenderOf(peer: Option<string>): string {
    if peer.Some? then peer.value else ""
  }

  /** The loop over `streamCase('profileResponse')` of the `request-profile` listener: it stops at the
      first response from `address` and yields its serialized profile; `consumed` responses were read. */
  method AwaitProfile(address: string, arrivals: seq<TransportEvent<Packet>>) returns (profile: Option<string>, consumed: nat)
    ensures var rs := StreamCase(CaseOf, "profileResponse", arrivals);
            consumed <= |rs| &&
            (forall j :: 0 <= j < consumed - 1 ==> rs[j].peer != Some(address)) &&
            (profile.Some? ==> consumed > 0 && rs[consumed - 1].peer == Some(address) &&
                               rs[consumed - 1].message == ProfileResponseMsg(ProfileResponse(profile.value))) &&
            (profile.None? ==> consumed == |rs| && forall j :: 0 <= j < |rs| ==> rs[j].peer != Some(address))
  {
    var rs := StreamCase(CaseOf, "profileResponse", arrivals);
    consumed := 0;
    profile := None;
    while consumed < |rs|
      invariant consumed <= |rs|
      invariant forall j :: 0 <= j < consumed ==> rs[j].peer != Some(address)
    {
      var ev := rs[consumed];
      consumed := consumed + 1;
      if ev.peer == Some(address) {
        assert ev.message.ProfileResponseMsg?;
        profile := Some(ev.message.profileResponse.serializedProfile);
        return;
      }
    }
  }

  /** What one run of the handler leaves in the application view, which held the join views `joins`,
      the chat rooms `rooms` and the last position `last`: a join view appended whose `next('join')` the
      JOIN click has resolved, its one-shot receiver gone; a fresh chat room appended, forwarding `send` and `teleport`; and `position` recorded
      and shown in that room only when it moved. */
  ghost predicate Shown(app: AppView, joins: seq<StepButtonView>, rooms: seq<ChatRoomView>, last: Option<Position>,
                        position: Position, view: StepButtonView, w: nat, room: ChatRoomView)
    reads app, view, view.events, room, room.events
  {
    app.joinIslands == joins + [view] && view.action == Join && !view.disabled &&
    view.events.receivers == map["join" := {}] && view.events.Awaited(w) == Some(Join) &&
    app.chatRooms == rooms + [room] &&
    room.events.receivers == map["send" := {Handler(FORWARD_SEND)}, "teleport" := {Handler(FORWARD_TELEPORT)}] &&
    room.stats == NO_STATS && room.log == [] &&
    app.lastPosition == (if Moved(last, position) then Some(position) else last) &&
    (room.lastPosition, room.form) ==
      (if Moved(last, position) then ChatViews.ShowPosition(None, BLANK_FORM, position, None) else (None, BLANK_FORM))
  }

  /** Transport `k`, with these receivers and this connection state, agrees with what the trace holds:
      it has listeners exactly when `k` is in `listened`, and is connected exactly when `k` is in `live`. */
  ghost predicate Agrees(k: nat, listened: set<nat>, live: set<nat>, receivers: Registry, connected: bool) {
    (k in listened <==> receivers != map[]) && (k in live <==> connected)
  }

  class Coordinator {
    const app: AppView
    var transport: Option<Transport<Packet>>
    var wantedPosition: Position
    var wantedIsland: Option<string>
    /** The uris of the transports built so far, in order, and the steps taken. */
    ghost var uris: seq<string>
    ghost var trace: seq<Step>
    /** The transports the trace holds by their listeners, and by a connection. */
    ghost var listened: set<nat>
    ghost var live: set<nat>

    /** The current transport and its emitter. */
    ghost function Current(): set<object>
      reads this
    {
      if transport.Some? then {transport.value, transport.value.emitter} else {}
    }

    /** The trace is that of the assignments received so far, and it agrees with the current
        transport: the newest transport has listeners exactly when the trace says it holds them,
        and is connected exactly when the trace says it is. */
    ghost predicate Valid()
      reads this, app, app.events, Current()
    {
      trace == History(uris) && Tracked() && Live()
    }

    /** The application and the newest transport are in good order, and the transport, numbered by its
        place in `uris`, agrees with the held sets. */
    ghost predicate Live()
      reads this, app, app.events, Current()
    {
      app.Valid() && (transport.None? <==> uris == []) &&
      (transport.Some? ==>
        var t, k := transport.value, |uris| - 1;
        t.uri == uris[k] && t.emitter.Valid() && Agrees(k, listened, live, t.emitter.receivers, t.connected))
    }

    /** `listened` and `live` are what the trace holds. */
    ghost predicate Tracked()
      reads this
    {
      listened == Holding(trace, true) && live == Holding(trace, false)
    }


    /** The state once the heartbeat has started: no transport yet, and the initial position. */
    constructor (app: AppView)
      requires app.Valid()
      ensures Valid() && this.app == app
      ensures transport == None && wantedPosition == Position(1, 0, 0) && wantedIsland == None
    {
      this.app := app;
      transport := None;
      wantedPosition := Position(1, 0, 0);
      wantedIsland := None;
      uris := [];
      trace := [];
      listened := {};
      live := {};
    }

    /** The `island_changed` listener, its awaits taken to complete in order. It returns the join view
        and the chat room it shows. */
    method OnIslandChanged(island: Island) returns (view: StepButtonView, w: nat, room: ChatRoomView)
      requires Valid()
      modifies this, app, app.events, Current()
      modifies if app.joinIslands == [] then {} else {app.joinIslands[|app.joinIslands| - 1]}
      ensures Valid()
      ensures uris == old(uris) + [island.uri]
      ensures trace == old(trace) + SwapSteps(if old(uris) == [] then None else Some(|old(uris)| - 1), |old(uris)|, island.uri)
      ensures transport.Some? && fresh(transport.value) && transport.value.uri == island.uri
      ensures transport.value.connected && transport.value.sent == []
      ensures transport.value.emitter.receivers ==
        map["message" := {Handler(ON_MESSAGE)}, "disconnected" := {Handler(LOG_TO_CONSOLE)}, "connected" := {Handler(LOG_TO_CONSOLE)}]
      ensures old(transport).Some? ==> old(transport).value.emitter.receivers == map[] && !old(transport).value.connected
      ensures app.events.receivers ==
        map["send-chat" := {Handler(ON_SEND_CHAT)}, "teleport" := {Handler(ON_TELEPORT)}, "request-profile" := {Handler(ON_REQUEST_PROFILE)}]
      ensures fresh(view) && fresh(room)
      ensures Shown(app, old(app.joinIslands), old(app.chatRooms), old(app.lastPosition), wantedPosition, view, w, room)
      ensures old(app.joinIslands) != [] ==>
        app.joinIslands[|app.joinIslands| - 2].disabled == old(app.joinIslands[|app.joinIslands| - 1].disabled)
      ensures wantedPosition == old(wantedPosition) && wantedIsland == old(wantedIsland)
    {
      view, w, room := Swap(island);
      SwapHistory(old(uris), island.uri);
    }

    /** The body of the `island_changed` listener: the teardown, then the rewiring. The new transport
        is held alone. */
    method Swap(island: Island) returns (view: StepButtonView, w: nat, room: ChatRoomView)
      requires Valid()
      modifies this, app, app.events, Current()
      modifies if app.joinIslands == [] then {} else {app.joinIslands[|app.joinIslands| - 1]}
      ensures Live() && listened == {|old(uris)|} && live == {|old(uris)|}
      ensures uris == old(uris) + [island.uri]
      ensures trace == (old(trace) + Teardown(if old(uris) == [] then None else Some(|old(uris)| - 1))) + Rewire(|old(uris)|, island.uri)
      ensures transport.Some? && fresh(transport.value) && transport.value.uri == island.uri
      ensures transport.value.connected && transport.value.sent == []
      ensures transport.value.emitter.receivers ==
        map["message" := {Handler(ON_MESSAGE)}, "disconnected" := {Handler(LOG_TO_CONSOLE)}, "connected" := {Handler(LOG_TO_CONSOLE)}]
      ensures old(transport).Some? ==> old(transport).value.emitter.receivers == map[] && !old(transport).value.connected
      ensures app.events.receivers ==
        map["send-chat" := {Handler(ON_SEND_CHAT)}, "teleport" := {Handler(ON_TELEPORT)}, "request-profile" := {Handler(ON_REQUEST_PROFILE)}]
      ensures fresh(view) && fresh(room)
      ensures Shown(app, old(app.joinIslands), old(app.chatRooms), old(app.lastPosition), wantedPosition, view, w, room)
      ensures old(app.joinIslands) != [] ==>
        app.joinIslands[|app.joinIslands| - 2].disabled == old(app.joinIslands[|app.joinIslands| - 1].disabled)
      ensures wantedPosition == old(wantedPosition) && wantedIsland == old(wantedIsland)
    {
      Release();
      view, w, room := JoinAndAttach(island);
    }

    /** `app.events.offAll()`, recorded as `ClearAppListeners`. */
    method ClearAppListenersStep()
      requires app.Valid()
      modifies this, app.events
      ensures app.Valid() && app.events.receivers == map[]
      ensures trace == old(trace) + [ClearAppListeners]
      ensures listened == old(listened) && live == old(live)
      ensures transport == old(transport) && uris == old(uris)
      ensures wantedPosition == old(wantedPosition) && wantedIsland == old(wantedIsland)
    {
      var _ := app.events.OffAll();
      trace := trace + [ClearAppListeners];
    }

    /** `t.offAll()` on transport `k`, recorded as `ClearListeners(k)`: the trace lets go of `k` as `t`
        loses its listeners. */
    method ClearListenersOf(t: Transport<Packet>, ghost k: nat)
      requires t.emitter.Valid() && Agrees(k, listened, live, t.emitter.receivers, t.connected)
      modifies this, t.emitter
      ensures t.emitter.Valid() && t.emitter.receivers == map[] && Agrees(k, listened, live, t.emitter.receivers, t.connected)
      ensures trace == old(trace) + [ClearListeners(k)]
      ensures listened == old(listened) - {k} && live == old(live)
      ensures transport == old(transport) && uris == old(uris)
      ensures wantedPosition == old(wantedPosition) && wantedIsland == old(wantedIsland)
    {
      var _ := t.emitter.OffAll();
      trace := trace + [ClearListeners(k)];
      listened := listened - {k};
    }

    /** `t.disconnect()` on transport `k`, recorded as `Disconnect(k)`: the trace lets go of `k` as `t`
        disconnects. */
    method DisconnectOf(t: Transport<Packet>, ghost k: nat)
      requires Agrees(k, listened, live, t.emitter.receivers, t.connected)
      modifies this, t
      ensures !t.connected && t.sent == old(t.sent) && Agrees(k, listened, live, t.emitter.receivers, t.connected)
      ensures trace == old(trace) + [Disconnect(k)]
      ensures listened == old(listened) && live == old(live) - {k}
      ensures transport == old(transport) && uris == old(uris)
      ensures wantedPosition == old(wantedPosition) && wantedIsland == old(wantedIsland)
    {
      t.Disconnect();
      trace := trace + [Disconnect(k)];
      live := live - {k};
    }

    /** `t.on(eventType, receiver)` on transport `k`, recorded as `Attach(k, eventType)`: the trace takes
        up `k` as `t` gains a listener. */
    method AttachOf(t: Transport<Packet>, ghost k: nat, eventType: string, id: nat)
      requires t.emitter.Valid() && Agrees(k, listened, live, t.emitter.receivers, t.connected)
      modifies this, t.emitter
      ensures t.emitter.Valid() && t.emitter.receivers == Add(old(t.emitter.receivers), eventType, Handler(id))
      ensures t.emitter.caught == old(t.emitter.caught) && Agrees(k, listened, live, t.emitter.receivers, t.connected)
      ensures trace == old(trace) + [Attach(k, eventType)]
      ensures listened == old(listened) + {k} && live == old(live)
      ensures transport == old(transport) && uris == old(uris)
      ensures wantedPosition == old(wantedPosition) && wantedIsland == old(wantedIsland)
    {
      var _ := t.emitter.On(eventType, Handler(id));
      assert t.emitter.receivers != map[] by {
        assert eventType in t.emitter.receivers;
      }
      trace := trace + [Attach(k, eventType)];
      listened := listened + {k};
    }

    /** `t.connect()` on transport `k`, recorded as `Connect(k)`: the trace takes up `k` as `t`
        connects. */
    method ConnectOf(t: Transport<Packet>, ghost k: nat)
      requires Agrees(k, listened, live, t.emitter.receivers, t.connected)
      modifies this, t
      ensures t.connected && t.sent == old(t.sent) && Agrees(k, listened, live, t.emitter.receivers, t.connected)
      ensures trace == old(trace) + [Connect(k)]
      ensures listened == old(listened) && live == old(live) + {k}
      ensures transport == old(transport) && uris == old(uris)
      ensures wantedPosition == old(wantedPosition) && wantedIsland == old(wantedIsland)
    {
      t.Connect();
      trace := trace + [Connect(k)];
      live := live + {k};
    }

    /** `app.events.on(eventType, receiver)`, recorded as `AttachApp(eventType)`. */
    method AttachAppOf(eventType: string, id: nat)
      requires app.Valid()
      modifies this, app.events
      ensures app.Valid() && app.events.receivers == Add(old(app.events.receivers), eventType, Handler(id))
      ensures trace == old(trace) + [AttachApp(eventType)]
      ensures listened == old(listened) && live == old(live)
      ensures transport == old(transport) && uris == old(uris)
      ensures wantedPosition == old(wantedPosition) && wantedIsland == old(wantedIsland)
    {
      var _ := app.events.On(eventType, Handler(id));
      trace := trace + [AttachApp(eventType)];
    }

    /** The teardown: clear the application's listeners, then the previous transport's, then
        disconnect it. Each call is recorded as it is made. */
    method Release()
      requires Valid()
      modifies this, app.events, Current()
      ensures app.Valid() && app.events.receivers == map[]
      ensures listened == {} && live == {}
      ensures app.joinIslands == old(app.joinIslands) && app.chatRooms == old(app.chatRooms) && app.lastPosition == old(app.lastPosition)
      ensures app.joinIslands != [] ==> app.joinIslands[|app.joinIslands| - 1].disabled == old(app.joinIslands[|app.joinIslands| - 1].disabled)
      ensures transport == old(transport) && uris == old(uris)
      ensures wantedPosition == old(wantedPosition) && wantedIsland == old(wantedIsland)
      ensures trace == old(trace) + Teardown(if uris == [] then None else Some(|uris| - 1))
      ensures transport.Some? ==>
        transport.value.emitter.Valid() && transport.value.emitter.receivers == map[] && !transport.value.connected &&
        transport.value.sent == old(transport.value.sent) && Agrees(|uris| - 1, listened, live, transport.value.emitter.receivers, transport.value.connected)
    {
      HistoryHoldsNewest(uris, true);
      HistoryHoldsNewest(uris, false);
      ClearAppListenersStep();
      if transport.Some? {
        var previous := transport.value;
        var k := |uris| - 1;
        ClearListenersOf(previous, k);
        DisconnectOf(previous, k);
        assert Teardown(Some(k)) == [ClearAppListeners] + [ClearListeners(k)] + [Disconnect(k)];
        Associative(old(trace), [ClearAppListeners], [ClearListeners(k)]);
        Associative(old(trace), [ClearAppListeners] + [ClearListeners(k)], [Disconnect(k)]);
      }
    }

    /** The rewiring after the teardown: ask to join the island, attach a new transport, wire the
        application's events, show the chat room and the wanted position. */
    method JoinAndAttach(island: Island) returns (view: StepButtonView, w: nat, room: ChatRoomView)
      requires app.Valid() && app.events.receivers == map[]
      requires listened == {} && live == {}
      modifies this, app, app.events
      modifies if app.joinIslands == [] then {} else {app.joinIslands[|app.joinIslands| - 1]}
      ensures app.Valid() && uris == old(uris) + [island.uri]
      ensures trace == old(trace) + Rewire(|old(uris)|, island.uri)
      ensures transport.Some? && fresh(transport.value) && transport.value.uri == island.uri
      ensures listened == {|old(uris)|} && live == {|old(uris)|}
      ensures Live()
      ensures transport.value.connected && transport.value.sent == [] && transport.value.emitter.Valid()
      ensures transport.value.emitter.receivers ==
        map["message" := {Handler(ON_MESSAGE)}, "disconnected" := {Handler(LOG_TO_CONSOLE)}, "connected" := {Handler(LOG_TO_CONSOLE)}]
      ensures app.events.receivers ==
        map["send-chat" := {Handler(ON_SEND_CHAT)}, "teleport" := {Handler(ON_TELEPORT)}, "request-profile" := {Handler(ON_REQUEST_PROFILE)}]
      ensures fresh(view) && fresh(room)
      ensures Shown(app, old(app.joinIslands), old(app.chatRooms), old(app.lastPosition), wantedPosition, view, w, room)
      ensures old(app.joinIslands) != [] ==>
        app.joinIslands[|app.joinIslands| - 2].disabled == old(app.joinIslands[|app.joinIslands| - 1].disabled)
      ensures wantedPosition == old(wantedPosition) && wantedIsland == old(wantedIsland)
    {
      view, w := AskJoinStep(island);
      var t := AttachNew(island);
      room := ShowSession();
      RewireSteps(old(trace), |old(uris)|, island.uri);
    }

    /** `await app.askJoinIsland(island)`, recorded as `AskJoin`: the join view is shown, and the await
        completes when the user clicks JOIN, which resolves the view's `next('join')` with the `join` event
        and takes its one-shot receiver off. */
    method AskJoinStep(island: Island) returns (view: StepButtonView, w: nat)
      requires app.Valid()
      modifies this, app, if app.joinIslands == [] then {} else {app.joinIslands[|app.joinIslands| - 1]}
      ensures app.Valid() && fresh(view) && fresh(view.events)
      ensures app.joinIslands == old(app.joinIslands) + [view] && app.chatRooms == old(app.chatRooms)
      ensures app.lastPosition == old(app.lastPosition) && app.events.receivers == old(app.events.receivers)
      ensures view.action == Join && !view.disabled
      ensures view.events.receivers == map["join" := {}] && view.events.Awaited(w) == Some(Join)
      ensures old(app.joinIslands) != [] ==>
        app.joinIslands[|app.joinIslands| - 2].disabled == old(app.joinIslands[|app.joinIslands| - 1].disabled)
      ensures trace == old(trace) + [AskJoin]
      ensures listened == old(listened) && live == old(live)
      ensures transport == old(transport) && uris == old(uris)
      ensures wantedPosition == old(wantedPosition) && wantedIsland == old(wantedIsland)
    {
      view, w := app.AskJoinIsland(island);
      assert Waiters({Waiter(w)}) == {Waiter(w)} && w in Serials({Waiter(w)});
      assert {Waiter(w)} - Waiters({Waiter(w)}) == {};
      assert AfterEmit(map["join" := {Waiter(w)}], Some("join")) == map["join" := {}];
      var _ := view.OnClick();
      trace := trace + [AskJoin];
    }

    /** Builds a transport from the island's uri, attaches its listeners, then connects it. Each call is
        recorded as it is made. */
    method AttachNew(island: Island) returns (t: Transport<Packet>)
      requires |uris| !in listened && |uris| !in live
      modifies this
      ensures transport == Some(t) && fresh(t) && fresh(t.emitter)
      ensures uris == old(uris) + [island.uri]
      ensures trace == old(trace) + [Build(|old(uris)|, island.uri)] + [Attach(|old(uris)|, "message")] +
        [Attach(|old(uris)|, "disconnected")] + [Attach(|old(uris)|, "connected")] + [Connect(|old(uris)|)]
      ensures listened == old(listened) + {|old(uris)|} && live == old(live) + {|old(uris)|}
      ensures Agrees(|old(uris)|, listened, live, t.emitter.receivers, t.connected)
      ensures t.uri == island.uri && t.connected && t.sent == []
      ensures t.emitter.Valid() && t.emitter.receivers ==
        map["message" := {Handler(ON_MESSAGE)}, "disconnected" := {Handler(LOG_TO_CONSOLE)}, "connected" := {Handler(LOG_TO_CONSOLE)}]
      ensures wantedPosition == old(wantedPosition) && wantedIsland == old(wantedIsland)
    {
      var k := |uris|;
      t := new Transport<Packet>(island.uri);
      trace := trace + [Build(k, island.uri)];
      transport := Some(t);
      uris := uris + [island.uri];
      AttachOf(t, k, "message", ON_MESSAGE);
      AttachOf(t, k, "disconnected", LOG_TO_CONSOLE);
      AttachOf(t, k, "connected", LOG_TO_CONSOLE);
      ConnectOf(t, k);
    }

    /** The handler's wiring of the application's events: `send-chat`, `teleport` and `request-profile`,
        in that order, each recorded as it is made. */
    method WireApp()
      requires app.Valid() && app.events.receivers == map[]
      modifies this, app.events
      ensures app.Valid()
      ensures app.events.receivers ==
        map["send-chat" := {Handler(ON_SEND_CHAT)}, "teleport" := {Handler(ON_TELEPORT)}, "request-profile" := {Handler(ON_REQUEST_PROFILE)}]
      ensures trace == old(trace) + [AttachApp("send-chat")] + [AttachApp("teleport")] + [AttachApp("request-profile")]
      ensures listened == old(listened) && live == old(live)
      ensures transport == old(transport) && uris == old(uris)
      ensures wantedPosition == old(wantedPosition) && wantedIsland == old(wantedIsland)
    {
      AttachAppOf("send-chat", ON_SEND_CHAT);
      AttachAppOf("teleport", ON_TELEPORT);
      AttachAppOf("request-profile", ON_REQUEST_PROFILE);
    }

    /** The end of the handler: wire the application's events, open a chat room, then show the wanted
        position. Each call is recorded as it is made. */
    method ShowSession() returns (room: ChatRoomView)
      requires app.Valid() && app.events.receivers == map[]
      modifies this, app, app.events
      ensures app.Valid() && fresh(room) && room.Valid()
      ensures app.events.receivers ==
        map["send-chat" := {Handler(ON_SEND_CHAT)}, "teleport" := {Handler(ON_TELEPORT)}, "request-profile" := {Handler(ON_REQUEST_PROFILE)}]
      ensures app.joinIslands == old(app.joinIslands) && app.chatRooms == old(app.chatRooms) + [room]
      ensures room.events.receivers == map["send" := {Handler(FORWARD_SEND)}, "teleport" := {Handler(FORWARD_TELEPORT)}]
      ensures room.stats == NO_STATS && room.log == []
      ensures app.lastPosition == if Moved(old(app.lastPosition), wantedPosition) then Some(wantedPosition) else old(app.lastPosition)
      ensures (room.lastPosition, room.form) ==
        if Moved(old(app.lastPosition), wantedPosition) then ChatViews.ShowPosition(None, BLANK_FORM, wantedPosition, None) else (None, BLANK_FORM)
      ensures trace == old(trace) + [AttachApp("send-chat")] + [AttachApp("teleport")] + [AttachApp("request-profile")] +
        [ShowChat] + [ShowPosition]
      ensures listened == old(listened) && live == old(live)
      ensures transport == old(transport) && uris == old(uris)
      ensures wantedPosition == old(wantedPosition) && wantedIsland == old(wantedIsland)
    {
      WireApp();
      room := app.ShowChat();
      trace := trace + [ShowChat];
      app.SetPosition(wantedPosition);
      trace := trace + [ShowPosition];
    }

    /** The `teleport` listener: both heartbeat fields come from the event. */
    method OnTeleport(ev: AppEvent)
      requires Valid() && ev.TeleportRequest?
      modifies this
      ensures Valid()
      ensures wantedPosition == ev.position && wantedIsland == ev.island
      ensures transport == old(transport)
    {
      wantedPosition := ev.position;
      wantedIsland := ev.island;
    }

    /** The `send-chat` listener: one chat message, stamped with the clock reading `now`, goes out on
        the current transport. */
    method OnSendChat(ev: AppEvent, now: int)
      requires Valid() && ev.SendChat? && transport.Some?
      modifies transport.value
      ensures Valid()
      ensures transport.value.sent == old(transport.value.sent) + [ChatMsg(Chat(ev.text, now))]
    {
      transport.value.Send(ChatMsg(Chat(ev.text, now)));
    }

    /** The `request-profile` listener: send a profile request for `address` with version 0, then read
        the profile responses that arrive until one comes from `address`. */
    method OnRequestProfile(address: string, arrivals: seq<TransportEvent<Packet>>) returns (profile: Option<string>)
      requires Valid() && transport.Some?
      modifies transport.value
      ensures Valid()
      ensures transport.value.sent == old(transport.value.sent) + [ProfileRequestMsg(ProfileRequest(address, 0))]
      ensures var rs := StreamCase(CaseOf, "profileResponse", arrivals);
              profile.Some? <==> exists j :: 0 <= j < |rs| && rs[j].peer == Some(address)
      ensures var rs := StreamCase(CaseOf, "profileResponse", arrivals);
              profile.Some? ==>
                exists j :: 0 <= j < |rs| && rs[j].peer == Some(address) &&
                            (forall i :: 0 <= i < j ==> rs[i].peer != Some(address)) &&
                            profile.value == rs[j].message.profileResponse.serializedProfile
    {
      transport.value.Send(ProfileRequestMsg(ProfileRequest(address, 0)));
      var consumed;
      profile, consumed := AwaitProfile(address, arrivals);
      if profile.Some? {
        assert StreamCase(CaseOf, "profileResponse", arrivals)[consumed - 1].peer == Some(address);
      }
    }

    /** The transport's `message` listener: the application view handles the message, from its peer. */
    method OnTransportMessage(ev: TransportEvent<Packet>)
      requires Valid() && ev.Message?
      modifies app.NewestRoom()
      ensures Valid()
      ensures app.chatRooms != [] ==>
        var room := app.chatRooms[|app.chatRooms| - 1];
        (room.stats, room.log) == Effect(old(room.stats), old(room.log), React(SenderOf(ev.peer), ev.message)) &&
        room.lastPosition == old(room.lastPosition) && room.form == old(room.form)
    {
      app.HandleMessage(SenderOf(ev.peer), ev.message);
    }

    /** One heartbeat tick: show the wanted position, then report it with the wanted island. */
    method HeartbeatTick(client: ArchipelagoClient) returns (published: Publication)
      requires Valid() && client.port.Some?
      modifies app, app.NewestRoom()
      ensures Valid()
      ensures published == Publication("heartbeat", Heartbeat(wantedPosition, wantedIsland))
      ensures app.lastPosition == if Moved(old(app.lastPosition), wantedPosition) then Some(wantedPosition) else old(app.lastPosition)
      ensures app.chatRooms == old(app.chatRooms) && app.joinIslands == old(app.joinIslands)
      ensures app.chatRooms != [] ==>
        var room := app.chatRooms[|app.chatRooms| - 1];
        (room.lastPosition, room.form) ==
          (if Moved(old(app.lastPosition), wantedPosition)
           then ChatViews.ShowPosition(old(room.lastPosition), old(room.form), wantedPosition, None)
           else (old(room.lastPosition), old(room.form))) &&
        room.stats == old(room.stats) && room.log == old(room.log)
    {
      app.SetPosition(wantedPosition);
      published := client.SendHeartbeat(wantedPosition, wantedIsland);
    }
  }
}
