# comms-station, modelled in Dafny

A model of the client core of Decentraland's comms-station demo. The demo walks a user through the
comms handshake and then shows a live chat room. This model covers:

- the typed event emitter every object in the demo is built on (`on`, `off`, `offAll`, `next`,
  `emit`) and `ManagedPromise`;
- the transport base class with its `streamCase`/`nextCase` filters over incoming messages, and the
  adapter base class that wraps each payload in its `$case`;
- the Archipelago client: the socket URL derived from a realm URL, the challenge exchange, the
  heartbeat, island-change subscriptions and the parsing of an island assignment's connection string;
- the UI logic of the step views, the realm picker (sort by descending user count), the chat room
  (counters, log lines, the `0x` profile-link rule, emotes, the position form) and the application
  view that reacts to incoming messages;
- the `island_changed` handler of `src/main.ts`, which tears down the previous transport and wires a
  new one, and the heartbeat tick.

Objects whose methods update fields are classes (`Emitter`, `Transport`, `Adapter`,
`ArchipelagoClient`, the views, `Coordinator` for the session of `main.ts`); the rules they follow are
pure functions with lemmas. The emitter's registrations are a `map<string, set<Receiver>>`. Receivers
are ids: `Handler(id)` stands for a function passed to `on`, `Waiter(serial)` for the one-shot closure
`next` installs. In the island-changed handler every call that touches a transport or the
application's listeners goes through one small method that makes the call and appends its own step to
a ghost trace, so the trace follows the order of the calls. Two ghost sets hold the transports the
trace has listened to and connected; each of these methods keeps the current transport in agreement
with them (it has listeners exactly when it is in the first set, and is connected exactly when it is
in the second). Calling the same methods in another order would not give the swap's steps. The lemmas
show that, at every point of a session whose assignment handlers run one after another (even halfway
through a swap), at most one transport has listeners and at most one is connected. Handlers that
overlap at their `await`s are outside this guarantee (see "Left out").

Files: `wrappers.dfy` (Option/Result), `strings.dfy` (the JavaScript string operations used),
`emitter.dfy`, `util.dfy`, `mpromise.dfy`, `comms.dfy` (positions and packet messages),
`transport.dfy`, `adapter.dfy`, `archipelago.dfy`, `views.dfy`, `steps.dfy`, `chat.dfy`, `app.dfy`,
`station.dfy`.

## Model

| member | source | states |
|---|---|---|
| Emitters.AddRegisters | src/util/emitter.ts:16-27 | `on(t, r)` registers exactly `r` for `t`, creating the set when `t` has no entry, and leaves every other type alone |
| Emitters.AddIdempotent | src/util/emitter.ts:19-23 | registering the same receiver twice for a type leaves one registration (a `Set`) |
| Emitters.RemoveIsolated | src/util/emitter.ts:29-36 | `off(t, r)` removes only `r` from `t`; other types and other receivers stay, and no entry is dropped |
| Emitters.RemoveUnknown | src/util/emitter.ts:30 | `off` on a type without an entry changes nothing |
| Emitters.RemoveUndoesAdd | src/util/emitter.ts:16-36 | `off` undoes an `on` of a receiver not yet registered for an existing type |
| Emitters.ClearedDispatchesNothing | src/util/emitter.ts:38-41 | after `offAll` no event reaches any receiver |
| Emitters.ReplayDispatch | src/util/emitter.ts:16-60 | after any sequence of `on`/`off`/`offAll`, `emit` of type `t` reaches `r` iff the latest call about `(t, r)` is an `on` and no `offAll` followed it |
| Emitters.SettleIsResolve | src/util/emitter.ts:44-48 | the promise of each one-shot receiver that fired takes one `resolve(ev)` under the promise's first-settlement rule; every other promise is unchanged |
| Emitters.SettleOne | src/util/emitter.ts:45-48 | invoking one more receiver settles at most its own promise, and only if that promise is still pending |
| Emitters.NextFiresOnce | src/util/emitter.ts:43-60 | the receiver of `next(t)` ignores other types; the first event of type `t` resolves the promise with that event and takes the receiver off, so later emits do not reach it and the value stays |
| Emitters.Emitter.constructor | src/util/emitter.ts:14 | a new emitter has no registrations and no settled promise |
| Emitters.Emitter.On | src/util/emitter.ts:16-27 | the map becomes `Add(old, t, r)`; returns `this` |
| Emitters.Emitter.Off | src/util/emitter.ts:29-36 | the map becomes `Remove(old, t, r)`; returns `this`, or nothing when `t` has no entry |
| Emitters.Emitter.OffAll | src/util/emitter.ts:38-41 | the map becomes empty; returns `this` |
| Emitters.Emitter.Next | src/util/emitter.ts:43-52 | installs a fresh one-shot receiver for `t` whose promise is pending |
| Emitters.Emitter.Fire | src/util/emitter.ts:45-48 | one receiver of the loop: a one-shot receiver resolves its promise (first value wins) and removes itself |
| Emitters.Emitter.Emit | src/util/emitter.ts:54-60 | invokes, once each, exactly the receivers registered for the event's `type` when `emit` starts; afterwards the fired one-shot receivers are gone and their promises hold the event |
| Util.LastOf | src/util/index.ts:11-14 | the last element, or null exactly for an empty array |
| Util.LastOfPush | src/util/index.ts:11-14 | after a push of `x`, `lastOf` is `x` |
| ManagedPromises.SettledStays | src/util/mpromise.ts:16-21 | once settled, no later `resolve`/`reject` changes the state |
| ManagedPromises.FirstSettlementWins | src/util/mpromise.ts:13-21 | of any run of resolver calls on a pending promise only the first takes effect |
| ManagedPromises.ThenSeesSettlement | src/util/mpromise.ts:23-25 | `then` with both callbacks resolves with `onResolve` of the resolved value or with `onReject` of the rejection reason; pending stays pending |
| ManagedPromises.ThenForwards | src/util/mpromise.ts:23-25 | `then` with the identity callback and no rejection handler forwards the settlement unchanged |
| ManagedPromises.ManagedPromise.constructor | src/util/mpromise.ts:16-21 | a new managed promise is pending |
| ManagedPromises.ManagedPromise.Resolve | src/util/mpromise.ts:13 | a pending promise becomes resolved with the value; a settled one is unchanged |
| ManagedPromises.ManagedPromise.Reject | src/util/mpromise.ts:14 | a pending promise becomes rejected with the reason; a settled one is unchanged |
| ManagedPromises.ManagedPromise.Then | src/util/mpromise.ts:23-25 | the derived promise is pending iff this one is; a resolved value goes through `onResolve`; a rejection goes through `onReject` when there is one and stays a rejection with the same reason otherwise |
| Transports.StreamCase | src/transports/base.ts:34-38 | yields only `message` events whose `$case` matches, each drawn from the input |
| Transports.StreamCaseAppend | src/transports/base.ts:34-38 | filtering later arrivals appends to what was yielded: nothing dropped or reordered |
| Transports.StreamCaseCounts | src/transports/base.ts:34-38 | each matching event is yielded as often as it arrived, a non-matching one never |
| Transports.StreamCaseIdempotent | src/transports/base.ts:34-38 | filtering the stream again by the same case changes nothing |
| Transports.NextCase | src/transports/base.ts:29-32 | a result is a matching `message` event from the input |
| Transports.NextCaseIsHead | src/transports/base.ts:29-32 | `nextCase(c)` is the first element `streamCase(c)` yields, pending when there is none |
| Transports.NextCaseSettled | src/transports/base.ts:29-32 | once a matching event has arrived, later arrivals do not change what `nextCase` gave |
| Transports.Transport.constructor | src/transports/base.ts:18-21 | a new transport is not connected, has sent nothing and has no listeners; its emitter dispatches on the event's `type` |
| Transports.Transport.Connect | src/transports/base.ts:23 | the transport is connected; nothing was sent |
| Transports.Transport.Disconnect | src/transports/base.ts:27 | the transport is disconnected; nothing was sent |
| Transports.Transport.Send | src/transports/base.ts:25 | the message is appended to what was sent |
| Adapters.Adapter.constructor | src/adapters/base.ts:24-27 | `events` and the internal emitter are the same object, with no listeners |
| Adapters.Adapter.Publish | src/adapters/base.ts:21-26 | an event emitted internally reaches exactly the receivers added through `events`, once each; afterwards the emitter's registrations and settled promises are those `emit` leaves |
| Adapters.Adapter.SendPosition | src/adapters/base.ts:35-37 | one send of the position under `$case` "position" |
| Adapters.Adapter.SendChat | src/adapters/base.ts:39-41 | one send of the chat under `$case` "chat" |
| Adapters.Adapter.SendProfileVersion | src/adapters/base.ts:43-45 | one send under `$case` "profileVersion" |
| Adapters.Adapter.SendProfileRequest | src/adapters/base.ts:47-49 | one send under `$case` "profileRequest" |
| Adapters.Adapter.SendProfileResponse | src/adapters/base.ts:51-53 | one send under `$case` "profileResponse" |
| Adapters.SendCases | src/adapters/base.ts:35-53 | each helper's payload carries its own `$case`, and packets of any two different kinds (the five sent ones, scene and voice) never share one |
| Archipelago.WsUrlOfHttpsRealm | src/services/archipelago.ts:58 | for `https://h` the socket URL is `wss://h/bff/rpc` |
| Archipelago.WsUrlWithoutHttps | src/services/archipelago.ts:58 | a realm URL without `https://` yields `wss://undefined/bff/rpc` |
| Archipelago.ConnStrSplit | src/services/archipelago.ts:123-125 | the adapter is the colon-free prefix before the first colon, the uri what follows it, and together they give back the connection string |
| Archipelago.LivekitPrefix | src/services/archipelago.ts:123-125 | a connection string starting with `livekit:` has adapter livekit and, as uri, everything after that colon |
| Archipelago.LivekitAdapter | src/services/archipelago.ts:123 | adapter livekit comes only from the bare string `livekit` or one starting with `livekit:` |
| Archipelago.ParseIslandOutcome | src/services/archipelago.ts:121-134 | an assignment parses iff its connection string is `livekit` or starts with `livekit:`; the island then has adapter livekit, the message's id, the text after the colon as uri ("" for bare `livekit`) and the peer keys; any other string gives the error "Only livekit is supported" |
| Archipelago.ParseLivekitConnStr | src/services/archipelago.ts:123-130 | `livekit:<uri>` yields adapter livekit and that uri; `foo:bar` is refused |
| Archipelago.Deliveries | src/services/archipelago.ts:120-135 | the listener gets one island per message, in order, until the first unsupported adapter ends the loop |
| Archipelago.ArchipelagoClient.constructor | src/services/archipelago.ts:53-55 | a new client keeps the realm, has no port and no subscriptions |
| Archipelago.ArchipelagoClient.Connect | src/services/archipelago.ts:57-74 | opens the derived socket URL with protocol `bff` and records the port |
| Archipelago.ArchipelagoClient.RequestChallenge | src/services/archipelago.ts:78-85 | sends the address and returns the challenge to sign from the reply |
| Archipelago.ArchipelagoClient.RespondChallenge | src/services/archipelago.ts:89-96 | sends the serialized chain and returns the peer with the welcome's peer id |
| Archipelago.ArchipelagoClient.SendHeartbeat | src/services/archipelago.ts:100-109 | publishes on topic `heartbeat` the position and, as desired room, the desired island |
| Archipelago.ArchipelagoClient.AddIslandChangedListener | src/services/archipelago.ts:112-118 | subscribes on `<address>.island_changed` and records the subscription |
| Archipelago.ArchipelagoClient.RemoveIslandChangedListeners | src/services/archipelago.ts:139-145 | unsubscribes every recorded subscription |
| Views.CaseTag | src/ui/base.ts:14-16 | the corrected dispatch key of a view event is its `$case` |
| Views.ViewEventLostAsWritten | src/ui/base.ts:14-16 | as written, a view event reaches neither a handler nor a pending `next`, which stays pending and registered |
| Views.ViewEventDeliveredByCase | src/ui/base.ts:14-16 | dispatched on `$case`, the event reaches the handler and resolves the pending `next` with itself; the one-shot receiver is then gone and the handler stays |
| Steps.StepButtonView.constructor | src/ui/steps.ts:247-253 | a new step view is enabled and has no listeners |
| Steps.StepButtonView.Disable | src/ui/steps.ts:23-25 | views that override `disable` mark their button; the join view keeps the empty default |
| Steps.StepButtonView.OnClick | src/ui/steps.ts:18-21 | a click emits the step's event to exactly its receivers, then disables |
| Steps.SortByUsers | src/ui/steps.ts:117 | the array ends in non-increasing user count and is a permutation of what it held |
| Steps.SortedCopy | src/ui/steps.ts:116-117 | the copy is sorted by descending user count and holds exactly the given realms |
| Steps.SelectRealmView.constructor | src/ui/steps.ts:112-113 | a new picker has no rows, so no buttons |
| Steps.SelectRealmView.SetRealms | src/ui/steps.ts:115-133 | earlier rows and their buttons stay as they were; the new rows are the given realms, sorted by descending user count, with enabled buttons |
| Steps.SelectRealmView.OnRowClick | src/ui/steps.ts:126-137 | a row click emits `select` with that row's realm to exactly its receivers, then disables the buttons of the rows present |
| ChatViews.MessageLineLinksAddresses | src/ui/chat.ts:47-57 | a logged line shows sender and text as given, and links a profile iff the sender starts with `0x` |
| ChatViews.EmoteTextInjective | src/ui/chat.ts:63-65 | different emote ids give different log lines |
| ChatViews.MovedIgnoresHeight | src/ui/chat.ts:77 | the position counts as moved iff x or y differs; a change of z alone does not |
| ChatViews.ShowPosition | src/ui/chat.ts:73-84 | x and y are written only when the position moved, the island field only when also given and non-empty; otherwise nothing changes |
| ChatViews.ShowPositionIdempotent | src/ui/chat.ts:73-84 | showing the same position again never overwrites an edit made in between |
| ChatViews.ChatRoomView.constructor | src/ui/chat.ts:11-24 | a new room has all counters at zero, an empty log and no position |
| ChatViews.ChatRoomView.AddPing | src/ui/chat.ts:35-37 | the ping counter goes up by one and nothing else changes |
| ChatViews.ChatRoomView.AddPong | src/ui/chat.ts:39-41 | the pong counter goes up by one and nothing else changes |
| ChatViews.ChatRoomView.AddMovement | src/ui/chat.ts:43-45 | the movement counter goes up by one and nothing else changes |
| ChatViews.ChatRoomView.AddMessage | src/ui/chat.ts:47-61 | one line is appended to the log, with a profile link iff the sender starts with `0x` |
| ChatViews.ChatRoomView.AddEmote | src/ui/chat.ts:63-65 | appends the line `* emote/<id> *` |
| ChatViews.ChatRoomView.SetPosition | src/ui/chat.ts:73-84 | the last position and the form become those of `ShowPosition` |
| ChatViews.ChatRoomView.TypeChat | src/ui/chat.ts:87 | the chat input holds the typed text |
| ChatViews.ChatRoomView.OnSendClick | src/ui/chat.ts:86-94 | logs the input as "You", emits `send` with it to exactly its receivers, then clears the input |
| ChatViews.ChatRoomView.ClickSender | src/ui/chat.ts:53-57 | clicking the sender of a linked line emits `request-profile` for that sender; an unlinked line emits nothing |
| App.ChatOutcomes | src/ui/app.ts:150-165 | a chat message counts a ping, counts a pong, logs an emote or logs the text, chosen by its first character |
| App.EmoteIdShape | src/ui/app.ts:160 | the emote id is the first word without its marker and contains no space |
| App.OtherOutcomes | src/ui/app.ts:167-177 | a position counts one movement, a profile request logs `requests profile <address>`, anything else changes nothing |
| App.HandleMessageEffect | src/ui/app.ts:145-179 | per message kind, which counter moves by one and when exactly one line is logged; the peer count never moves |
| App.AppView.constructor | src/ui/app.ts:30-42 | a new application view has no join views, no chat rooms and no last position |
| App.AppView.HandleMessage | src/ui/app.ts:145-179 | without a chat room nothing happens; otherwise the newest room's counters and log change as `React` and `Effect` say |
| App.AppView.SetPosition | src/ui/app.ts:136-143 | the position is recorded and passed to the newest room only when it moved |
| App.AppView.AskJoinIsland | src/ui/app.ts:103-115 | the previous join view keeps its state; a new one is appended and a `next('join')` on it is pending |
| App.AppView.ShowChat | src/ui/app.ts:117-134 | appends a fresh room whose `send` and `teleport` go to the two forwarding receivers |
| App.AppView.ForwardSend | src/ui/app.ts:124-126 | a room's `send` becomes `send-chat` with the same text, delivered to exactly its receivers |
| App.AppView.ForwardTeleport | src/ui/app.ts:128-130 | a room's `teleport` becomes `teleport` at `(x, y, 0)` with the same island |
| Station.SwapOrder | src/main.ts:82-131 | the application's listeners are cleared first; the old transport loses its listeners before it is disconnected; the new one gets its listeners before it connects, and the UI events are wired only after |
| Station.TeardownReleases | src/main.ts:82-88 | the teardown leaves no transport with listeners or connected |
| Station.RewireTakesNew | src/main.ts:94-131 | after the rewiring exactly the new transport has listeners and is connected |
| Station.HistoryHoldsNewest | src/main.ts:79-132 | after any run of assignments whose handlers do not overlap, exactly the newest transport has listeners and is connected |
| Station.AssignmentExtendsHistory | src/main.ts:79-132 | one more assignment appends one swap, after which exactly the new transport is held |
| Station.NeverTwoLive | src/main.ts:79-132 | at every point of a session whose assignment handlers do not overlap, even mid-swap, at most one transport has listeners and at most one is connected |
| Station.AwaitProfile | src/main.ts:121-126 | reads profile responses until the first from the address, and yields its profile; None iff none came from it |
| Station.Coordinator.constructor | src/main.ts:74-76 | no transport; the wanted position is (1, 0, 0) and no island is wanted |
| Station.RewireOrder | src/main.ts:94-131 | the new transport is built before it gets listeners, gets all three before it connects, and the UI events are wired only after the connection |
| Station.RewireHoldsAtMostNew | src/main.ts:94-131 | the rewiring takes up no transport but the new one |
| Station.RewireHoldsNew | src/main.ts:97-103 | the rewiring leaves the new transport listened to and connected |
| Station.SwapHistory | src/main.ts:79-132 | the teardown followed by the rewiring, as the handler records them, is the step list of the session with one more assignment, which holds exactly the new transport |
| Station.RewireSteps | src/main.ts:91-131 | the eleven calls of the rewiring, recorded one by one, are the rewiring |
| Station.Coordinator.OnIslandChanged | src/main.ts:79-132 | the trace grows by exactly one ordered swap and stays that of the assignments received, with exactly the new transport held; the old transport ends without listeners and disconnected; the new one is built from the island's uri, has exactly the three listeners and is connected; the application's listeners are exactly the three new ones; one join view whose `next('join')` the JOIN click has resolved and one chat room with its forwarders are appended, earlier views kept; the position is shown only if it moved |
| Station.Coordinator.Swap | src/main.ts:82-131 | the teardown then the rewiring, each call recorded as made; afterwards only the new transport is held, and it agrees with the held sets; the application and both transports end as the handler leaves them, with the join view's `next('join')` resolved by the JOIN click |
| Station.Coordinator.ClearAppListenersStep | src/main.ts:82 | the application's listeners are all gone, and the call is recorded |
| Station.Coordinator.ClearListenersOf | src/main.ts:86 | the transport's listeners are all gone and the trace lets go of it as it loses them |
| Station.Coordinator.DisconnectOf | src/main.ts:87 | the transport is disconnected, nothing is sent, and the trace lets go of it as it disconnects |
| Station.Coordinator.AttachOf | src/main.ts:97-100 | the listener is added to the transport, and the trace takes the transport up as it gains it |
| Station.Coordinator.ConnectOf | src/main.ts:103 | the transport is connected, nothing is sent, and the trace takes it up as it connects |
| Station.Coordinator.AttachAppOf | src/main.ts:106-127 | one listener is added to the application's events, and the call is recorded |
| Station.Coordinator.AskJoinStep | src/main.ts:91 | a join view is appended and the earlier views stay; the await completes with the JOIN click (src/ui/steps.ts:266-268), which resolves the view's `next('join')` with the `join` event and takes its one-shot receiver off, leaving the view enabled; the call is recorded |
| Station.Coordinator.Release | src/main.ts:82-88 | clears the application's listeners, then the old transport's, then disconnects it, each recorded as made, so the trace grows by exactly the teardown; afterwards nothing is held, and the views are untouched |
| Station.Coordinator.JoinAndAttach | src/main.ts:91-131 | asks to join and waits for the JOIN click, attaches a new transport, wires the application and shows the chat, each recorded as made, so the trace grows by exactly the rewiring; afterwards the new transport alone is held and agrees with what is held; the views appended are as for `OnIslandChanged` |
| Station.Coordinator.AttachNew | src/main.ts:94-103 | the new transport is built from the island's uri, gets its three listeners, then connects, each recorded as made; it is then held both ways |
| Station.Coordinator.WireApp | src/main.ts:106-127 | the application ends with exactly the `send-chat`, `teleport` and `request-profile` listeners, attached in that order |
| Station.Coordinator.ShowSession | src/main.ts:106-131 | wires the application's three listeners, appends one fresh chat room whose `send` and `teleport` go to the forwarders, keeps the earlier rooms, and shows the wanted position only if it moved |
| Station.Coordinator.OnTeleport | src/main.ts:112-115 | the wanted position and island become the event's |
| Station.Coordinator.OnSendChat | src/main.ts:106-109 | sends one chat message with the text and the clock reading on the current transport |
| Station.Coordinator.OnRequestProfile | src/main.ts:118-127 | sends a profile request with version 0; a profile comes back iff a response from that address arrives, and it is the profile of the first such response |
| Station.Coordinator.OnTransportMessage | src/main.ts:98 | the newest chat room changes as handling the message from its peer (or from "" without one) says; its position and form stay |
| Station.Coordinator.HeartbeatTick | src/main.ts:135-141 | shows the wanted position (the newest room's position and form change only if it moved; the views are kept), then publishes it with the wanted island on topic `heartbeat` |

## Left out

- The emitter of src/util/index.ts:46-95 is a line-for-line copy of src/util/emitter.ts. It is modelled once.
- Floating point: positions and user counts are integers, so `parseInt` in the teleport click
  (src/ui/chat.ts:96-105) is not modelled.
- Asynchrony and timers: each `await` in the island-changed handler is taken to complete before the
  next step, and two assignments never interleave. The handler is `async` and awaits at src/main.ts:91
  and src/main.ts:103, so a second assignment can arrive while the first waits for JOIN. Its handler
  then tears down the same transport again, the first handler builds, wires and connects a transport
  T1, and the second overwrites `transport` with T2. T1 is never released, so two transports are live.
  Station.NeverTwoLive and Station.HistoryHoldsNewest hold only for runs without such overlap. `setAsyncInterval` and `setOnNextListener` are
  not modelled; one heartbeat tick and the finite run of assignment messages stand for them.
- Async generators: a transport's stream is the finite sequence of events that arrived after the
  subscription. A pending `next` is not rejected on disconnection, as in the source.
- Station.Coordinator.OnTransportMessage and Station.Coordinator.OnRequestProfile take the transport's
  events to carry a `type` field, as src/transports/base.ts:5-9 declares them, so its emitter
  dispatches them. As written, the transport built at src/main.ts:94 (src/services/comms.ts:18) emits
  `{ $case: 'connected' }`, `{ $case: 'disconnected', ... }` and `{ $case: 'message', peer, message }`
  (src/transports/livekit.ts:56-74), with no `type`. The emitter keys on `type`
  (src/util/emitter.ts:54-55), so none of the listeners attached at src/main.ts:97-100 runs,
  `app.handleMessage` is never called, and the `streamCase` loop at src/main.ts:121 never sees a
  profile response. This is the same mismatch as the Findings row reports for the views.
- Station.Coordinator.AskJoinStep takes the user's JOIN click, which the await at src/main.ts:91 waits
  for, to happen before the call returns. When the click comes is not modelled.
- LiveKit and WebSocket transports, protobuf encoding, RPC and the network, and signing with
  `@dcl/crypto`: the server's replies are parameters and outgoing requests are results.
- The DOM: templates, `show`, `$ref`, scrolling, `formatUri`, modal and profile views.
- The React entry points (src/main.tsx, src/App.tsx) are not part of this model.
- Emitters.Emitter.Emit: a receiver that registers or removes receivers while `emit` runs is not
  modelled. Receivers are not run, so an exception in one of them is not modelled either.
- Emitters.Emitter.On: it accepts only `Handler` receivers. The one-shot receiver is private to `next`.
- `island.transport` (src/ui/steps.ts:257, src/ui/chat.ts:69) and `archipelagoClient.on` (src/main.ts:79)
  name members that `Island` and `ArchipelagoClient` do not have. They are not modelled: the
  island-changed handler is entered directly with the island, and `setIsland` is only display.
- Archipelago.ArchipelagoClient.Connect takes the realm URL as a parameter. As written,
  `archipelagoClient.connect()` (src/main.ts:53) passes nothing, so `realmUrl.split('https://')`
  (src/services/archipelago.ts:57-58) runs on `undefined` and throws a TypeError. `start()` then rejects
  at src/main.ts:53, and no handshake, heartbeat or island-changed handler ever runs. The model of the
  session starts from a realm URL that is passed.
- ChatViews.ChatRoomView.AddMessage and ChatViews.ChatRoomView.ClickSender model the repaired
  `chatMessage.events.on` in place of `chatMessage.on` (src/ui/chat.ts:54). `View` has no `on`, so as
  written `addMessage` throws for every sender starting with `0x`. The line is then never appended
  (src/ui/chat.ts:59 comes after the call), and the `handleMessage` that called it stops. In a live
  room every peer is an address, so this hits every peer's chat line.
- `app.setRequestedProfile(JSON.parse(...))` (src/main.ts:123): the application view shown has no such
  method, and JSON is not parsed. `OnRequestProfile` returns the serialized profile instead.
- `request-profile` on the application's emitter: `AppEvent` has no such type and `showChat` forwards
  only `send` and `teleport`. The listener is attached, but nothing in the model emits to it.
- `Object.keys(payload.peers)` is a set of keys: the order of the peer list is not modelled.
- Steps.SortByUsers: the stability of `Array.prototype.sort` (equal user counts keep their order) is not
  stated.
- Steps.StepButtonView.OnClick, Steps.SelectRealmView.OnRowClick, ChatViews.ChatRoomView.OnSendClick,
  ChatViews.ChatRoomView.ClickSender, App.AppView.ShowChat, App.AppView.ForwardSend and
  App.AppView.ForwardTeleport model the corrected `$case` dispatch of the Findings row (Views.CaseTag).
  As written, none of their emits reaches a receiver. The Station model, which goes past JOIN at
  src/main.ts:91, presumes the same correction.
- Steps.StepButtonView.OnClick and Steps.SelectRealmView.OnRowClick: receivers are not run, so the
  emit-then-disable order shows only in the method bodies.
- Station.Coordinator.Release: transports older than the previous one are not tracked in the heap;
  the trace lemmas cover them.
- App.AppView.ShowChat: the previous room's `disable` is the empty default of `StepView`, so nothing
  happens to it.

## Findings

| source | as written | input that shows it | evidently intended | confidence | as-written member | corrected member |
|---|---|---|---|---|---|---|
| src/ui/base.ts:14-16 with src/util/index.ts:88-93 | Every view event is built as `{ $case: ... }` (built at src/ui/steps.ts:19 and src/ui/chat.ts:90, listened for at src/ui/app.ts:124-130). The view's emitter dispatches on `event.type`, which is undefined for such events, so no receiver runs. In particular `app.askJoinIsland(island)` returns a `next('join')` that never resolves, so `await app.askJoinIsland(island)` at src/main.ts:91 stalls every island swap and no transport is ever built. | `WelcomeView` clicked while `askStart` awaits `events.next('start')`: the promise stays pending and the receiver stays registered. | dispatch on the event's `$case`, so `next('start')` resolves with the event | high, not executed | Views.ViewEventLostAsWritten | Views.ViewEventDeliveredByCase |
