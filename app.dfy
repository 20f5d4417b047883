/**
 * The application view of src/ui/app.ts: it reacts to incoming comms messages in the newest chat room,
 * keeps the last position shown, adds one join-island view and one chat room per island, and turns the
 * chat room's events into application events (which carry a `type` field, so their emitter reaches its
 * receivers as written).
 */
module App {
  import opened Wrappers
  import opened Strings
  import opened Emitters
  import opened Comms
  import opened Util
  import opened Views
  import opened ChatViews
  import opened Steps
  import opened Archipelago

  /** `AppEvent` */
  datatype AppEvent =
    | SendChat(text: string)
    | TeleportRequest(position: Position, island: Option<string>)

  function AppEventType(ev: AppEvent): string {
    match ev
    case SendChat(_) => "send-chat"
    case TeleportRequest(_, _) => "teleport"
  }

  /** The markers that open a ping, a pong and an emote chat message. */
  const PING: char := '\U{2411}'
  const PONG: char := '\U{2406}'
  const EMOTE: char := '\U{2410}'

  /** The ids of the two receivers `showChat` attaches to a new room. */
  const FORWARD_SEND: nat := 0
  const FORWARD_TELEPORT: nat := 1

  /** What `handleMessage` does to the newest chat room. */
  datatype Reaction =
    | NoReaction
    | CountPing
    | CountPong
    | CountMovement
    | Emote(sender: string, emoteId: string)
    | Say(sender: string, text: string)

  /** `content.split(' ')[0].slice(1)`: the first word without its marker. */
  function EmoteId(content: string): string {
    SliceFrom(FirstWord(content), 1)
  }

  /** The dispatch of `handleMessage` on the message's `$case` and on the chat text's first character. */
  function React(sender: string, msg: Packet): Reaction {
    match msg
    case ChatMsg(chat) =>
      var content := chat.message;
      if StartsWith(content, [PING]) then CountPing
      else if StartsWith(content, [PONG]) then CountPong
      else if StartsWith(content, [EMOTE]) then Emote(sender, EmoteId(content))
      else Say(sender, content)
    case PositionMsg(_) => CountMovement
    case ProfileRequestMsg(request) => Say(sender, "requests profile " + request.address)
    case _ => NoReaction
  }

  /** The counters and the log of a room after a reaction. */
  function Effect(stats: Stats, log: seq<ChatLine>, reaction: Reaction): (Stats, seq<ChatLine>) {
    match reaction
    case NoReaction => (stats, log)
    case CountPing => (stats.(nPings := stats.nPings + 1), log)
    case CountPong => (stats.(nPongs := stats.nPongs + 1), log)
    case CountMovement => (stats.(nMovements := stats.nMovements + 1), log)
    case Emote(sender, id) => (stats, log + [MessageLine(sender, EmoteText(id))])
    case Say(sender, text) => (stats, log + [MessageLine(sender, text)])
  }

  /** `s` begins with the character `c`. */
  lemma StartsWithChar(s: string, c: char)
    ensures StartsWith(s, [c]) <==> |s| > 0 && s[0] == c
  {
    if |s| > 0 {
      assert s[..1] == [s[0]];
    }
  }

  /** Exactly one of the four chat outcomes happens, chosen by the first character of the text. */
  lemma ChatOutcomes(sender: string, content: string, timestamp: int)
    ensures var r := React(sender, ChatMsg(Chat(content, timestamp)));
            (r == CountPing <==> |content| > 0 && content[0] == PING) &&
            (r == CountPong <==> |content| > 0 && content[0] == PONG) &&
            (r.Emote? <==> |content| > 0 && content[0] == EMOTE) &&
            (r.Emote? ==> r == Emote(sender, EmoteId(content))) &&
            (r.Say? <==> !(|content| > 0 && content[0] in {PING, PONG, EMOTE})) &&
            (r.Say? ==> r == Say(sender, content))
  {
    StartsWithChar(content, PING);
    StartsWithChar(content, PONG);
    StartsWithChar(content, EMOTE);
  }

  /** The first word of `s`: a prefix of `s` without a space, followed by a space or by the end. */
  lemma FirstWordShape(s: string)
    ensures var w := FirstWord(s);
            StartsWith(s, w) && ' ' !in w && (|w| == |s| || s[|w|] == ' ')
  {
    match IndexOf(s, " ")
    case None =>
      forall k | 0 <= k < |s| ensures s[k] != ' ' {
        assert !OccursAt(s, " ", k);
        assert s[k..k + 1] == [s[k]];
      }
    case Some(i) =>
      assert s[i..i + 1] == [s[i]];
      forall k | 0 <= k < i ensures s[k] != ' ' {
        assert !OccursAt(s, " ", k);
        assert s[k..k + 1] == [s[k]];
      }
  }

  /** The emote id is the marker's word with the marker removed: `EMOTE + id` is the text's first word,
      and the id contains no space. */
  lemma EmoteIdShape(content: string)
    requires |content| > 0 && content[0] == EMOTE
    ensures var id := EmoteId(content);
            [EMOTE] + id == FirstWord(content) && ' ' !in id &&
            StartsWith(content, [EMOTE] + id) &&
            (1 + |id| == |content| || content[1 + |id|] == ' ')
  {
    FirstWordShape(content);
    var w := FirstWord(content);
    assert content[0] != ' ';
    assert |w| > 0;
    assert w[0] == EMOTE;
    assert w == [w[0]] + w[1..];
  }

  /** The messages other than chat: a position counts one movement, a profile request logs one line,
      and anything else changes nothing. */
  lemma OtherOutcomes(sender: string, msg: Packet)
    requires !msg.ChatMsg?
    ensures React(sender, msg) == CountMovement <==> msg.PositionMsg?
    ensures React(sender, msg).Say? <==> msg.ProfileRequestMsg?
    ensures msg.ProfileRequestMsg? ==> React(sender, msg) == Say(sender, "requests profile " + msg.profileRequest.address)
    ensures React(sender, msg) == NoReaction <==> !msg.PositionMsg? && !msg.ProfileRequestMsg?
  {
  }

  /** The counters and the log after `handleMessage`, stated directly on the message: each counter
      moves by one exactly for its own kind of message, the peer count never moves, and the log grows by
      one line exactly for a profile request or a chat text that is neither a ping nor a pong. */
  lemma HandleMessageEffect(sender: string, msg: Packet, stats: Stats, log: seq<ChatLine>)
    ensures var e := Effect(stats, log, React(sender, msg));
            var text := if msg.ChatMsg? then msg.chat.message else "";
            e.0.nPeers == stats.nPeers &&
            e.0.nPings == stats.nPings + (if msg.ChatMsg? && |text| > 0 && text[0] == PING then 1 else 0) &&
            e.0.nPongs == stats.nPongs + (if msg.ChatMsg? && |text| > 0 && text[0] == PONG then 1 else 0) &&
            e.0.nMovements == stats.nMovements + (if msg.PositionMsg? then 1 else 0) &&
            e.1[..|log|] == log && |e.1| <= |log| + 1 &&
            (|e.1| == |log| + 1 <==> msg.ProfileRequestMsg? || (msg.ChatMsg? && !(|text| > 0 && text[0] in {PING, PONG})))
  {
    if msg.ChatMsg? {
      ChatOutcomes(sender, msg.chat.message, msg.chat.timestamp);
    }
  }

  class AppView {
    const events: Emitter<AppEvent>
    var lastPosition: Option<Position>
    var joinIslands: seq<StepButtonView>
    var chatRooms: seq<ChatRoomView>

    ghost predicate Valid()
      reads this, events
    {
      events.Valid() && (forall ev :: events.tagOf(ev) == Some(AppEventType(ev))) &&
      forall v :: v in joinIslands ==> v.action == Join && !v.ownsDisable
    }

    constructor ()
      ensures Valid() && fresh(events) && events.receivers == map[]
      ensures lastPosition == None && joinIslands == [] && chatRooms == []
    {
      events := new Emitter((ev: AppEvent) => Some(AppEventType(ev)));
      lastPosition := None;
      joinIslands := [];
      chatRooms := [];
    }

    /** The newest chat room, the one `handleMessage` and `setPosition` act on. */
    function NewestRoom(): set<ChatRoomView>
      reads this
    {
      if chatRooms == [] then {} else {chatRooms[|chatRooms| - 1]}
    }

    /** With no chat room nothing happens; otherwise the newest room counts or logs the message. */
    method HandleMessage(sender: string, msg: Packet)
      modifies NewestRoom()
      ensures chatRooms != [] ==>
        var room := chatRooms[|chatRooms| - 1];
        (room.stats, room.log) == Effect(old(room.stats), old(room.log), React(sender, msg)) &&
        room.lastPosition == old(room.lastPosition) && room.form == old(room.form)
    {
      var last := LastOf(chatRooms);
      if last.None? {
        return;
      }
      var room := last.value;
      match msg
      case ChatMsg(chat) =>
        var content := chat.message;
        if StartsWith(content, [PING]) {
          room.AddPing();
        } else if StartsWith(content, [PONG]) {
          room.AddPong();
        } else if StartsWith(content, [EMOTE]) {
          room.AddEmote(sender, EmoteId(content));
        } else {
          room.AddMessage(sender, content);
        }
      case PositionMsg(_) =>
        room.AddMovement();
      case ProfileRequestMsg(request) =>
        room.AddMessage(sender, "requests profile " + request.address);
      case _ =>
    }

    /** Records and shows a position only when it moved; the newest room applies its own rule. */
    method SetPosition(position: Position)
      modifies this, NewestRoom()
      ensures lastPosition == if Moved(old(lastPosition), position) then Some(position) else old(lastPosition)
      ensures chatRooms == old(chatRooms) && joinIslands == old(joinIslands)
      ensures chatRooms != [] ==>
        var room := chatRooms[|chatRooms| - 1];
        (room.lastPosition, room.form) ==
          (if Moved(old(lastPosition), position)
           then ShowPosition(old(room.lastPosition), old(room.form), position, None)
           else (old(room.lastPosition), old(room.form))) &&
        room.stats == old(room.stats) && room.log == old(room.log)
    {
      if Moved(lastPosition, position) {
        lastPosition := Some(position);
        var last := LastOf(chatRooms);
        if last.Some? {
          last.value.SetPosition(position, None);
        }
      }
    }

    /** Adds one join-island view and waits for its `join`. The previous view's `disable` is the empty
        one of `StepView`, so that view stays as it was. The island is only displayed. */
    method AskJoinIsland(island: Island) returns (view: StepButtonView, w: nat)
      requires Valid()
      modifies this, if joinIslands == [] then {} else {joinIslands[|joinIslands| - 1]}
      ensures Valid() && fresh(view) && fresh(view.events) && view.Valid()
      ensures joinIslands == old(joinIslands) + [view] && chatRooms == old(chatRooms)
      ensures lastPosition == old(lastPosition)
      ensures view.action == Join && !view.disabled && !view.ownsDisable
      ensures view.events.receivers == map["join" := {Waiter(w)}] && view.events.Awaited(w) == None
      ensures old(joinIslands) != [] ==> joinIslands[|joinIslands| - 2].disabled == old(joinIslands[|joinIslands| - 1].disabled)
    {
      var last := LastOf(joinIslands);
      view := new StepButtonView(Join, false);
      if last.Some? {
        last.value.Disable();
      }
      joinIslands := joinIslands + [view];
      w := view.events.Next(StepCase(Join));
      AddRegisters(map[], "join", Waiter(w), "join");
    }

    /** Adds one chat room and forwards its `send` and `teleport` events to this view's emitter. The
        previous room's `disable` is the empty one of `StepView`. */
    method ShowChat() returns (room: ChatRoomView)
      requires Valid()
      modifies this
      ensures Valid() && fresh(room) && fresh(room.events) && room.Valid()
      ensures chatRooms == old(chatRooms) + [room] && joinIslands == old(joinIslands)
      ensures lastPosition == old(lastPosition)
      ensures room.events.receivers == map["send" := {Handler(FORWARD_SEND)}, "teleport" := {Handler(FORWARD_TELEPORT)}]
      ensures room.stats == NO_STATS && room.log == [] && room.lastPosition == None && room.form == BLANK_FORM
    {
      room := new ChatRoomView();
      chatRooms := chatRooms + [room];
      var _ := room.events.On("send", Handler(FORWARD_SEND));
      var _ := room.events.On("teleport", Handler(FORWARD_TELEPORT));
    }

    /** The receiver `FORWARD_SEND`: a room's `send` becomes `send-chat`. */
    method ForwardSend(ev: ChatRoomEvent) returns (calls: seq<Receiver>)
      requires Valid() && ev.SendText?
      modifies events
      ensures Valid()
      ensures forall r :: r in calls <==> r in Registered(old(events.receivers), "send-chat")
      ensures events.receivers == AfterEmit(old(events.receivers), Some("send-chat"))
      ensures events.caught == Settle(old(events.caught), Registered(old(events.receivers), "send-chat"), SendChat(ev.text))
    {
      calls := events.Emit(SendChat(ev.text));
    }

    /** The receiver `FORWARD_TELEPORT`: a room's `teleport` becomes `teleport` at height 0. */
    method ForwardTeleport(ev: ChatRoomEvent) returns (calls: seq<Receiver>)
      requires Valid() && ev.TeleportTo?
      modifies events
      ensures Valid()
      ensures forall r :: r in calls <==> r in Registered(old(events.receivers), "teleport")
      ensures events.receivers == AfterEmit(old(events.receivers), Some("teleport"))
      ensures events.caught == Settle(old(events.caught), Registered(old(events.receivers), "teleport"),
                                      TeleportRequest(Position(ev.x, ev.y, 0), ev.island))
    {
      calls := events.Emit(TeleportRequest(Position(ev.x, ev.y, 0), ev.island));
    }
  }
}
