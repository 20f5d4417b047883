/**
 * The chat room of src/ui/chat.ts: four counters, a log of lines (a line whose sender is an address
 * links to that sender's profile), the position form and the chat input, and the events the room
 * emits. The room's emitter dispatches on the `$case` (see `Views.CaseTag`).
 */
module ChatViews {
  import opened Wrappers
  import opened Strings
  import opened Emitters
  import opened Comms
  import opened Views

  /** `ChatRoomEvent` */
  datatype ChatRoomEvent =
    | SendText(text: string)
    | TeleportTo(x: int, y: int, island: Option<string>)
    | RequestProfile(address: string)

  function ChatRoomCase(ev: ChatRoomEvent): string {
    match ev
    case SendText(_) => "send"
    case TeleportTo(_, _, _) => "teleport"
    case RequestProfile(_) => "request-profile"
  }

  /** The room's `stats` record. */
  datatype Stats = Stats(nPeers: nat, nPings: nat, nPongs: nat, nMovements: nat)

  const NO_STATS := Stats(0, 0, 0, 0)
  /** The position form of a new chat room: nothing shown, nothing typed. */
  const BLANK_FORM := Form(None, None, None, "")

  /** A line of the log: its sender, its text, and whether clicking the sender requests a profile. */
  datatype ChatLine = ChatLine(sender: string, text: string, profileLink: bool)

  /** The position form and the chat input; None is a field still holding the template's content. */
  datatype Form = Form(x: Option<int>, y: Option<int>, island: Option<string>, chat: string)

  /** `addMessage(sender, text)`: the line it appends. */
  function MessageLine(sender: string, text: string): ChatLine {
    ChatLine(sender, text, StartsWith(sender, "0x"))
  }

  /** Only a sender written as an address gets a profile link; the line shows sender and text as given. */
  lemma MessageLineLinksAddresses(sender: string, text: string)
    ensures MessageLine(sender, text).profileLink <==> |sender| >= 2 && sender[0] == '0' && sender[1] == 'x'
    ensures MessageLine(sender, text).sender == sender && MessageLine(sender, text).text == text
  {
    if |sender| >= 2 {
      assert sender[..2] == [sender[0], sender[1]];
    }
  }

  /** `addEmote(sender, emoteId)`: the text of the line it appends. */
  function EmoteText(emoteId: string): string {
    "* emote/" + emoteId + " *"
  }

  /** Different emotes give different lines: the id is recovered from the text. */
  lemma {:induction false} EmoteTextInjective(a: string, b: string)
    requires EmoteText(a) == EmoteText(b)
    ensures a == b
  {
    var ta, tb := EmoteText(a), EmoteText(b);
    assert |a| == |b|;
    assert a == ta[8..8 + |a|];
    assert b == tb[8..8 + |b|];
  }

  /** The guard of `setPosition`: no position shown yet, or a different x or y (a change of z alone
      does not count). */
  predicate Moved(last: Option<Position>, p: Position) {
    last.None? || last.value.x != p.x || last.value.y != p.y
  }

  /** Showing a position again, or the same x and y at another height, leaves the form alone. */
  lemma MovedIgnoresHeight(p: Position, z: int)
    ensures !Moved(Some(p), p) && !Moved(Some(p), p.(z := z))
    ensures forall q: Position :: Moved(Some(p), q) <==> (q.x, q.y) != (p.x, p.y)
  {
  }

  /** What `setPosition(position, island)` leaves in `lastPosition` and the form: x and y (and a
      non-empty island) are written only when the position moved. */
  function ShowPosition(last: Option<Position>, form: Form, position: Position, island: Option<string>): (r: (Option<Position>, Form))
    ensures Moved(last, position) ==> r.0 == Some(position) && r.1.x == Some(position.x) && r.1.y == Some(position.y)
    ensures !Moved(last, position) ==> r == (last, form)
    ensures r.1.chat == form.chat
    ensures r.1.island == if Moved(last, position) && island.Some? && island.value != "" then island else form.island
  {
    if Moved(last, position) then
      var f := form.(x := Some(position.x), y := Some(position.y));
      (Some(position), if island.Some? && island.value != "" then f.(island := island) else f)
    else
      (last, form)
  }

  /** Showing the same position twice is the same as showing it once, whatever the island given the
      second time: the repeat cannot overwrite an edit in between. */
  lemma ShowPositionIdempotent(last: Option<Position>, form: Form, position: Position, island: Option<string>, island2: Option<string>, edited: Form)
    ensures var r := ShowPosition(last, form, position, island);
            ShowPosition(r.0, edited, position, island2) == (r.0, edited)
  {
  }

  class ChatRoomView {
    const events: Emitter<ChatRoomEvent>
    var stats: Stats
    var log: seq<ChatLine>
    var lastPosition: Option<Position>
    var form: Form

    ghost predicate Valid()
      reads this, events
    {
      events.Valid() && forall ev :: events.tagOf(ev) == CaseTag(ChatRoomCase, ev)
    }

    constructor ()
      ensures Valid() && fresh(events) && events.receivers == map[]
      ensures stats == NO_STATS && log == [] && lastPosition == None
      ensures form == BLANK_FORM
    {
      events := new Emitter((ev: ChatRoomEvent) => CaseTag(ChatRoomCase, ev));
      stats := NO_STATS;
      log := [];
      lastPosition := None;
      form := BLANK_FORM;
    }

    method AddPing()
      modifies this
      ensures stats == old(stats).(nPings := old(stats).nPings + 1)
      ensures log == old(log) && lastPosition == old(lastPosition) && form == old(form)
    {
      stats := stats.(nPings := stats.nPings + 1);
    }

    method AddPong()
      modifies this
      ensures stats == old(stats).(nPongs := old(stats).nPongs + 1)
      ensures log == old(log) && lastPosition == old(lastPosition) && form == old(form)
    {
      stats := stats.(nPongs := stats.nPongs + 1);
    }

    method AddMovement()
      modifies this
      ensures stats == old(stats).(nMovements := old(stats).nMovements + 1)
      ensures log == old(log) && lastPosition == old(lastPosition) && form == old(form)
    {
      stats := stats.(nMovements := stats.nMovements + 1);
    }

    method AddMessage(sender: string, text: string)
      modifies this
      ensures log == old(log) + [MessageLine(sender, text)]
      ensures stats == old(stats) && lastPosition == old(lastPosition) && form == old(form)
    {
      log := log + [MessageLine(sender, text)];
    }

    method AddEmote(sender: string, emoteId: string)
      modifies this
      ensures log == old(log) + [MessageLine(sender, EmoteText(emoteId))]
      ensures stats == old(stats) && lastPosition == old(lastPosition) && form == old(form)
    {
      AddMessage(sender, EmoteText(emoteId));
    }

    method SetPosition(position: Position, island: Option<string>)
      modifies this
      ensures (lastPosition, form) == ShowPosition(old(lastPosition), old(form), position, island)
      ensures stats == old(stats) && log == old(log)
    {
      if Moved(lastPosition, position) {
        form := form.(x := Some(position.x), y := Some(position.y));
        if island.Some? && island.value != "" {
          form := form.(island := island);
        }
        lastPosition := Some(position);
      }
    }

    /** The user types into the chat input. */
    method TypeChat(text: string)
      modifies this
      ensures form == old(form).(chat := text)
      ensures stats == old(stats) && log == old(log) && lastPosition == old(lastPosition)
    {
      form := form.(chat := text);
    }

    /** `onSendClick` (also reached by Enter in the chat input): logs the text as the user's own, emits
        it, and clears the input. */
    method OnSendClick() returns (calls: seq<Receiver>)
      requires Valid()
      modifies this, events
      ensures Valid()
      ensures log == old(log) + [MessageLine("You", old(form).chat)]
      ensures form == old(form).(chat := "")
      ensures stats == old(stats) && lastPosition == old(lastPosition)
      ensures forall r :: r in calls <==> r in Registered(old(events.receivers), "send")
      ensures events.receivers == AfterEmit(old(events.receivers), Some("send"))
      ensures events.caught == Settle(old(events.caught), Registered(old(events.receivers), "send"), SendText(old(form).chat))
    {
      var text := form.chat;
      AddMessage("You", text);
      calls := events.Emit(SendText(text));
      form := form.(chat := "");
    }

    /** A click on the sender of line `i`: the line's own view emits `click-sender`, and the handler the
        room attached to an address line emits `request-profile` for that sender. */
    method ClickSender(i: nat) returns (calls: seq<Receiver>)
      requires Valid() && i < |log|
      modifies events
      ensures Valid()
      ensures log[i].profileLink ==>
        (forall r :: r in calls <==> r in Registered(old(events.receivers), "request-profile")) &&
        events.receivers == AfterEmit(old(events.receivers), Some("request-profile")) &&
        events.caught == Settle(old(events.caught), Registered(old(events.receivers), "request-profile"), RequestProfile(log[i].sender))
      ensures !log[i].profileLink ==> calls == [] && events.receivers == old(events.receivers) && events.caught == old(events.caught)
    {
      if log[i].profileLink {
        calls := events.Emit(RequestProfile(log[i].sender));
      } else {
        calls := [];
      }
    }
  }
}
