/**
 * The adapter base class of src/adapters/base.ts: it owns an emitter, exposes the same object as
 * `events`, and wraps each outgoing payload in its `$case` variant before one call of `send`. The
 * abstract `send` is represented by the log of messages handed to it.
 */
module Adapters {
  import opened Wrappers
  import opened Emitters
  import opened Comms

  /** `AdapterEvent` */
  datatype AdapterEvent =
    | AdapterDisconnected(kicked: bool, error: Option<string>)
    | PeerConnected(address: string)
    | PeerDisconnected(address: string)
    | AdapterMessage(address: string, message: Packet)
    | AdapterError(failure: string)

  /** The `type` field of an adapter event. */
  function AdapterEventType(ev: AdapterEvent): string {
    match ev
    case AdapterDisconnected(_, _) => "disconnected"
    case PeerConnected(_) => "peer-connected"
    case PeerDisconnected(_) => "peer-disconnected"
    case AdapterMessage(_, _) => "message"
    case AdapterError(_) => "error"
  }

  class Adapter {
    const emitter: Emitter<AdapterEvent>
    /** The public view of the emitter, without `emit`. */
    const events: Emitter<AdapterEvent>
    /** The messages passed to `send`, in order. */
    var sent: seq<Packet>

    ghost predicate Valid()
      reads this, emitter
    {
      events == emitter && emitter.Valid() && forall ev :: emitter.tagOf(ev) == Some(AdapterEventType(ev))
    }

    constructor ()
      ensures Valid() && fresh(emitter)
      ensures events == emitter && emitter.receivers == map[]
      ensures forall ev :: emitter.tagOf(ev) == Some(AdapterEventType(ev))
      ensures sent == []
    {
      emitter := new Emitter((ev: AdapterEvent) => Some(AdapterEventType(ev)));
      events := emitter;
      sent := [];
    }

    /** Publishing on `emitter` reaches exactly the receivers added through `events`. */
    method Publish(ev: AdapterEvent) returns (calls: seq<Receiver>)
      requires Valid()
      modifies emitter
      ensures Valid()
      ensures forall r :: r in calls <==> r in Registered(old(events.receivers), AdapterEventType(ev))
      ensures Distinct(calls)
      ensures emitter.receivers == AfterEmit(old(emitter.receivers), Some(AdapterEventType(ev)))
      ensures emitter.caught == Settle(old(emitter.caught), Dispatch(old(emitter.receivers), Some(AdapterEventType(ev))), ev)
    {
      calls := emitter.Emit(ev);
    }

    method SendPosition(position: Position)
      modifies this
      ensures sent == old(sent) + [PositionMsg(position)]
    {
      sent := sent + [PositionMsg(position)];
    }

    method SendChat(chat: Chat)
      modifies this
      ensures sent == old(sent) + [ChatMsg(chat)]
    {
      sent := sent + [ChatMsg(chat)];
    }

    method SendProfileVersion(profileVersion: AnnounceProfileVersion)
      modifies this
      ensures sent == old(sent) + [ProfileVersionMsg(profileVersion)]
    {
      sent := sent + [ProfileVersionMsg(profileVersion)];
    }

    method SendProfileRequest(profileRequest: ProfileRequest)
      modifies this
      ensures sent == old(sent) + [ProfileRequestMsg(profileRequest)]
    {
      sent := sent + [ProfileRequestMsg(profileRequest)];
    }

    method SendProfileResponse(profileResponse: ProfileResponse)
      modifies this
      ensures sent == old(sent) + [ProfileResponseMsg(profileResponse)]
    {
      sent := sent + [ProfileResponseMsg(profileResponse)];
    }
  }

  /** Each variant carries its payload under its own `$case`, and no two variants share one. */
  lemma SendCases(p: Position, c: Chat, v: AnnounceProfileVersion, q: ProfileRequest, r: ProfileResponse)
    ensures CaseOf(PositionMsg(p)) == "position" && CaseOf(ChatMsg(c)) == "chat"
    ensures CaseOf(ProfileVersionMsg(v)) == "profileVersion"
    ensures CaseOf(ProfileRequestMsg(q)) == "profileRequest" && CaseOf(ProfileResponseMsg(r)) == "profileResponse"
    ensures forall m1: Packet, m2: Packet :: CaseOf(m1) == CaseOf(m2) ==>
      && m1.PositionMsg? == m2.PositionMsg? && m1.ChatMsg? == m2.ChatMsg?
      && m1.ProfileVersionMsg? == m2.ProfileVersionMsg? && m1.ProfileRequestMsg? == m2.ProfileRequestMsg?
      && m1.ProfileResponseMsg? == m2.ProfileResponseMsg? && m1.SceneMsg? == m2.SceneMsg?
      && m1.VoiceMsg? == m2.VoiceMsg?
  {
  }
}
