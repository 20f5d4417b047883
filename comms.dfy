/**
 * The values exchanged over a comms transport: a world position, and the `message` field of a comms
 * packet, discriminated by its `$case`.
 */
module Comms {

  /** A world position (`{x, y, z}`); coordinates are integers in this model. */
  datatype Position = Position(x: int, y: int, z: int)

  datatype Chat = Chat(message: string, timestamp: int)
  datatype ProfileRequest = ProfileRequest(address: string, profileVersion: int)
  datatype ProfileResponse = ProfileResponse(serializedProfile: string)
  datatype AnnounceProfileVersion = AnnounceProfileVersion(profileVersion: int)

  /** `Packet['message']`, one variant per `$case`; the core never reads the scene and voice payloads. */
  datatype Packet =
    | PositionMsg(position: Position)
    | ChatMsg(chat: Chat)
    | ProfileVersionMsg(profileVersion: AnnounceProfileVersion)
    | ProfileRequestMsg(profileRequest: ProfileRequest)
    | ProfileResponseMsg(profileResponse: ProfileResponse)
    | SceneMsg
    | VoiceMsg

  /** The `$case` discriminant of a packet message. */
  function CaseOf(m: Packet): string {
    match m
    case PositionMsg(_) => "position"
    case ChatMsg(_) => "chat"
    case ProfileVersionMsg(_) => "profileVersion"
    case ProfileRequestMsg(_) => "profileRequest"
    case ProfileResponseMsg(_) => "profileResponse"
    case SceneMsg => "scene"
    case VoiceMsg => "voice"
  }
}
