/**
 * The comms subset of a realm's RPC interface (src/services/archipelago.ts): the socket endpoint
 * derived from a realm URL, the challenge/heartbeat messages, the island-change subscriptions and the
 * parsing of an island assignment. The RPC calls themselves are outside the model: what the server
 * answers is a parameter, what is sent is a result.
 */
module Archipelago {
  import opened Wrappers
  import opened Strings
  import opened Comms

  /** A fellow member of an island. */
  datatype Peer = Peer(id: string)

  /** The assignment Archipelago delivers; `peers` are the keys of the message's peer map. */
  datatype Island = Island(id: string, adapter: string, uri: string, peers: set<string>)

  /** A Decentraland server. */
  datatype Realm = Realm(url: string, serverName: string, usersCount: int)

  /** `IslandChangedMessage`, as decoded from a system message. */
  datatype IslandChangedMessage = IslandChangedMessage(connStr: string, islandId: string, peers: map<string, Position>)

  datatype ChallengeRequest = ChallengeRequest(address: string)
  datatype ChallengeResponse = ChallengeResponse(challengeToSign: string)
  datatype SignedChallenge = SignedChallenge(authChainJson: string)
  datatype WelcomePeerInformation = WelcomePeerInformation(peerId: string)
  datatype Heartbeat = Heartbeat(position: Position, desiredRoom: Option<string>)
  /** A `publishToTopic` call. */
  datatype Publication = Publication(topic: string, payload: Heartbeat)
  /** A system-message subscription, with the topic it was made on. */
  datatype Subscription = Subscription(topic: string, id: nat)

  const SUPPORTED_ADAPTER := "livekit"
  const UNSUPPORTED_ADAPTER := "Only livekit is supported"
  const HTTPS := "https://"

  /** The template `wss://${realmUrl.split('https://')[1]}/bff/rpc`; an undefined piece prints as
      "undefined". */
  function WsUrl(realmUrl: string): string {
    var host := match SplitSecond(realmUrl, HTTPS)
      case None => "undefined"
      case Some(h) => h;
    "wss://" + host + "/bff/rpc"
  }

  /** For `realmUrl = "https://" + h`, where `h` holds no further "https://", the socket URL is
      `"wss://" + h + "/bff/rpc"`. */
  lemma WsUrlOfHttpsRealm(h: string)
    requires !Contains(h, HTTPS)
    ensures WsUrl(HTTPS + h) == "wss://" + h + "/bff/rpc"
  {
    var s := HTTPS + h;
    assert OccursAt(s, HTTPS, 0);
    assert s[|HTTPS|..] == h;
    IndexOfFinds(h, HTTPS);
  }

  /** A realm URL without "https://" yields the socket URL "wss://undefined/bff/rpc". */
  lemma WsUrlWithoutHttps(realmUrl: string)
    requires !Contains(realmUrl, HTTPS)
    ensures WsUrl(realmUrl) == "wss://undefined/bff/rpc"
  {
    IndexOfFinds(realmUrl, HTTPS);
  }

  /** `connStr.split(":", 1)[0]`: the adapter name, e.g. "livekit" in "livekit:https://...". */
  function AdapterOf(connStr: string): string {
    BeforeFirst(connStr, ":")
  }

  /** `connStr.slice(adapter.length + 1)` */
  function UriOf(connStr: string): string {
    SliceFrom(connStr, |AdapterOf(connStr)| + 1)
  }

  /** The adapter is the prefix before the first colon and holds no colon; the uri is everything after
      that colon, so `adapter + ":" + uri` gives back `connStr`. Without a colon, the adapter is the
      whole string and the uri is empty. */
  lemma ConnStrSplit(connStr: string)
    ensures ':' !in AdapterOf(connStr)
    ensures |AdapterOf(connStr)| <= |connStr| && connStr[..|AdapterOf(connStr)|] == AdapterOf(connStr)
    ensures ':' in connStr ==> AdapterOf(connStr) + ":" + UriOf(connStr) == connStr
    ensures ':' !in connStr ==> AdapterOf(connStr) == connStr && UriOf(connStr) == ""
  {
    var a := AdapterOf(connStr);
    match IndexOf(connStr, ":")
    case None =>
      forall j | 0 <= j < |connStr| ensures connStr[j] != ':' {
        assert !OccursAt(connStr, ":", j);
      }
    case Some(i) =>
      forall j | 0 <= j < i ensures connStr[j] != ':' {
        assert !OccursAt(connStr, ":", j);
      }
      assert OccursAt(connStr, ":", i);
      assert connStr[i] == ':';
      assert connStr == connStr[..i] + ":" + connStr[i + 1..];
  }

  /** The island an assignment message delivers, or the error thrown for an adapter other than livekit. */
  function ParseIsland(msg: IslandChangedMessage): Result<Island> {
    var adapter := AdapterOf(msg.connStr);
    var id := msg.islandId;
    var uri := UriOf(msg.connStr);
    var peers := msg.peers.Keys;
    if adapter != SUPPORTED_ADAPTER then Err(UNSUPPORTED_ADAPTER)
    else Ok(Island(id, adapter, uri, peers))
  }

  /** A string starting with "livekit:" has adapter "livekit" and the rest after that colon as uri. */
  lemma LivekitPrefix(s: string)
    requires "livekit:" <= s
    ensures AdapterOf(s) == SUPPORTED_ADAPTER && UriOf(s) == s[8..]
  {
    assert OccursAt(s, ":", 7);
    forall j: nat | j < 7 ensures !OccursAt(s, ":", j) {
      assert s[j] == "livekit:"[j] != ':';
    }
    assert IndexOf(s, ":") == Some(7);
  }

  /** Adapter "livekit" comes only from the bare "livekit" or a string starting with "livekit:". */
  lemma LivekitAdapter(s: string)
    requires AdapterOf(s) == SUPPORTED_ADAPTER
    ensures s == "livekit" || "livekit:" <= s
  {
    ConnStrSplit(s);
    if ':' in s {
      assert s == "livekit:" + UriOf(s);
      assert s[..8] == "livekit:";
    }
  }

  /** The assignment parses iff its connection string is "livekit" or starts with "livekit:"; the island
      then carries the message's id, adapter "livekit", the text after that colon as uri ("" for the bare
      "livekit"), and the keys of the peer map. Any other string is refused with the livekit-only error. */
  lemma ParseIslandOutcome(msg: IslandChangedMessage)
    ensures ParseIsland(msg).Ok? <==> msg.connStr == "livekit" || "livekit:" <= msg.connStr
    ensures ParseIsland(msg).Ok? ==>
      ParseIsland(msg).value ==
        Island(msg.islandId, "livekit", if msg.connStr == "livekit" then "" else msg.connStr[8..], msg.peers.Keys)
    ensures ParseIsland(msg).Err? ==> ParseIsland(msg).message == UNSUPPORTED_ADAPTER
  {
    var s := msg.connStr;
    if AdapterOf(s) == SUPPORTED_ADAPTER {
      LivekitAdapter(s);
    }
    if "livekit:" <= s {
      LivekitPrefix(s);
    } else if s == "livekit" {
      ConnStrSplit(s);
    }
  }

  /** A livekit connection string parses into adapter "livekit" and the uri after the colon; any other
      adapter is refused. */
  lemma ParseLivekitConnStr(uri: string, id: string, peers: map<string, Position>)
    ensures ParseIsland(IslandChangedMessage("livekit:" + uri, id, peers)) == Ok(Island(id, "livekit", uri, peers.Keys))
    ensures ParseIsland(IslandChangedMessage("foo:bar", id, peers)).Err?
  {
    var s := "livekit:" + uri;
    assert s[..8] == "livekit:" && s[8..] == uri;
    LivekitPrefix(s);
    var f := "foo:bar";
    assert OccursAt(f, ":", 3);
    forall j: nat | j < 3 ensures !OccursAt(f, ":", j) {
      assert f[j] != ':';
    }
    assert IndexOf(f, ":") == Some(3);
  }

  /** The islands the listener receives from a run of assignment messages: the listener is called for
      each message in turn until one names an unsupported adapter; that error ends the consuming loop. */
  function Deliveries(msgs: seq<IslandChangedMessage>): (islands: seq<Island>)
    ensures |islands| <= |msgs|
    ensures forall i :: 0 <= i < |islands| ==> ParseIsland(msgs[i]) == Ok(islands[i])
    ensures |islands| < |msgs| ==> ParseIsland(msgs[|islands|]).Err?
    decreases |msgs|
  {
    if msgs == [] then []
    else match ParseIsland(msgs[0])
      case Err(_) => []
      case Ok(island) => [island] + Deliveries(msgs[1..])
  }

  /** `ArchipelagoClient` */
  class ArchipelagoClient {
    const realm: Realm
    /** The RPC port, set by `connect`. */
    var port: Option<nat>
    /** The island-change subscriptions made so far. */
    var subs: seq<Subscription>

    constructor (realm: Realm)
      ensures this.realm == realm && port == None && subs == []
    {
      this.realm := realm;
      port := None;
      subs := [];
    }

    /** `connect(realmUrl)`: opens the socket at the derived URL with protocol "bff"; `portId` is the
        port the RPC client creates. */
    method Connect(realmUrl: string, portId: nat) returns (wsUrl: string, wsProto: string)
      modifies this
      ensures wsUrl == WsUrl(realmUrl) && wsProto == "bff"
      ensures port == Some(portId) && subs == old(subs)
    {
      wsUrl := WsUrl(realmUrl);
      wsProto := "bff";
      port := Some(portId);
    }

    /** `requestChallenge(address)`: sends `{address}`; `reply` is the server's answer. */
    method RequestChallenge(address: string, reply: ChallengeResponse) returns (request: ChallengeRequest, challenge: string)
      requires port.Some?
      ensures request.address == address && challenge == reply.challengeToSign
    {
      request := ChallengeRequest(address);
      challenge := reply.challengeToSign;
    }

    /** `respondChallenge(authChain)`: sends the serialized chain; the peer is the welcome's `peerId`. */
    method RespondChallenge(authChainJson: string, welcome: WelcomePeerInformation) returns (request: SignedChallenge, peer: Peer)
      requires port.Some?
      ensures request.authChainJson == authChainJson && peer.id == welcome.peerId
    {
      request := SignedChallenge(authChainJson);
      peer := Peer(welcome.peerId);
    }

    /** `sendHeartbeat(position, desiredIsland)`: publishes on topic "heartbeat". */
    method SendHeartbeat(position: Position, desiredIsland: Option<string>) returns (published: Publication)
      requires port.Some?
      ensures published.topic == "heartbeat"
      ensures published.payload.position == position && published.payload.desiredRoom == desiredIsland
    {
      published := Publication("heartbeat", Heartbeat(position, desiredIsland));
    }

    /** `addIslandChangedListener(identity, listener)`: subscribes on `<address>.island_changed`; `sub` is
        the subscription the server returns, recorded in `subs`. */
    method AddIslandChangedListener(address: string, sub: nat) returns (topic: string)
      requires port.Some?
      modifies this
      ensures topic == address + ".island_changed"
      ensures subs == old(subs) + [Subscription(topic, sub)] && port == old(port)
    {
      topic := address + ".island_changed";
      subs := subs + [Subscription(topic, sub)];
    }

    /** `removeIslandChangedListeners()`: unsubscribes every recorded subscription, in order; the record
        itself is kept. */
    method RemoveIslandChangedListeners() returns (unsubscribed: seq<Subscription>)
      requires port.Some?
      ensures unsubscribed == subs
    {
      unsubscribed := subs;
    }
  }
}
