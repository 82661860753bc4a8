/** The values the session engine exchanges with its surroundings: status codes, listener
    callbacks, transport writes, and the answers the environment gives. */
module SessionTypes {
  import opened Wrappers
  import opened JavaTypes
  import opened RealtimeTypes
  import opened Proto
  import opened Codec
  import opened Rooms
  import opened Messages

  const STATUS_SUCCESS: int := 0
  const STATUS_INTERNAL_ERROR: int := 1
  const STATUS_NETWORK_ERROR: int := 2
  const STATUS_SESSION_CLOSED: int := 3
  const STATUS_REPLACED_BY_NEW_CONNECTION: int := 4
  const STATUS_NEW_SERVER_LOCATION: int := 5
  const STATUS_INVALID_MESSAGE: int := 6
  const STATUS_PROTOCOL_ERROR: int := 7
  const STATUS_PERMISSION_DENIED: int := 8
  const STATUS_ALREADY_CONNECTED: int := 9
  const STATUS_SESSION_NOT_CONNECTED: int := 10
  const STATUS_ROOM_NOT_JOINED: int := 11
  const STATUS_ROOM_ALREADY_CREATED: int := 12
  const STATUS_ROOM_CLOSED: int := 13
  const STATUS_ROOM_NOT_FOUND: int := 14
  const STATUS_ROOM_FULL: int := 15
  const STATUS_INVALID_DATA: int := 16
  const STATUS_BAD_STATE: int := 17
  const STATUS_PEER_NOT_FOUND: int := 18

  /** What a listener is told. */
  datatype Event =
    | OnConnected(info: map<string, Value>)
    | OnReconnecting(status: int)
    | OnConnectionFailed(status: int)
    | OnConnectionClosed(status: int)
    | OnPong(latency: int)
    | OnPang
    | OnRoomCreated(status: int, room: Room?)
    | OnRoomClosed(status: int, roomId: string)
    | OnRoomJoined(status: int, room: Room?)
    | OnRoomLeft(status: int, roomId: string)
    | OnPeerJoined(room: Room?, peer: Participant)
    | OnPeerLeft(room: Room?, peerId: string)
    | OnMatchStateChanged(status: int, room: Room?, state: MatchState)
    | OnRoomPropertyChanged(status: int, room: Room?, from: string, name: string)
    | OnParticipantPropertyChanged(status: int, room: Room?, peerId: string, name: string)
    | OnMessageReceived(message: Message)
    | OnMessageSent(status: int, msgid: int)

  /** A callback posted to the main thread: which listener, and what it is told. */
  datatype Callback = Callback(listener: nat, event: Event)

  /** The callbacks for a listener that may be null: a null listener is told nothing. */
  function Notify(listener: Option<nat>, e: Event): (cs: seq<Callback>)
    ensures |cs| <= 1
    ensures cs == [] <==> listener.None?
    ensures listener.Some? ==> cs[0].listener == listener.value && cs[0].event == e
  {
    if listener.Some? then [Callback(listener.value, e)] else []
  }

  /** An envelope handed to a transport. TCP connections are told apart by a number. */
  datatype Transmission =
    | TcpConnect(connection: nat, envelope: InMessage)
    | TcpSend(connection: nat, envelope: InMessage)
    | TcpDisconnect(connection: nat, envelope: InMessage)
    | UdpSend(envelope: InMessage)

  /** The answers of the world during one input event: the monotonic clock, whether socket
      writes succeed, and whether a UDP socket can be opened. */
  datatype Environment = Environment(now: int, writesSucceed: bool, udpOpens: bool)

  /** What a write on the TCP connection field does. */
  datatype WriteResult = Written | WriteFailed | NullConnection

  /** The three match commands a client can send. */
  datatype MatchCommand = StartMatch | StopMatch | ResetMatch

  function MatchCommandBody(c: MatchCommand, roomId: string): (r: Request)
    ensures r.StartGame? || r.StopGame? || r.ResetGame?
    ensures r.roomId == roomId
  {
    match c
    case StartMatch => StartGame(roomId)
    case StopMatch => StopGame(roomId)
    case ResetMatch => ResetGame(roomId)
  }

  /** The listener registered under `k`, null when absent or registered as null. */
  function ListenerOf<K>(m: map<K, Option<nat>>, k: K): (l: Option<nat>)
    ensures l.Some? ==> k in m && m[k] == l
    ensures k in m ==> l == m[k]
  {
    if k in m then m[k] else None
  }

  /** A map whose values are never null, seen as a Java map. */
  function Boxed(m: map<string, Value>): (b: map<string, Option<Value>>)
    ensures b.Keys == m.Keys
    ensures forall k | k in b :: b[k] == Some(m[k])
  {
    map k | k in m :: Some(m[k])
  }

  /** The client's match state for a server game state; an unknown one gives `fallback`. */
  function MatchStateOf(g: GameState, fallback: MatchState): (s: MatchState)
    ensures g == GAME_STATE_OTHER ==> s == fallback
    ensures g != GAME_STATE_OTHER ==> s != UNKNOWN
  {
    match g
    case GAME_PENDING => PENDING
    case GAME_READY => READY
    case GAME_RUNNING => RUNNING
    case GAME_FINISHED => FINISHED
    case GAME_STATE_OTHER => fallback
  }

  /** The terminal failures of a connection attempt, with the code reported for each;
      NETWORK_ERROR and CONNECT_TIMEOUT are not among them. */
  function ConnectionFailedCode(s: Status): (c: Option<int>)
    ensures c.Some? <==> s == INTERNAL_ERROR || s == INVALID_MESSAGE || s == PROTOCOL_ERROR
                         || s == PERMISSION_DENIED || s == ALREADY_CONNECTED
    ensures c.Some? ==> c.value != STATUS_SUCCESS && c.value != STATUS_NETWORK_ERROR
  {
    match s
    case INTERNAL_ERROR => Some(STATUS_INTERNAL_ERROR)
    case INVALID_MESSAGE => Some(STATUS_INVALID_MESSAGE)
    case PROTOCOL_ERROR => Some(STATUS_PROTOCOL_ERROR)
    case PERMISSION_DENIED => Some(STATUS_PERMISSION_DENIED)
    case ALREADY_CONNECTED => Some(STATUS_ALREADY_CONNECTED)
    case _ => None
  }

  /** The failures of a room creation (`created`) or of a room join, with their codes. */
  function RoomReplyFailureCode(created: bool, s: Status): (c: Option<int>)
    ensures created ==> (c.Some? <==> s == INTERNAL_ERROR || s == PERMISSION_DENIED
                                      || s == ALREADY_CREATED || s == INVALID_DATA)
    ensures !created ==> (c.Some? <==> s == INTERNAL_ERROR || s == PERMISSION_DENIED
                                       || s == ROOM_NOT_FOUND || s == ROOM_FULL)
    ensures c.Some? ==> c.value != STATUS_SUCCESS
  {
    match s
    case INTERNAL_ERROR => Some(STATUS_INTERNAL_ERROR)
    case PERMISSION_DENIED => Some(STATUS_PERMISSION_DENIED)
    case ALREADY_CREATED => if created then Some(STATUS_ROOM_ALREADY_CREATED) else None
    case INVALID_DATA => if created then Some(STATUS_INVALID_DATA) else None
    case ROOM_NOT_FOUND => if created then None else Some(STATUS_ROOM_NOT_FOUND)
    case ROOM_FULL => if created then None else Some(STATUS_ROOM_FULL)
    case _ => None
  }

  /** The callback of a room creation or join reply. */
  function RoomReplyEvent(created: bool, status: int, room: Room?): Event {
    if created then OnRoomCreated(status, room) else OnRoomJoined(status, room)
  }

  /** The code an Ack reports; a status the client does not know reads as success. */
  function AckStatusCode(s: Status): (r: int)
    ensures r == STATUS_SUCCESS <==>
              !(s == INTERNAL_ERROR || s == ROOM_NOT_JOINED || s == PEER_NOT_FOUND || s == INVALID_MESSAGE)
    ensures r == STATUS_INTERNAL_ERROR <==> s == INTERNAL_ERROR
    ensures r == STATUS_ROOM_NOT_JOINED <==> s == ROOM_NOT_JOINED
    ensures r == STATUS_PEER_NOT_FOUND <==> s == PEER_NOT_FOUND
    ensures r == STATUS_INVALID_MESSAGE <==> s == INVALID_MESSAGE
  {
    match s
    case INTERNAL_ERROR => STATUS_INTERNAL_ERROR
    case ROOM_NOT_JOINED => STATUS_ROOM_NOT_JOINED
    case PEER_NOT_FOUND => STATUS_PEER_NOT_FOUND
    case INVALID_MESSAGE => STATUS_INVALID_MESSAGE
    case _ => STATUS_SUCCESS
  }

  /** The participants of a room reply: one per player, filed under the player's id; a
      later player with the same id replaces an earlier one. */
  function ParticipantsOf(players: seq<Player>, roomId: string): (ps: map<string, Participant>)
    ensures KeyedById(ps)
    ensures ps.Keys == set p | p in players :: p.clientId
    ensures forall pid | pid in ps :: ps[pid].roomId == roomId
  {
    if players == [] then map[]
    else
      var p := players[|players| - 1];
      var ps := ParticipantsOf(players[..|players| - 1], roomId);
      assert forall q | q in players :: q in players[..|players| - 1] || q == p;
      ps[p.clientId := Participant(p.clientId, roomId, JavaMapOf(p.properties))]
  }

  /** The participant filed under a player's id is built from the last player with that id:
      that player's id, the room's id and its decoded properties. */
  lemma {:induction false} ParticipantsOfLastWins(players: seq<Player>, roomId: string, i: int)
    requires 0 <= i < |players|
    requires forall j | i < j < |players| :: players[j].clientId != players[i].clientId
    ensures players[i].clientId in ParticipantsOf(players, roomId)
    ensures ParticipantsOf(players, roomId)[players[i].clientId] ==
            Participant(players[i].clientId, roomId, JavaMapOf(players[i].properties))
  {
    if i < |players| - 1 {
      ParticipantsOfLastWins(players[..|players| - 1], roomId, i);
    }
  }

  /** The loop of the room reply handlers that builds the participants map. */
  method BuildParticipants(players: seq<Player>, roomId: string)
    returns (participants: map<string, Participant>)
    ensures participants == ParticipantsOf(players, roomId)
  {
    participants := map[];
    for i := 0 to |players|
      invariant participants == ParticipantsOf(players[..i], roomId)
    {
      assert players[..i + 1][..i] == players[..i];
      var props := ProtoMapToJavaMap(players[i].properties);
      participants := participants[players[i].clientId :=
                                   Participant(players[i].clientId, roomId, props)];
    }
    assert players[..|players|] == players;
  }
}
