/** The protocol's messages, as values. Their wire encoding is not modelled: an envelope
    reaches a transport as an opaque value, or as the bytes of an injected encoder. */
module Proto {
  import opened Wrappers
  import opened JavaTypes

  /** MapEntry.Type: the typed-value tags. */
  datatype EntryType =
    | VOID | INT32 | UINT32 | SINT32 | INT64 | UINT64 | SINT64 | DOUBLE | BOOL | STRING | BYTES

  /** MapEntry: a name, a type tag, and one field per type; a field that is not set
      reads as its default (zero, false, empty). */
  datatype MapEntry = MapEntry(
    name: string,
    entryType: EntryType,
    int32Val: Int32,
    uint32Val: Int32,
    sint32Val: Int32,
    int64Val: Int64,
    uint64Val: Int64,
    sint64Val: Int64,
    doubleVal: real,
    boolVal: bool,
    stringVal: string,
    bytesVal: seq<bv8>)

  /** MapEntry.newBuilder().setName(name): every value field at its default. */
  function EmptyEntry(name: string, entryType: EntryType): (e: MapEntry)
    ensures e.name == name && e.entryType == entryType
  {
    MapEntry(name, entryType, 0, 0, 0, 0, 0, 0, 0.0, false, "", [])
  }

  /** The status codes of the server's replies. Each reply type uses some of them; a
      code a handler does not list is ignored by it. */
  datatype Status =
    | SUCCESS | INTERNAL_ERROR | INVALID_MESSAGE | PROTOCOL_ERROR | NETWORK_ERROR
    | CONNECT_TIMEOUT | PERMISSION_DENIED | ALREADY_CONNECTED | SESSION_CLOSED
    | REPLACED_BY_NEW_CONNECTION | UNRESPONSIVE_CLIENT | NEW_SERVER_LOCATION
    | ALREADY_CREATED | INVALID_DATA | ROOM_NOT_FOUND | ROOM_FULL | ROOM_CLOSED
    | ROOM_NOT_JOINED | BAD_STATE | PEER_NOT_FOUND | OTHER_STATUS

  /** The server's game states; `GAME_STATE_OTHER` is any value the client does not know. */
  datatype GameState = GAME_PENDING | GAME_READY | GAME_RUNNING | GAME_FINISHED | GAME_STATE_OTHER

  datatype Player = Player(clientId: string, properties: seq<MapEntry>)

  /** Proto.Room: the server's snapshot of a room. */
  datatype ProtoRoom = ProtoRoom(roomId: string, gameState: GameState, config: seq<MapEntry>,
                             properties: seq<MapEntry>, players: seq<Player>)

  /** The bodies the client sends (the payloads of an InMessage). Lists built from a Java
      map carry no meaningful order, so they are sets of entries. */
  datatype Request =
    | Connect(clientId: string, gameId: string, accessToken: string, sessionId: Option<string>)
    | Disconnect
    | Ping(id: Int32, timestamp: Int32)
    | Pong(id: Int32, timestamp: Int32)
    | CreateRoom(roomId: string, roomConfig: set<MapEntry>, roomProperties: set<MapEntry>,
                 playerProperties: set<MapEntry>)
    | JoinRoom(roomId: string, playerProperties: set<MapEntry>)
    | LeaveRoom(roomId: string)
    | StartGame(roomId: string)
    | StopGame(roomId: string)
    | ResetGame(roomId: string)
    | SetRoomProperty(roomId: string, property: MapEntry)
    | SetPlayerProperty(roomId: string, property: MapEntry)
    | SendRoomMessage(roomId: string, timestamp: Int32, tag: Int32, reliable: bool,
                      payload: set<MapEntry>, toId: Option<string>)

  /** InMessage: the client-to-server envelope. */
  datatype InMessage = InMessage(msgid: int, ackid: int, isReliable: bool, body: Request)

  /** The bodies the server sends (the payloads of an OutMessage). */
  datatype Push =
    | Connected(sessionId: string, mmTime: Int32, info: seq<MapEntry>, udpPort: Int32)
    | ConnectionFailed(status: Status)
    | ConnectionClosed(status: Status, hostname: string, port: Int32)
    | Sync(latency: Int32)
    | ServerPing(id: Int32, timestamp: Int32)
    | ServerPong(id: Int32, timestamp: Int32)
    | RoomCreated(status: Status, room: ProtoRoom)
    | RoomClosed(status: Status, roomId: string)
    | RoomJoined(status: Status, room: ProtoRoom)
    | RoomLeft(status: Status, roomId: string)
    | PeerJoinedRoom(roomId: string, player: Player)
    | PeerLeftRoom(roomId: string, clientId: string)
    | GameStateChanged(status: Status, roomId: string, gameState: GameState)
    | RoomPropertyUpdated(status: Status, roomId: string, clientId: string, property: MapEntry)
    | PlayerPropertyUpdated(status: Status, roomId: string, clientId: string, property: MapEntry)
    | RoomMessage(roomId: string, fromId: string, tag: Int32, payload: seq<MapEntry>)
    | Ack(status: Status, ackedMsgid: Int32)
    | UnknownPush

  /** OutMessage: the server-to-client envelope. */
  datatype OutMessage = OutMessage(msgid: int, ackid: int, isReliable: bool, body: Push)
}
