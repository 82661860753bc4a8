/** The small enumerations and identities shared by the realtime engine. */
module RealtimeTypes {

  /** MatchState: the state of the match played in a room. */
  datatype MatchState = PENDING | READY | RUNNING | FINISHED | UNKNOWN

  /** ConnectionState: where the session stands with the server. */
  datatype ConnectionState = CONNECTING | CONNECTED | DISCONNECTED

  /** Listener objects matter only through their identity. */
  type ConnectionListener = nat
  type RoomListener = nat
  type MessageReceivedListener = nat
  type MessageSentListener = nat
  type PingListener = nat
}
