/** The room the session has joined, updated in place as server events arrive. */
module Rooms {
  import opened Wrappers
  import opened JavaTypes
  import opened RealtimeTypes

  /** A player inside a room, with the player's properties. */
  datatype Participant = Participant(id: string, roomId: string, properties: map<string, Value>)
  {
    /** addProperty(key, value): the property map now maps `key` to `value`. */
    function AddProperty(key: string, value: Value): (p: Participant)
      ensures p.id == id && p.roomId == roomId
      ensures p.properties.Keys == properties.Keys + {key}
      ensures p.properties[key] == value
      ensures forall k | k in properties && k != key :: p.properties[k] == properties[k]
    {
      this.(properties := properties[key := value])
    }

    /** removeProperty(key): only `key` is gone. */
    function RemoveProperty(key: string): (p: Participant)
      ensures p.id == id && p.roomId == roomId
      ensures p.properties.Keys == properties.Keys - {key}
      ensures forall k | k in p.properties :: p.properties[k] == properties[k]
    {
      this.(properties := properties - {key})
    }
  }

  /** Every participant is filed under its own id. */
  ghost predicate KeyedById(participants: map<string, Participant>) {
    forall pid | pid in participants :: participants[pid].id == pid
  }

  class Room {
    const id: string
    var state: MatchState
    const config: map<string, Value>
    var properties: map<string, Value>
    var participants: map<string, Participant>

    ghost predicate Valid()
      reads this
    {
      KeyedById(participants)
    }

    /** Room(Builder): a room holds exactly what it was built from. */
    constructor (id: string, state: MatchState, config: map<string, Value>,
                 properties: map<string, Value>, participants: map<string, Participant>)
      requires KeyedById(participants)
      ensures Valid()
      ensures this.id == id && this.state == state && this.config == config
      ensures this.properties == properties && this.participants == participants
    {
      this.id := id;
      this.state := state;
      this.config := config;
      this.properties := properties;
      this.participants := participants;
    }

    function GetId(): (r: string)
      ensures r == id
    {
      id
    }

    /** getConfigValue(key): the configured value, or null when the key is absent. */
    function GetConfigValue(key: string): (r: Option<Value>)
      ensures r.Some? <==> key in config
      ensures r.Some? ==> r.value == config[key]
    {
      if key in config then Some(config[key]) else None
    }

    /** getProperty(key): the property value, or null when the key is absent. */
    function GetProperty(key: string): (r: Option<Value>)
      reads this
      ensures r.Some? <==> key in properties
      ensures r.Some? ==> r.value == properties[key]
    {
      if key in properties then Some(properties[key]) else None
    }

    /** getParticipant(id): the participant with that id, or null. */
    function GetParticipant(pid: string): (r: Option<Participant>)
      reads this
      requires Valid()
      ensures r.Some? <==> pid in participants
      ensures r.Some? ==> r.value == participants[pid] && r.value.id == pid
    {
      if pid in participants then Some(participants[pid]) else None
    }

    function GetMatchState(): (r: MatchState)
      reads this
      ensures r == state
    {
      state
    }

    /** isSameRoom(id) as the source has it: it compares its parameter with itself. */
    function IsSameRoomAsWritten(otherId: string): (b: bool)
      ensures b
    {
      otherId == otherId
    }

    /** isSameRoom(id) as its callers use it: whether `otherId` names this room. */
    function IsSameRoom(otherId: string): (b: bool)
      ensures b <==> otherId == id
    {
      otherId == this.id
    }

    /** addParticipant(p): files `p` under its id, replacing any namesake. */
    method AddParticipant(p: Participant)
      requires Valid()
      modifies this
      ensures Valid()
      ensures participants == old(participants)[p.id := p]
      ensures state == old(state) && properties == old(properties)
    {
      participants := participants[p.id := p];
    }

    /** removeParticipant(id): only that id is gone; an absent id changes nothing. */
    method RemoveParticipant(pid: string)
      requires Valid()
      modifies this
      ensures Valid()
      ensures participants == old(participants) - {pid}
      ensures pid !in old(participants) ==> participants == old(participants)
      ensures state == old(state) && properties == old(properties)
    {
      participants := participants - {pid};
    }

    method SetMatchState(s: MatchState)
      requires Valid()
      modifies this
      ensures Valid()
      ensures GetMatchState() == s
      ensures properties == old(properties) && participants == old(participants)
    {
      state := s;
    }

    method AddProperty(key: string, value: Value)
      requires Valid()
      modifies this
      ensures Valid()
      ensures properties == old(properties)[key := value]
      ensures state == old(state) && participants == old(participants)
    {
      properties := properties[key := value];
    }

    method RemoveProperty(key: string)
      requires Valid()
      modifies this
      ensures Valid()
      ensures properties == old(properties) - {key}
      ensures state == old(state) && participants == old(participants)
    {
      properties := properties - {key};
    }

    /** addParticipantProperty(id, key, value): a no-op when no such participant exists. */
    method AddParticipantProperty(pid: string, key: string, value: Value)
      requires Valid()
      modifies this
      ensures Valid()
      ensures participants == if pid in old(participants)
                              then old(participants)[pid := old(participants)[pid].AddProperty(key, value)]
                              else old(participants)
      ensures state == old(state) && properties == old(properties)
    {
      if pid in participants {
        participants := participants[pid := participants[pid].AddProperty(key, value)];
      }
    }

    /** removeParticipantProperty(id, key): a no-op when no such participant exists. */
    method RemoveParticipantProperty(pid: string, key: string)
      requires Valid()
      modifies this
      ensures Valid()
      ensures participants == if pid in old(participants)
                              then old(participants)[pid := old(participants)[pid].RemoveProperty(key)]
                              else old(participants)
      ensures state == old(state) && properties == old(properties)
    {
      if pid in participants {
        participants := participants[pid := participants[pid].RemoveProperty(key)];
      }
    }
  }

  /** isSameRoom as written accepts every id, including one that is not the room's. */
  lemma IsSameRoomAcceptsAnyId(room: Room, otherId: string)
    requires otherId != room.id
    ensures room.IsSameRoomAsWritten(otherId)
    ensures !room.IsSameRoom(otherId)
  {
  }
}
