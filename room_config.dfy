/** The configuration a room is created with: a builder of optional settings that
    fills a RealtimeMap under fixed keys. */
module RoomConfigs {
  import opened Wrappers
  import opened JavaTypes
  import opened RealtimeTypes
  import opened RealtimeMaps

  const MAX_PLAYERS: string := "max_players"
  const MIN_PLAYERS: string := "min_players"
  const TICK_TIME: string := "tick_time"
  const AUTO_START: string := "auto_start"
  const AUTO_STOP: string := "auto_stop"

  /** The entries a configuration holds: one per setting that was set. */
  function ConfigEntries(maxParticipants: Option<Int32>, minParticipants: Option<Int32>,
                         tickTime: Option<Int32>, autoStart: Option<bool>,
                         autoStop: Option<bool>): (m: map<string, Value>)
    ensures m.Keys <= {MAX_PLAYERS, MIN_PLAYERS, TICK_TIME, AUTO_START, AUTO_STOP}
    ensures MAX_PLAYERS in m <==> maxParticipants.Some?
    ensures MIN_PLAYERS in m <==> minParticipants.Some?
    ensures TICK_TIME in m <==> tickTime.Some?
    ensures AUTO_START in m <==> autoStart.Some?
    ensures AUTO_STOP in m <==> autoStop.Some?
    ensures maxParticipants.Some? ==> m[MAX_PLAYERS] == Integer(maxParticipants.value)
    ensures minParticipants.Some? ==> m[MIN_PLAYERS] == Integer(minParticipants.value)
    ensures tickTime.Some? ==> m[TICK_TIME] == Integer(tickTime.value)
    ensures autoStart.Some? ==> m[AUTO_START] == Boolean(autoStart.value)
    ensures autoStop.Some? ==> m[AUTO_STOP] == Boolean(autoStop.value)
    ensures AllSupported(m)
  {
    var m1 := if maxParticipants.Some? then map[MAX_PLAYERS := Integer(maxParticipants.value)] else map[];
    var m2 := if minParticipants.Some? then m1[MIN_PLAYERS := Integer(minParticipants.value)] else m1;
    var m3 := if tickTime.Some? then m2[TICK_TIME := Integer(tickTime.value)] else m2;
    var m4 := if autoStart.Some? then m3[AUTO_START := Boolean(autoStart.value)] else m3;
    if autoStop.Some? then m4[AUTO_STOP := Boolean(autoStop.value)] else m4
  }

  /** RoomConfig.Builder: every setting starts unset; each setter overwrites one. */
  class Builder {
    const roomListener: Option<RoomListener>
    var messageListener: Option<MessageReceivedListener>
    var maxParticipants: Option<Int32>
    var minParticipants: Option<Int32>
    var tickTime: Option<Int32>
    var autoStart: Option<bool>
    var autoStop: Option<bool>

    /** RoomConfig.builder(listener): the listener is kept as given, null included. */
    constructor (listener: Option<RoomListener>)
      ensures roomListener == listener && messageListener == None
      ensures maxParticipants == None && minParticipants == None && tickTime == None
      ensures autoStart == None && autoStop == None
    {
      roomListener := listener;
      messageListener := None;
      maxParticipants := None;
      minParticipants := None;
      tickTime := None;
      autoStart := None;
      autoStop := None;
    }

    method SetMaxParticipants(n: Int32)
      modifies this
      ensures maxParticipants == Some(n)
      ensures messageListener == old(messageListener) && minParticipants == old(minParticipants)
      ensures tickTime == old(tickTime) && autoStart == old(autoStart) && autoStop == old(autoStop)
    {
      maxParticipants := Some(n);
    }

    method SetMinParticipants(n: Int32)
      modifies this
      ensures minParticipants == Some(n)
      ensures messageListener == old(messageListener) && maxParticipants == old(maxParticipants)
      ensures tickTime == old(tickTime) && autoStart == old(autoStart) && autoStop == old(autoStop)
    {
      minParticipants := Some(n);
    }

    method SetTickTime(t: Int32)
      modifies this
      ensures tickTime == Some(t)
      ensures messageListener == old(messageListener) && maxParticipants == old(maxParticipants)
      ensures minParticipants == old(minParticipants) && autoStart == old(autoStart)
      ensures autoStop == old(autoStop)
    {
      tickTime := Some(t);
    }

    method SetAutoStart(b: bool)
      modifies this
      ensures autoStart == Some(b)
      ensures messageListener == old(messageListener) && maxParticipants == old(maxParticipants)
      ensures minParticipants == old(minParticipants) && tickTime == old(tickTime)
      ensures autoStop == old(autoStop)
    {
      autoStart := Some(b);
    }

    method SetAutoStop(b: bool)
      modifies this
      ensures autoStop == Some(b)
      ensures messageListener == old(messageListener) && maxParticipants == old(maxParticipants)
      ensures minParticipants == old(minParticipants) && tickTime == old(tickTime)
      ensures autoStart == old(autoStart)
    {
      autoStop := Some(b);
    }

    method SetMessageListener(listener: Option<MessageReceivedListener>)
      modifies this
      ensures messageListener == listener
      ensures maxParticipants == old(maxParticipants) && minParticipants == old(minParticipants)
      ensures tickTime == old(tickTime) && autoStart == old(autoStart) && autoStop == old(autoStop)
    {
      messageListener := listener;
    }

    /** build(): no setting is checked. */
    method Build() returns (config: RoomConfig)
      ensures fresh(config) && fresh(config.roomConfig)
      ensures config.roomConfig.Valid()
      ensures config.roomConfig.entries ==
              ConfigEntries(maxParticipants, minParticipants, tickTime, autoStart, autoStop)
      ensures config.GetRoomListener() == roomListener
      ensures config.GetMessageListener() == messageListener
    {
      config := new RoomConfig(this);
    }
  }

  class RoomConfig {
    const roomListener: Option<RoomListener>
    var messageListener: Option<MessageReceivedListener>
    const roomConfig: RealtimeMap

    /** RoomConfig(Builder): puts each setting that was set, under its fixed key. */
    constructor (b: Builder)
      ensures fresh(roomConfig) && roomConfig.Valid()
      ensures roomConfig.entries ==
              ConfigEntries(b.maxParticipants, b.minParticipants, b.tickTime, b.autoStart, b.autoStop)
      ensures roomListener == b.roomListener && messageListener == b.messageListener
    {
      roomListener := b.roomListener;
      var m := new RealtimeMap();
      roomConfig := m;
      new;
      var r: Outcome<Option<Value>>;
      if b.maxParticipants.Some? {
        r := m.Put(MAX_PLAYERS, Some(Integer(b.maxParticipants.value)));
      }
      if b.minParticipants.Some? {
        r := m.Put(MIN_PLAYERS, Some(Integer(b.minParticipants.value)));
      }
      if b.tickTime.Some? {
        r := m.Put(TICK_TIME, Some(Integer(b.tickTime.value)));
      }
      if b.autoStart.Some? {
        r := m.Put(AUTO_START, Some(Boolean(b.autoStart.value)));
      }
      if b.autoStop.Some? {
        r := m.Put(AUTO_STOP, Some(Boolean(b.autoStop.value)));
      }
      messageListener := b.messageListener;
    }

    function GetRoomListener(): (l: Option<RoomListener>)
      ensures l == roomListener
    {
      roomListener
    }

    function GetMessageListener(): (l: Option<MessageReceivedListener>)
      reads this
      ensures l == messageListener
    {
      messageListener
    }

    function GetRoomConfig(): (m: RealtimeMap)
      ensures m == roomConfig
    {
      roomConfig
    }
  }

  /** A configuration with only max_players = 4 serialises to 17 bytes: the key costs
      11 + 1, the value 1, and the framing 4. */
  lemma MaxPlayersOnlySize()
    ensures var m := ConfigEntries(Some(4), None, None, None, None);
            SumSizes(m) + 4 * |m| == 17
  {
    var m := ConfigEntries(Some(4), None, None, None, None);
    assert m == map[MAX_PLAYERS := Integer(4)];
    SumSizesWithout(m, MAX_PLAYERS);
    assert m - {MAX_PLAYERS} == map[];
  }

  /** The configuration keys are ASCII: one UTF-16 unit per character. */
  lemma KeyLengths()
    ensures Utf16Length(MAX_PLAYERS) == 11 && Utf16Length(AUTO_STOP) == 9
  {
  }

  /** max_players = 8 and auto_stop = true cost 12 + 1 and 10 + 1 bytes. */
  lemma MaxAndAutoStopSize()
    ensures SumSizes(map[MAX_PLAYERS := Integer(8), AUTO_STOP := Boolean(true)]) == (12 + 1) + (10 + 1)
  {
    var m := map[MAX_PLAYERS := Integer(8), AUTO_STOP := Boolean(true)];
    assert MAX_PLAYERS != AUTO_STOP by { assert MAX_PLAYERS[0] != AUTO_STOP[0]; }
    var rest := m - {MAX_PLAYERS};
    assert rest == map[AUTO_STOP := Boolean(true)];
    assert rest - {AUTO_STOP} == map[];
    SumSizesWithout(m, MAX_PLAYERS);
    SumSizesWithout(rest, AUTO_STOP);
    KeyLengths();
  }

  /** A builder used the usual way: the last value given to a setter wins, and settings
      never set are absent from the configuration. */
  method BuildTwice() returns (config: RoomConfig)
    ensures config.roomConfig.entries == map[MAX_PLAYERS := Integer(8), AUTO_STOP := Boolean(true)]
    ensures config.roomConfig.Valid()
    ensures config.roomConfig.GetSerializedSize() == (12 + 1) + (10 + 1) + 4 * 2
  {
    var b := new Builder(Some(1));
    b.SetMaxParticipants(4);
    b.SetAutoStop(true);
    b.SetMaxParticipants(8);
    config := b.Build();
    assert config.roomConfig.entries == map[MAX_PLAYERS := Integer(8), AUTO_STOP := Boolean(true)];
    MaxAndAutoStopSize();
  }
}
