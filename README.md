# Scoreflex realtime engine, modelled in Dafny

This project models the client-side realtime protocol engine of the Scoreflex Android SDK,
together with the small URI and request-parameter helpers of the SDK.

- **Session.** A sequential state machine fed by commands (connect, disconnect, create, join
  and leave a room, match commands, property updates, reliable and unreliable sends, ping)
  and by server pushes (`Connected`, `ConnectionFailed`, `ConnectionClosed`, `Sync`, `Ping`,
  `Pong`, the room pushes and `Ack`). Reliable envelopes are numbered `last_msgid + 1`, carry
  the peer acknowledgement, are kept in a send window until acknowledged, and are replayed
  on `Connected`. Inbound reliable envelopes are delivered in order through a reorder buffer.
  Inbound unreliable envelopes are dropped when they are not newer than the last one. Listener
  callbacks are an appended event log, transport writes an appended wire log, and the clock,
  write success and UDP socket creation come in as an `Environment` parameter.
- **Codec.** The typed-value codec between Java objects and protocol map entries.
- **RealtimeMap.** A typed map that keeps a running serialized size. Its per-value sizes are
  the varint sizes of the "Encoding" chapter of the Protocol Buffers documentation.
- **Room and RoomConfig.** The room replica updated in place, and the builder that fills a
  room configuration.
- **UDP connection.** The one-byte datagram header, and the `is_connected` flag.
- **Message.** A received room message, whose tag reads back as a signed byte.
- **URI helper and request-parameter decorator.**

Module layout: `Wrappers` (Option, Outcome), `JavaTypes` (32/64-bit integers, casts, boxed
values), `Proto` (the protocol messages as datatypes), `Codec`, `RealtimeMaps`, `Rooms`,
`RoomConfigs`, `Messages`, `Udp`, `SessionTypes` (status codes, events, transmissions),
`Sessions` (the `Session` class), `SessionScenarios` (worked runs), `UriHelper`, `Params` and
`Decorator`.

## Model

| member | source | states |
|---|---|---|
| JavaTypes.ToInt | sdk/src/com/scoreflex/realtime/Session.java:2014-2023 | the `(int)` cast: identity on 32-bit values, and congruent to its input modulo 2^32 otherwise |
| JavaTypes.ToByte | sdk/src/com/scoreflex/realtime/Message.java:105-107 | the `(byte)` cast: result in [-128,127], identity on that range, congruent modulo 256 |
| Messages.Message.GetRoomId | sdk/src/com/scoreflex/realtime/Message.java:87-89 | returns exactly the room id the message was built with |
| Messages.Message.GetSenderId | sdk/src/com/scoreflex/realtime/Message.java:96-98 | returns exactly the sender id the message was built with |
| Messages.Message.GetTag | sdk/src/com/scoreflex/realtime/Message.java:105-107 | the tag as a signed byte: always in [-128,127], 0..127 unchanged, 128..255 become tag-256 (200 gives -56), congruent to the tag modulo 256 |
| Messages.Message.GetPayload | sdk/src/com/scoreflex/realtime/Message.java:114-116 | the payload map the message was built with, as an immutable value |
| Codec.ObjectToMapEntry | sdk/src/com/scoreflex/realtime/Session.java:2420-2472 | the entry keeps the name; it is VOID exactly for null, `byte[]` and unsupported types; Integer and Long pick UINT or SINT from the sign alone; INT32/INT64 are never produced |
| Codec.MapEntryToObjectAsWritten | sdk/src/com/scoreflex/realtime/Session.java:2380-2407 | as written: null exactly for VOID entries (its UINT64 case is the subject of Findings) |
| Codec.MapEntryToObject | sdk/src/com/scoreflex/realtime/Session.java:2380-2407 | decoding yields null exactly for VOID entries and never yields a `byte[]` or an unsupported value (UINT64 read from the unsigned field, see Findings) |
| Codec.DecodeEncode | sdk/src/com/scoreflex/realtime/Session.java:2380-2472 | encode then decode returns every supported value unchanged and null for everything else |
| Codec.DecodeAsWrittenLosesLongs | sdk/src/com/scoreflex/realtime/Session.java:2393 | a positive Long is encoded as UINT64 and the decoder as written turns it into 0, while the corrected decoder returns it |
| Codec.DecodersAgreeOffUint64 | sdk/src/com/scoreflex/realtime/Session.java:2380-2407 | the decoder as written and the corrected one agree on every entry type other than UINT64 |
| Codec.JavaMapOf | sdk/src/com/scoreflex/realtime/Session.java:2369-2378 | the Java map only has names that occur in the protocol list |
| Codec.LastLive | sdk/src/com/scoreflex/realtime/Session.java:2369-2378 | index of the last non-VOID entry with the given name, -1 when none, and no later live entry has that name |
| Codec.JavaMapOfLastLive | sdk/src/com/scoreflex/realtime/Session.java:2369-2378 | a name is in the Java map iff some non-VOID entry has it, and its value is the decoding of the last such entry (VOID entries are dropped, later puts win) |
| Codec.ProtoMapToJavaMap | sdk/src/com/scoreflex/realtime/Session.java:2369-2378 | the loop builds exactly `JavaMapOf` of the list |
| Codec.JavaMapToProtoMap | sdk/src/com/scoreflex/realtime/Session.java:2409-2418 | a null map gives no entries; otherwise every key yields its encoded entry, and every entry is the encoding of its own key's value, so there is exactly one entry per key |
| Codec.JavaMapRoundTrip | sdk/src/com/scoreflex/realtime/Session.java:2369-2418 | every entry produced from a Java map decodes back to that key's value when it is supported, and to null otherwise |
| RealtimeMaps.VarintLength | sdk/src/com/scoreflex/realtime/RealtimeMap.java:448-470 | the varint size of a non-negative value is at least one byte |
| RealtimeMaps.ZigZag | sdk/src/com/scoreflex/realtime/RealtimeMap.java:456-468 | ZigZag maps v >= 0 to 2v and v < 0 to -2v-1 |
| RealtimeMaps.VarintLengthIn | sdk/src/com/scoreflex/realtime/RealtimeMap.java:448-470 | a value in [128^(n-1), 128^n) has a varint of exactly n bytes |
| RealtimeMaps.IntegerSize | sdk/src/com/scoreflex/realtime/RealtimeMap.java:448-470 | `getNumberOfBytes(Integer)` is always in [1,5] |
| RealtimeMaps.IntegerSizeIsVarintSize | sdk/src/com/scoreflex/realtime/RealtimeMap.java:448-470 | the Integer cutoffs are exactly the plain varint size for non-negative values and the ZigZag varint size for negative ones |
| RealtimeMaps.LongSize | sdk/src/com/scoreflex/realtime/RealtimeMap.java:487-530 | `getNumberOfBytes(Long)` is always in [1,10] |
| RealtimeMaps.LongSizeVersusVarintSize | sdk/src/com/scoreflex/realtime/RealtimeMap.java:487-530 | the Long size equals the varint/ZigZag size except one byte more on [0x200000,0x10000000) (the widened negative `0x80000000` literal) and on [0x0100000000000000, 2^63) |
| RealtimeMaps.PrefixedLength | sdk/src/com/scoreflex/realtime/RealtimeMap.java:420-445 | a length prefix costs one byte below 128 and two bytes from 128 on |
| RealtimeMaps.Utf16Length | sdk/src/com/scoreflex/realtime/RealtimeMap.java:421 | `String.length()` counts UTF-16 code units: between one and two per character, exactly one per character iff every character is in the Basic Multilingual Plane |
| RealtimeMaps.EntrySize | sdk/src/com/scoreflex/realtime/RealtimeMap.java:420-445 | an entry costs its key's prefixed UTF-16 length plus at least one byte of value (Double 8, Boolean 1, String prefixed UTF-16 length, `byte[]` prefixed length) |
| RealtimeMaps.SerializedEntrySize | sdk/src/com/scoreflex/realtime/RealtimeMap.java:420-445 | `getSerializedSize(key,value)` throws ClassCastException exactly for unsupported values and otherwise returns the entry size |
| RealtimeMaps.SumSizesWithout | sdk/src/com/scoreflex/realtime/RealtimeMap.java:216-239 | the size sum splits into one entry plus the sum of the rest, whichever entry is taken out |
| RealtimeMaps.SumSizesInsert | sdk/src/com/scoreflex/realtime/RealtimeMap.java:216-223 | adding a new supported entry adds exactly its entry size to the sum |
| RealtimeMaps.SumSizesAtLeast | sdk/src/com/scoreflex/realtime/RealtimeMap.java:420-445 | every entry costs at least two bytes |
| RealtimeMaps.RealtimeMap.constructor | sdk/src/com/scoreflex/realtime/RealtimeMap.java:56-59 | a new map is empty with serialized size 0 |
| RealtimeMaps.RealtimeMap.GetSerializedSize | sdk/src/com/scoreflex/realtime/RealtimeMap.java:66-73 | the sum of the entry sizes plus 4 bytes per entry, hence at least 6 bytes per entry |
| RealtimeMaps.RealtimeMap.Size | sdk/src/com/scoreflex/realtime/RealtimeMap.java:254-256 | the number of keys |
| RealtimeMaps.RealtimeMap.Get | sdk/src/com/scoreflex/realtime/RealtimeMap.java:84-86 | the stored value when the key is present, null otherwise |
| RealtimeMaps.RealtimeMap.ContainsKey | sdk/src/com/scoreflex/realtime/RealtimeMap.java:304-306 | true iff `get` finds a value |
| RealtimeMaps.RealtimeMap.GetAs | sdk/src/com/scoreflex/realtime/RealtimeMap.java:99-194 | the typed getters throw ClassCastException iff the key holds a value of another type, and otherwise return `get(key)`, of the requested type |
| RealtimeMaps.RealtimeMap.Remove | sdk/src/com/scoreflex/realtime/RealtimeMap.java:233-239 | returns the previous value and drops only that key; an absent key changes neither the entries nor the size; the running size drops by the entry's size and stays the exact sum |
| RealtimeMaps.RealtimeMap.Put | sdk/src/com/scoreflex/realtime/RealtimeMap.java:216-223 | `put(k, null)` is `remove(k)`; a supported value becomes `get(k)` with other keys unchanged and the previous value returned; an unsupported value throws ClassCastException after the old mapping was removed; the running size stays the exact sum |
| RealtimeMaps.RealtimeMap.Clear | sdk/src/com/scoreflex/realtime/RealtimeMap.java:244-247 | no entries and serialized size 0 |
| RealtimeMaps.UnmodifiableRealtimeMap.constructor | sdk/src/com/scoreflex/realtime/RealtimeMap.java:361-366 | the view wraps the given map |
| RealtimeMaps.UnmodifiableRealtimeMap.Get | sdk/src/com/scoreflex/realtime/RealtimeMap.java:374 | reads through to the wrapped map |
| RealtimeMaps.UnmodifiableRealtimeMap.GetAs | sdk/src/com/scoreflex/realtime/RealtimeMap.java:375-380 | typed reads through to the wrapped map, throwing on a type mismatch |
| RealtimeMaps.UnmodifiableRealtimeMap.Size | sdk/src/com/scoreflex/realtime/RealtimeMap.java:370 | the wrapped map's size |
| RealtimeMaps.UnmodifiableRealtimeMap.GetSerializedSizeAsWritten | sdk/src/com/scoreflex/realtime/RealtimeMap.java:361-391 | as written: 0, computed from the view's own empty fields (see Findings) |
| RealtimeMaps.UnmodifiableRealtimeMap.GetSerializedSize | sdk/src/com/scoreflex/realtime/RealtimeMap.java:66-73 | corrected: the wrapped map's serialized size |
| RealtimeMaps.UnmodifiableRealtimeMap.Put | sdk/src/com/scoreflex/realtime/RealtimeMap.java:382-384 | always throws UnsupportedOperationException |
| RealtimeMaps.UnmodifiableRealtimeMap.Remove | sdk/src/com/scoreflex/realtime/RealtimeMap.java:385-387 | always throws UnsupportedOperationException |
| RealtimeMaps.UnmodifiableRealtimeMap.Clear | sdk/src/com/scoreflex/realtime/RealtimeMap.java:388-390 | always throws UnsupportedOperationException |
| RealtimeMaps.UnmodifiableSizeIsWrong | sdk/src/com/scoreflex/realtime/RealtimeMap.java:361-391 | on a non-empty wrapped map the inherited size reads 0 while the wrapped size is at least 6 |
| Rooms.Participant.AddProperty | sdk/src/com/scoreflex/realtime/Room.java:207-211 | the participant keeps its id and room, gains the key with that value, and keeps every other property |
| Rooms.Participant.RemoveProperty | sdk/src/com/scoreflex/realtime/Room.java:213-217 | the participant keeps its id and room, loses only that key |
| Rooms.Room.constructor | sdk/src/com/scoreflex/realtime/Room.java:91-101 | a room holds the given id, state, config, properties and participants, keyed by participant id |
| Rooms.Room.GetId | sdk/src/com/scoreflex/realtime/Room.java:108-110 | the room id |
| Rooms.Room.GetConfigValue | sdk/src/com/scoreflex/realtime/Room.java:128-130 | the config value when present, null otherwise |
| Rooms.Room.GetProperty | sdk/src/com/scoreflex/realtime/Room.java:147-149 | the property value when present, null otherwise |
| Rooms.Room.GetParticipant | sdk/src/com/scoreflex/realtime/Room.java:168-170 | the participant with that id when present (whose id is that id), null otherwise |
| Rooms.Room.GetMatchState | sdk/src/com/scoreflex/realtime/Room.java:179-181 | the current match state |
| Rooms.Room.IsSameRoomAsWritten | sdk/src/com/scoreflex/realtime/Room.java:183-185 | as written: true for every id, since it compares its argument with itself (see Findings) |
| Rooms.Room.IsSameRoom | sdk/src/com/scoreflex/realtime/Room.java:183-185 | corrected: true iff the argument is this room's id |
| Rooms.Room.AddParticipant | sdk/src/com/scoreflex/realtime/Room.java:187-189 | maps the participant's id to it, replacing any previous one, and changes nothing else |
| Rooms.Room.RemoveParticipant | sdk/src/com/scoreflex/realtime/Room.java:191-193 | removes only that id, and is a no-op when absent |
| Rooms.Room.SetMatchState | sdk/src/com/scoreflex/realtime/Room.java:195-197 | `getMatchState()` then returns the new state; properties and participants unchanged |
| Rooms.Room.AddProperty | sdk/src/com/scoreflex/realtime/Room.java:199-201 | changes only the properties, mapping the key to the value; config is never changed |
| Rooms.Room.RemoveProperty | sdk/src/com/scoreflex/realtime/Room.java:203-205 | changes only the properties, removing the key |
| Rooms.Room.AddParticipantProperty | sdk/src/com/scoreflex/realtime/Room.java:207-211 | updates that participant's properties, and is a no-op when no participant has that id |
| Rooms.Room.RemoveParticipantProperty | sdk/src/com/scoreflex/realtime/Room.java:213-217 | removes the key from that participant, and is a no-op when no participant has that id |
| Rooms.IsSameRoomAcceptsAnyId | sdk/src/com/scoreflex/realtime/Room.java:183-185 | for any id other than the room's, the check as written says "same room" and the corrected one says not |
| RoomConfigs.ConfigEntries | sdk/src/com/scoreflex/realtime/RoomConfig.java:142-156 | the config holds exactly the keys whose builder field was set, drawn from the five fixed keys, each with the builder's value |
| RoomConfigs.Builder.constructor | sdk/src/com/scoreflex/realtime/RoomConfig.java:47-49 | a builder holds the room listener and no other field set |
| RoomConfigs.Builder.SetMaxParticipants | sdk/src/com/scoreflex/realtime/RoomConfig.java:57-60 | sets only the maximum, overwriting an earlier value |
| RoomConfigs.Builder.SetMinParticipants | sdk/src/com/scoreflex/realtime/RoomConfig.java:69-72 | sets only the minimum, overwriting an earlier value |
| RoomConfigs.Builder.SetTickTime | sdk/src/com/scoreflex/realtime/RoomConfig.java:81-84 | sets only the tick time, overwriting an earlier value |
| RoomConfigs.Builder.SetAutoStart | sdk/src/com/scoreflex/realtime/RoomConfig.java:91-94 | sets only the auto-start flag, overwriting an earlier value |
| RoomConfigs.Builder.SetAutoStop | sdk/src/com/scoreflex/realtime/RoomConfig.java:101-104 | sets only the auto-stop flag, overwriting an earlier value |
| RoomConfigs.Builder.SetMessageListener | sdk/src/com/scoreflex/realtime/RoomConfig.java:112-115 | sets only the message listener, null included |
| RoomConfigs.Builder.Build | sdk/src/com/scoreflex/realtime/RoomConfig.java:122-125 | a fresh config whose map is `ConfigEntries` of the builder's fields and whose listeners are the builder's |
| RoomConfigs.RoomConfig.constructor | sdk/src/com/scoreflex/realtime/RoomConfig.java:142-158 | fills a fresh valid map with exactly the set fields and copies both listeners without a null check |
| RoomConfigs.RoomConfig.GetRoomListener | sdk/src/com/scoreflex/realtime/RoomConfig.java:165-167 | the builder's room listener |
| RoomConfigs.RoomConfig.GetMessageListener | sdk/src/com/scoreflex/realtime/RoomConfig.java:175-177 | the builder's message listener |
| RoomConfigs.RoomConfig.GetRoomConfig | sdk/src/com/scoreflex/realtime/RoomConfig.java:185-187 | the map filled at construction |
| RoomConfigs.MaxPlayersOnlySize | sdk/src/com/scoreflex/realtime/RoomConfig.java:146-147 | a config with only a maximum of 4 has serialized size 17 |
| RoomConfigs.BuildTwice | sdk/src/com/scoreflex/realtime/RoomConfig.java:57-104 | setting the maximum twice keeps the last value; the resulting map and its size are exact |
| Udp.Frame | sdk/src/com/scoreflex/realtime/UDPConnection.java:93-98 | an outbound datagram is header 0x60 followed by the body, one byte longer than the body |
| Udp.Classify | sdk/src/com/scoreflex/realtime/UDPConnection.java:129-135 | a header with bit 0x80 is skipped; any other datagram delivers bytes 1.. of the (8192-byte truncated) buffer; an empty read reuses the stale header byte |
| Udp.ClassifyFrame | sdk/src/com/scoreflex/realtime/UDPConnection.java:93-135 | decoding a framed body returns the body |
| Udp.HeartbeatSkipped | sdk/src/com/scoreflex/realtime/UDPConnection.java:49-55 | the heartbeat datagram is the single byte 0xE0 and is never delivered |
| Udp.UdpConnection.constructor | sdk/src/com/scoreflex/realtime/UDPConnection.java:58-63 | a new channel is not connected and has sent nothing |
| Udp.UdpConnection.Connect | sdk/src/com/scoreflex/realtime/UDPConnection.java:65-81 | sends one heartbeat; the receive loop runs iff that send succeeded |
| Udp.UdpConnection.Disconnect | sdk/src/com/scoreflex/realtime/UDPConnection.java:83-87 | stops the receive loop and changes nothing else |
| Udp.UdpConnection.SendMessage | sdk/src/com/scoreflex/realtime/UDPConnection.java:93-110 | writes the framed body; a failed write clears `is_connected` |
| Udp.UdpConnection.OnDatagram | sdk/src/com/scoreflex/realtime/UDPConnection.java:125-136 | any datagram, heartbeat included, sets `is_connected`; only the classified body is delivered |
| Udp.UdpConnection.OnReceiveTimeout | sdk/src/com/scoreflex/realtime/UDPConnection.java:138-140 | a receive timeout resends the heartbeat and the loop goes on iff that send succeeds |
| Udp.ChannelLifecycle | sdk/src/com/scoreflex/realtime/UDPConnection.java:58-110 | connect then send puts the heartbeat and the framed body on the wire, and nothing is delivered |
| Params.RequestParams.constructor | sdk/src/com/scoreflex/ScoreflexUriHelper.java:115 | new parameters are empty |
| Params.RequestParams.Put | sdk/src/com/scoreflex/ScoreflexRequestParamsDecorator.java:88 | `put` maps the name to the value, null included |
| Decorator.JoinServices | sdk/src/com/scoreflex/ScoreflexRequestParamsDecorator.java:66-72 | the StringBuffer loop builds the services joined by ',' |
| Decorator.HandledServicesValue | sdk/src/com/scoreflex/ScoreflexRequestParamsDecorator.java:54-73 | no services iff neither Facebook nor Google is available; otherwise Facebook then Google joined by ',' |
| Decorator.AddIfAbsent | sdk/src/com/scoreflex/ScoreflexRequestParamsDecorator.java:80-89 | no change for a null name or value; existing keys are never overwritten; the only new key is the name, with the value |
| Decorator.AddParameterIfNotPresent | sdk/src/com/scoreflex/ScoreflexRequestParamsDecorator.java:80-89 | null params are left alone; otherwise the params become `AddIfAbsent` of the old ones |
| Decorator.AddLocationIfNotPresent | sdk/src/com/scoreflex/ScoreflexRequestParamsDecorator.java:91-99 | a null location adds nothing; otherwise "latitude,longitude" is added if absent |
| Decorator.Decorate | sdk/src/com/scoreflex/ScoreflexRequestParamsDecorator.java:41-78 | the params become the decorated map of the old ones |
| Decorator.DecorateAddsOnlyItsKeys | sdk/src/com/scoreflex/ScoreflexRequestParamsDecorator.java:41-78 | decoration adds no key other than `lang`, `location`, `sid` and `handledServices`, and keeps every other existing value |
| Decorator.DecorateSid | sdk/src/com/scoreflex/ScoreflexRequestParamsDecorator.java:50-52 | `sid` is set, overwriting, iff the resource starts with "/web"; otherwise it is left as it was |
| Decorator.DecorateAddsWhenAbsent | sdk/src/com/scoreflex/ScoreflexRequestParamsDecorator.java:44-73 | an absent `lang`, `location` or `handledServices` is added iff its value exists, with that value |
| Decorator.DecorateIdempotent | sdk/src/com/scoreflex/ScoreflexRequestParamsDecorator.java:41-78 | decorating twice gives the same parameters as decorating once |
| UriHelper.IsAPIUri | sdk/src/com/scoreflex/ScoreflexUriHelper.java:133-138 | false for null, otherwise host equality with the base URI |
| UriHelper.GetResource | sdk/src/com/scoreflex/ScoreflexUriHelper.java:53-75 | null for a non-API URI; a returned resource is the path with the base path's length stripped |
| UriHelper.ResourceOfUnder | sdk/src/com/scoreflex/ScoreflexUriHelper.java:53-75 | a URI built from the base with a suffix x gives back exactly x |
| UriHelper.StripVersion | sdk/src/com/scoreflex/ScoreflexUriHelper.java:158-159 | a leading "/"+version is removed once when present, otherwise the resource is unchanged |
| UriHelper.GetAbsoluteUrl | sdk/src/com/scoreflex/ScoreflexUriHelper.java:157-161 | the URL starts with the base URL; what follows it is the resource, less one leading `/` + API version when the resource starts with it |
| UriHelper.GetNonSecureAbsoluteUrl | sdk/src/com/scoreflex/ScoreflexUriHelper.java:170-175 | the same, after the non-secure base URL |
| UriHelper.AbsoluteUrlStripsVersionOnce | sdk/src/com/scoreflex/ScoreflexUriHelper.java:157-161 | the version prefix is stripped once, not twice, then the base URL is prepended |
| UriHelper.NonSecureUrlSharesResource | sdk/src/com/scoreflex/ScoreflexUriHelper.java:157-175 | the secure and non-secure URLs differ only by their base |
| UriHelper.IndexOf | sdk/src/com/scoreflex/ScoreflexUriHelper.java:90 | `indexOf` returns -1 or an index at or after the start |
| UriHelper.IndexOfIsFirst | sdk/src/com/scoreflex/ScoreflexUriHelper.java:90-93 | `indexOf` finds the first occurrence at or after the start |
| UriHelper.IndexOfAppend | sdk/src/com/scoreflex/ScoreflexUriHelper.java:90-93 | appending a character does not change an earlier match |
| UriHelper.SegmentEnd | sdk/src/com/scoreflex/ScoreflexUriHelper.java:90-91 | a segment ends within the query |
| UriHelper.SegmentEndsAtAmpersand | sdk/src/com/scoreflex/ScoreflexUriHelper.java:90-91 | a segment that ends before the query's end ends at '&' |
| UriHelper.NameEnd | sdk/src/com/scoreflex/ScoreflexUriHelper.java:93-96 | the name ends at the first '=' inside the segment, or at the segment end |
| UriHelper.SegmentNames | sdk/src/com/scoreflex/ScoreflexUriHelper.java:88-103 | the do-while reads at least one name |
| UriHelper.InsertAllContents | sdk/src/com/scoreflex/ScoreflexUriHelper.java:87-99 | adding to a LinkedHashSet keeps it duplicate-free and holds exactly the old and new elements |
| UriHelper.InsertAllSnoc | sdk/src/com/scoreflex/ScoreflexUriHelper.java:87-99 | adding names one at a time equals adding them all |
| UriHelper.FirstIndex | sdk/src/com/scoreflex/ScoreflexUriHelper.java:87-99 | the first position of a name in the segment order |
| UriHelper.FirstIndexExtend | sdk/src/com/scoreflex/ScoreflexUriHelper.java:87-99 | a later name does not move an earlier first position |
| UriHelper.InsertAllInFirstOrder | sdk/src/com/scoreflex/ScoreflexUriHelper.java:87-99 | the set's order is first-occurrence order |
| UriHelper.InsertKeepsFirstOrder | sdk/src/com/scoreflex/ScoreflexUriHelper.java:87-99 | one more insertion keeps first-occurrence order |
| UriHelper.QueryNamesAreFirstOccurrences | sdk/src/com/scoreflex/ScoreflexUriHelper.java:77-106 | the names have no duplicates, are exactly the decoded segment names, and keep first-occurrence order |
| UriHelper.EmptyQueryHasOneName | sdk/src/com/scoreflex/ScoreflexUriHelper.java:88-103 | an empty, non-null query yields exactly the decoded empty name |
| UriHelper.TrailingAmpersandAddsNothing | sdk/src/com/scoreflex/ScoreflexUriHelper.java:88-103 | from any start, a trailing '&' adds no name |
| UriHelper.SameFirstSegment | sdk/src/com/scoreflex/ScoreflexUriHelper.java:90-98 | a trailing '&' does not change the first segment's name |
| UriHelper.TrailingAmpersandKeepsNames | sdk/src/com/scoreflex/ScoreflexUriHelper.java:88-103 | a query with one trailing '&' has the same names as without it |
| UriHelper.InsertAllCons | sdk/src/com/scoreflex/ScoreflexUriHelper.java:87-99 | inserting a first name then the rest equals inserting all |
| UriHelper.NamesFromReadsAll | sdk/src/com/scoreflex/ScoreflexUriHelper.java:88-103 | the loop's set equals inserting every segment name in order |
| UriHelper.QueryNamesExample | sdk/src/com/scoreflex/ScoreflexUriHelper.java:77-106 | "a=1&b&a=2&" gives the names a, b |
| UriHelper.GetQueryParameterNames | sdk/src/com/scoreflex/ScoreflexUriHelper.java:77-106 | an opaque URI throws UnsupportedOperationException; otherwise the loop returns the query's names (the empty set for a null query) |
| UriHelper.NonEmpty | sdk/src/com/scoreflex/ScoreflexUriHelper.java:119-121 | an empty value becomes null, any other value is kept |
| UriHelper.ParamsOfEntries | sdk/src/com/scoreflex/ScoreflexUriHelper.java:114-125 | one entry per distinct name, each the query value with empty values mapped to null |
| UriHelper.GetParams | sdk/src/com/scoreflex/ScoreflexUriHelper.java:114-125 | an opaque URI, and only an opaque one, throws UnsupportedOperationException; otherwise a fresh params object holding exactly `ParamsOf` of the names |
| SessionTypes.MatchCommandBody | sdk/src/com/scoreflex/realtime/Session.java:946-971 | start, stop and reset send their game request for the given room |
| SessionTypes.Notify | sdk/src/com/scoreflex/realtime/Session.java:1444-1722 | a null listener is told nothing; otherwise exactly one callback, to that listener, with that event |
| SessionTypes.ConnectionFailedCode | sdk/src/com/scoreflex/realtime/Session.java:1905-1939 | a failure is reported exactly for INTERNAL_ERROR, INVALID_MESSAGE, PROTOCOL_ERROR, PERMISSION_DENIED and ALREADY_CONNECTED, never as success or network error (NETWORK_ERROR and CONNECT_TIMEOUT take the retry path) |
| SessionTypes.RoomReplyFailureCode | sdk/src/com/scoreflex/realtime/Session.java:2079-2193 | a creation fails exactly on INTERNAL_ERROR, PERMISSION_DENIED, ALREADY_CREATED and INVALID_DATA, a join exactly on INTERNAL_ERROR, PERMISSION_DENIED, ROOM_NOT_FOUND and ROOM_FULL; a failure code is never success |
| SessionTypes.AckStatusCode | sdk/src/com/scoreflex/realtime/Session.java:2343-2366 | INTERNAL_ERROR, ROOM_NOT_JOINED, PEER_NOT_FOUND and INVALID_MESSAGE each get their own code, in both directions; every other status reads as success |
| SessionTypes.MatchStateOf | sdk/src/com/scoreflex/realtime/Session.java:2239-2280 | a known server state gives a known match state; an unknown one keeps the fallback |
| SessionTypes.ParticipantsOf | sdk/src/com/scoreflex/realtime/Session.java:2038-2045 | exactly the players' ids as keys, each participant filed under its own id and in the room |
| SessionTypes.ParticipantsOfLastWins | sdk/src/com/scoreflex/realtime/Session.java:2040-2045 | the participant under an id is built from the last player with that id: its id, the room's id and its decoded properties, so a later player replaces an earlier one |
| SessionTypes.BuildParticipants | sdk/src/com/scoreflex/realtime/Session.java:2040-2045 | the loop builds exactly `ParticipantsOf` |
| Sessions.NextGap | sdk/src/com/scoreflex/realtime/Session.java:1778-1786 | the drain stops at the first id after the last delivered one that is not buffered |
| Sessions.NextGapIs | sdk/src/com/scoreflex/realtime/Session.java:1778-1786 | that stopping point is unique |
| Sessions.ReliableArrival | sdk/src/com/scoreflex/realtime/Session.java:1760-1788 | one reliable arrival delivers a run of consecutive ids starting at `last_reliable_id + 1`, advances the counter by the run's length, and keeps the buffer ordered |
| Sessions.ReliableArrivalsInOrder | sdk/src/com/scoreflex/realtime/Session.java:1760-1788 | over any arrival sequence, delivered ids are exactly `last_reliable_id + 1, + 2, ...`, each once, and the buffer only holds ids beyond the next expected one |
| Sessions.UnreliableArrival | sdk/src/com/scoreflex/realtime/Session.java:1790-1803 | an unreliable message is delivered iff its id is greater than the last one; the reliable state is untouched |
| Sessions.MaxId | sdk/src/com/scoreflex/realtime/Session.java:1790-1803 | the largest id seen, at least the start |
| Sessions.UnreliableArrivalsIncrease | sdk/src/com/scoreflex/realtime/Session.java:1790-1803 | the counter ends at the largest id seen, and the delivered ids strictly increase |
| Sessions.DeliveredIsArrival | sdk/src/com/scoreflex/realtime/Session.java:1772-1786 | the in-place handle-then-drain equals the value-level arrival step |
| Sessions.InOrderThenDrain | sdk/src/com/scoreflex/realtime/Session.java:1772-1786 | handling the expected id then draining delivers it followed by the buffered run |
| Sessions.DrainAdvance | sdk/src/com/scoreflex/realtime/Session.java:1778-1786 | one drain iteration keeps the drain invariant and shrinks the buffer |
| Sessions.Run | sdk/src/com/scoreflex/realtime/Session.java:1778-1786 | the drained run lists the buffered messages in id order |
| Sessions.DrainStep | sdk/src/com/scoreflex/realtime/Session.java:1778-1786 | the run and the remaining buffer grow by one id per iteration |
| Sessions.Clock.MmTime | sdk/src/com/scoreflex/realtime/Session.java:2492-2494 | at the instant of the last sync the match time is the server's `mm_time` |
| Sessions.MmTimeAdvances | sdk/src/com/scoreflex/realtime/Session.java:2492-2494 | between syncs the match clock advances exactly as much as the monotonic clock |
| Sessions.MatchFailureCode | sdk/src/com/scoreflex/realtime/Session.java:2262-2278 | a failure is reported exactly for ROOM_NOT_JOINED and BAD_STATE, never as success |
| Sessions.RoomGoneCode | sdk/src/com/scoreflex/realtime/Session.java:2104-2219 | the listener is told only for the statuses the source reports |
| Sessions.ReplayWindow | sdk/src/com/scoreflex/realtime/Session.java:1886-1892 | the replay sends every queued envelope once, with its ack replaced by the current `last_reliable_id` |
| Sessions.Session.ConnectEnvelope | sdk/src/com/scoreflex/realtime/Session.java:579-593 | the Connect envelope is `(0, last_reliable_id, reliable)` and carries the session id only when set |
| Sessions.Session.constructor | sdk/src/com/scoreflex/realtime/Session.java:218-263 | initial settings (reconnect on, 1000 ms, 3 retries), disconnected, all counters 0 and all maps empty |
| Sessions.Session.SetReconnectFlag | sdk/src/com/scoreflex/realtime/Session.java:294-299 | stores the flag and nothing else |
| Sessions.Session.SetReconnectTimeout | sdk/src/com/scoreflex/realtime/Session.java:327-332 | stores the timeout and nothing else |
| Sessions.Session.SetMaxRetries | sdk/src/com/scoreflex/realtime/Session.java:360-365 | ignores its argument and stores 3 (see Findings) |
| Sessions.SetMaxRetriesIntended | sdk/src/com/scoreflex/realtime/Session.java:350-365 | corrected: the budget becomes `n` and every other setting is kept |
| Sessions.Session.TcpWrite | sdk/src/com/scoreflex/realtime/Session.java:781-784 | a write on the current connection goes on the wire; a null connection is reported |
| Sessions.Session.FastWrite | sdk/src/com/scoreflex/realtime/Session.java:2023-2028 | UDP when that channel is connected, TCP otherwise |
| Sessions.Session.TearDownUdp | sdk/src/com/scoreflex/realtime/Session.java:571-574 | the UDP channel is stopped and dropped |
| Sessions.Session.SendRequest | sdk/src/com/scoreflex/realtime/Session.java:771-784 | a reliable request is stamped `(last_msgid + 1, last_reliable_id, reliable)`; on success the counter grows by one and the envelope is queued under it; on failure both are unchanged and the network error is reported |
| Sessions.Session.DoConnect | sdk/src/com/scoreflex/realtime/Session.java:564-595 | with the budget spent, retries reset to 0, the failure is reported and nothing is dialled; otherwise UDP is dropped, the link is CONNECTING and the Connect envelope is sent |
| Sessions.Session.Connect | sdk/src/com/scoreflex/realtime/Session.java:530-542 | a null listener throws IllegalArgumentException and changes nothing; otherwise the listener is stored and the session dials |
| Sessions.Session.Reconnect | sdk/src/com/scoreflex/realtime/Session.java:552-563 | throws IllegalArgumentException without a listener, otherwise dials |
| Sessions.Session.ReconnectTimerFired | sdk/src/com/scoreflex/realtime/Session.java:2476-2486 | the delayed retry increments `retries` and dials only if the connection is still null |
| Sessions.Session.ResetSession | sdk/src/com/scoreflex/realtime/Session.java:628-644 | the full reset: counters 0, both queues and all listener maps empty, no session id or room |
| Sessions.Session.DoDisconnect | sdk/src/com/scoreflex/realtime/Session.java:615-645 | sends Disconnect when connected, then the full reset (a connected link without a connection models the null dereference) |
| Sessions.Session.SendPing | sdk/src/com/scoreflex/realtime/Session.java:672-708 | not connected reports a pang; otherwise a Ping stamped with the match time goes on the fastest channel and, when written, the listener and its timeout are registered |
| Sessions.Session.PingTimeoutFired | sdk/src/com/scoreflex/realtime/Session.java:702-707 | removes the listener and reports a pang, which is a no-op when a pong already removed it |
| Sessions.Session.SendCreateRoom | sdk/src/com/scoreflex/realtime/Session.java:753-785 | not connected reports SESSION_NOT_CONNECTED; otherwise both listeners are registered before the reliable CreateRoom request is sent |
| Sessions.Session.SendJoinRoom | sdk/src/com/scoreflex/realtime/Session.java:829-859 | the same for JoinRoom |
| Sessions.Session.SendLeaveRoom | sdk/src/com/scoreflex/realtime/Session.java:889-912 | not connected reports SESSION_NOT_CONNECTED; otherwise a reliable LeaveRoom request |
| Sessions.Session.SendMatchCommand | sdk/src/com/scoreflex/realtime/Session.java:946-971 | start/stop/reset: not connected reports SESSION_NOT_CONNECTED; otherwise the reliable game request |
| Sessions.Session.SendSetRoomProperty | sdk/src/com/scoreflex/realtime/Session.java:1129-1157 | not connected reports SESSION_NOT_CONNECTED; otherwise a reliable request carrying the encoded property |
| Sessions.Session.SendSetCurrentParticipantProperty | sdk/src/com/scoreflex/realtime/Session.java:1199-1228 | the same for the player's own property |
| Sessions.Session.SendUnreliableMessage | sdk/src/com/scoreflex/realtime/Session.java:1301-1341 | not connected returns SESSION_NOT_CONNECTED; otherwise the message, numbered by the match time, goes on the fastest channel and the write status is returned |
| Sessions.Session.SendReliableMessage | sdk/src/com/scoreflex/realtime/Session.java:1406-1440 | a successful send returns the new id `last_msgid + 1`, queues the envelope and registers the listener; a failed one changes neither |
| Sessions.Session.OnTcpMessage | sdk/src/com/scoreflex/realtime/Session.java:1733-1737 | a message from a connection other than the current one is ignored |
| Sessions.Session.OnUdpMessage | sdk/src/com/scoreflex/realtime/Session.java:1728-1732 | a message from a channel other than the current one is ignored |
| Sessions.Session.OnMessageReceived | sdk/src/com/scoreflex/realtime/Session.java:1739-1751 | every envelope is ack-pruned first; id 0 is handled without touching either counter |
| Sessions.Session.AckReliableMessages | sdk/src/com/scoreflex/realtime/Session.java:1753-1758 | with N >= `last_ackid`, removes ids `last_ackid..N` and sets `last_ackid = N+1`; with N < `last_ackid` nothing changes |
| Sessions.Session.OnReliableMessageReceived | sdk/src/com/scoreflex/realtime/Session.java:1760-1788 | an old id is dropped, a future id is buffered, the expected id is handled and the buffer drained: the state moves exactly as `ReliableArrival` |
| Sessions.Session.HandleReliableRun | sdk/src/com/scoreflex/realtime/Session.java:1772-1786 | handling the expected id then draining equals `ReliableArrival` |
| Sessions.Session.DrainBuffer | sdk/src/com/scoreflex/realtime/Session.java:1778-1786 | the drain loop stops exactly at the next gap |
| Sessions.Session.DrainNext | sdk/src/com/scoreflex/realtime/Session.java:1779-1785 | one drained message keeps the drain invariant and shrinks the buffer |
| Sessions.Session.HandleInOrder | sdk/src/com/scoreflex/realtime/Session.java:1772-1776 | the expected id advances the counter and is handled |
| Sessions.Session.OnUnreliableMessageReceived | sdk/src/com/scoreflex/realtime/Session.java:1790-1803 | delivered iff its id exceeds the one global counter, which then becomes that id: the state moves exactly as `UnreliableArrival` |
| Sessions.Session.HandleOutMessage | sdk/src/com/scoreflex/realtime/Session.java:1805-1861 | every push is handled once; sequencing state is kept unless the push fully resets the session |
| Sessions.Session.HandleLinkPush | sdk/src/com/scoreflex/realtime/Session.java:1805-1861 | connection pushes keep sequencing state or fully reset it |
| Sessions.Session.HandleClockPush | sdk/src/com/scoreflex/realtime/Session.java:1805-1861 | clock pushes change no connection or sequencing state |
| Sessions.Session.HandleRoomPush | sdk/src/com/scoreflex/realtime/Session.java:1805-1861 | room pushes change no connection or sequencing state |
| Sessions.Session.HandleConnected | sdk/src/com/scoreflex/realtime/Session.java:1862-1894 | CONNECTED with retries 0, the session id and info stored, the match clock re-anchored, the UDP channel opened when a port is given, and every queued envelope resent with the current ack |
| Sessions.Session.OpenUdpChannel | sdk/src/com/scoreflex/realtime/Session.java:1873-1883 | a failed UDP open leaves no channel; otherwise a fresh channel that has sent its heartbeat |
| Sessions.Session.ReplaySendWindow | sdk/src/com/scoreflex/realtime/Session.java:1886-1892 | every queued envelope is resent on the connection with the current ack |
| Sessions.Session.HandleConnectionFailed | sdk/src/com/scoreflex/realtime/Session.java:1895-1940 | always DISCONNECTED with no ping listeners; terminal statuses reset retries and report; network errors retry or fail |
| Sessions.Session.DropConnection | sdk/src/com/scoreflex/realtime/Session.java:1896-1904 | the link is DISCONNECTED, the connection and info dropped, the ping listeners cleared |
| Sessions.Session.RetryOrFail | sdk/src/com/scoreflex/realtime/Session.java:1918-1927 | with the reconnect flag, report reconnecting and schedule a retry; otherwise reset retries and report the failure |
| Sessions.Session.HandleConnectionClosed | sdk/src/com/scoreflex/realtime/Session.java:1941-2004 | SESSION_CLOSED fully resets; REPLACED_BY_NEW_CONNECTION drops the link but keeps counters, queues and room; UNRESPONSIVE_CLIENT retries or fails; NEW_SERVER_LOCATION dials the new host |
| Sessions.Session.CloseSession | sdk/src/com/scoreflex/realtime/Session.java:1948-1966 | the full reset with retries 0, reported as SESSION_CLOSED |
| Sessions.Session.MoveServer | sdk/src/com/scoreflex/realtime/Session.java:1990-2001 | host and port replaced, retries 0, ping listeners cleared, reconnecting reported only when connected, then dialled |
| Sessions.Session.HandleSync | sdk/src/com/scoreflex/realtime/Session.java:2005-2010 | the match clock anchor moves back by the latency, so `getMmTime` grows by exactly the latency at every instant |
| Sessions.Session.HandleServerPing | sdk/src/com/scoreflex/realtime/Session.java:2011-2029 | the clock is re-anchored to the timestamp and a Pong goes on the fastest channel |
| Sessions.Session.HandleServerPong | sdk/src/com/scoreflex/realtime/Session.java:2030-2032 | removes the ping listener and reports the round-trip time |
| Sessions.Session.HandleRoomReply | sdk/src/com/scoreflex/realtime/Session.java:2033-2103 | SUCCESS replaces the current room wholesale (unknown state becomes PENDING); a failure removes that id's listeners and leaves the room untouched |
| Sessions.Session.HandleRoomGone | sdk/src/com/scoreflex/realtime/Session.java:2104-2122 | for the current room only, the room is dropped and its listeners removed when reported |
| Sessions.Session.HandlePeerJoined | sdk/src/com/scoreflex/realtime/Session.java:2220-2230 | for the current room only, the player is added with its properties |
| Sessions.Session.HandlePeerLeft | sdk/src/com/scoreflex/realtime/Session.java:2231-2238 | for the current room only, the player is removed |
| Sessions.Session.HandleGameStateChanged | sdk/src/com/scoreflex/realtime/Session.java:2239-2280 | the match state changes only on SUCCESS, an unknown server state keeps the old state |
| Sessions.Session.HandleRoomPropertyUpdated | sdk/src/com/scoreflex/realtime/Session.java:2281-2304 | on SUCCESS the property is set or, for VOID, removed; otherwise the properties are unchanged |
| Sessions.Session.HandlePlayerPropertyUpdated | sdk/src/com/scoreflex/realtime/Session.java:2305-2328 | on SUCCESS the participant's property is set or removed; an unknown participant is left alone |
| Sessions.Session.HandleRoomMessage | sdk/src/com/scoreflex/realtime/Session.java:2329-2342 | for the current room only, the message listener receives the message |
| Sessions.Session.HandleAck | sdk/src/com/scoreflex/realtime/Session.java:2343-2366 | removes the sent-message listener and reports the status |
| SessionScenarios.ReliableOutOfOrder | sdk/src/com/scoreflex/realtime/Session.java:1760-1788 | arrivals 1,3,2,5,4 deliver 1,2,3,4,5 and leave the buffer empty |
| SessionScenarios.UnreliableDropsLate | sdk/src/com/scoreflex/realtime/Session.java:1790-1803 | arrivals 5,3,9,9,7 deliver 5,9 |
| SessionScenarios.Lifecycle | sdk/src/com/scoreflex/realtime/Session.java:360-365 | a session driven through its commands keeps 3 retries and buffers an early id |
| SessionScenarios.DisconnectTwice | sdk/src/com/scoreflex/realtime/Session.java:615-645 | disconnecting twice is the same as once |

## Left out

- Threads and synchronisation: the Looper/Handler worker thread, main-thread posting, the
  FutureTask rendezvous of the public send methods, `synchronized` blocks and the wait/notify
  of `initialize`. The engine is a sequential event handler.
- Listener callbacks are appended to an event log instead of being called.
- Delayed tasks (ping timeout, reconnect delay) are explicit "timer fired" inputs.
- Sockets: TCPConnection's socket code and UDPConnection's socket loop. A TCP connection is
  an id; write success and UDP socket creation come from an `Environment` parameter. The
  8192-byte receive buffer truncation is modelled.
- Connection.java is not part of this model: it calls a Session method that does not exist.
- Protocol Buffers encoding: envelopes are datatypes, and the byte encoding is an injected
  function.
- SystemClock becomes the `now` of the environment; the player id, game id and access token
  are constructor parameters.
- `Uri.decode`, `getQueryParameter`, the base URLs, the API version, the language, the session
  id and the service-availability checks are parameters.
- Double values are `real`, and latitude/longitude are already-formatted strings: float
  formatting is not modelled.
- The public static wrappers other than `connect` and `reconnect` are not modelled: each
  checks its arguments, then posts the private method the model has to the handler thread.
  What the model therefore does not capture: `checkInstance`'s IllegalStateException
  before `initialize` (a Session object exists only once built); the IllegalArgumentException
  for a null listener in `ping` and `joinRoom`, a null configuration in `createRoom`, a null
  key in the two property setters and a null room listener in `sendReliableMessage`; and the
  IllegalStateException "No room is joined" of `leaveRoom`, the match commands, the property
  setters and the two message senders. The getters, `isInitialized` and the heartbeat
  timeout setters only read or store fields.
- The replay on `Connected` walks the send window in increasing id order, one of the orders a
  HashMap may iterate in.
- `NEW_SERVER_LOCATION` resets `retries` to 0 in the code; the model follows the code.
- The reliable and unreliable counters are one global pair shared by the TCP and UDP
  channels, as in the code.
- No payload size limit exists in Session.java, and none is modelled.
- Sessions.Session.AckReliableMessages: states the exact removed range `last_ackid..N`.
  "No id <= N remains" needs every queued id to be at least `last_ackid`. A peer that
  acknowledges ids not yet sent breaks that, so it is not stated as an invariant.
- Rooms.Participant.AddProperty: Participant.java defines no properties and no
  `addProperty`, though Room.java:207-211 and Session.java:2225 call them; the semantics (a
  map put) are assumed. A participant is a value here, so an update made through another
  reference to the same Java object is not modelled.
- Rooms.Participant.RemoveProperty: likewise assumed (a map remove) for the undefined
  `removeProperty` called at Room.java:213-217, and modelled on a value.
- Params.RequestParams.Put: `Scoreflex.RequestParams` is not part of this model; `put` is
  assumed to store the value under the name, null included, which `DecorateSid` relies on.
- Sessions.Session.HandleRoomGone: filters with the corrected `isSameRoom` (see Findings).
  As written, a RoomLeft or RoomClosed push for any id, say "B" while in "A", drops the
  current room and removes B's listeners; the model ignores it.
- Sessions.Session.HandlePeerJoined: filters with the corrected `isSameRoom` and decodes
  with the corrected decoder (see Findings). As written, a peer of another room joins the
  current one, and a UINT64 property reads the signed field.
- Sessions.Session.HandlePeerLeft: filters with the corrected `isSameRoom`; as written, a
  push for any room id removes that player from the current room.
- Sessions.Session.HandleGameStateChanged: filters with the corrected `isSameRoom`; as
  written, a push for any room id changes the current room's match state.
- Sessions.Session.HandleRoomPropertyUpdated: filters with the corrected `isSameRoom` and
  decodes with the corrected decoder; as written, a push for any room id updates the current
  room, and a UINT64 value reads the signed field.
- Sessions.Session.HandlePlayerPropertyUpdated: as HandleRoomPropertyUpdated, for a
  participant's property.
- Sessions.Session.HandleRoomMessage: filters with the corrected `isSameRoom` and decodes
  the payload with the corrected decoder; as written, a message for any room id reaches the
  current room's message listener, and a UINT64 payload value reads the signed field.
- Codec.JavaMapOf: decodes with the corrected decoder; `protoMapToJavaMap` as written reads
  a UINT64 entry from the signed field, so such a value comes back as the signed field's
  content (see Findings).
- Codec.ProtoMapToJavaMap: builds `JavaMapOf`, so the same corrected decoding applies.
- SessionTypes.ParticipantsOf: player properties go through the corrected decoder.
- SessionTypes.BuildParticipants: builds `ParticipantsOf`, with the same corrected decoder.
- Sessions.SetMaxRetriesIntended: stated on the settings value only. The session keeps the
  as-written setter, because its retry invariants take the budget to be 3.
- Sessions.Session.HandleConnected: the session info map goes through the corrected decoder.
- Sessions.Session.HandleRoomReply: the room's configuration, properties and participants go
  through the corrected decoder.
- Sessions.Session.SendRequest: `last_msgid` is a Java `int`; the model's counter is
  unbounded, so the wrap to a negative id after `Integer.MAX_VALUE` envelopes is not modelled.
  Likewise the receiving side's `last_reliable_id + 1` does not wrap.
- Sessions.Session.AckReliableMessages: `last_ackid` is unbounded here. In Java, an ack of
  `Integer.MAX_VALUE` makes `last_ackid <= ackid` always true after the increment wraps, so
  that loop never ends; the model's loop ends.
- RealtimeMaps.RealtimeMap.Put: `serialized_size` is a Java `int`; the model's sum is
  unbounded, so overflow past 2^31 - 1 bytes is not modelled.
- Codec.DecodeEncode: a `ByteBuffer` is modelled as the bytes left from its position.
  `ByteString.copyFrom` consumes them and moves the position, so encoding the same buffer a
  second time yields no bytes in Java; the model encodes the same bytes each time.
- Decorator.Decorate: the parameters object is never null here. In Java a null one is
  accepted: the if-not-present helpers return at once, and only the `/web` branch's
  `params.put("sid", …)` dereferences it, throwing NullPointerException.
- UI, push notifications, social login wrappers, the job queue and the request vault.

## Findings

| source | as written | input that shows it | evidently intended | confidence | as-written member | corrected member |
|---|---|---|---|---|---|---|
| sdk/src/com/scoreflex/realtime/Session.java:2393 | a UINT64 entry is decoded from the signed 64-bit field | a Long value 5, encoded as UINT64 with the value in the unsigned field, decodes to 0 | read the unsigned 64-bit field | not executed | Codec.MapEntryToObjectAsWritten | Codec.MapEntryToObject |
| sdk/src/com/scoreflex/realtime/Room.java:183-185 | `isSameRoom` compares its argument with itself | any id other than the room's, e.g. "b" for room "a", is accepted | compare the argument with the room's id | not executed | Rooms.Room.IsSameRoomAsWritten | Rooms.Room.IsSameRoom |
| sdk/src/com/scoreflex/realtime/Session.java:363 | `setMaxRetries(n)` stores 3 whatever `n` is, though its documentation says it sets the maximum number of failures | `setMaxRetries(5)` leaves the budget at 3 | store `n` | not executed | Sessions.Session.SetMaxRetries | Sessions.SetMaxRetriesIntended |
| sdk/src/com/scoreflex/realtime/RealtimeMap.java:361-391 | the unmodifiable view does not override `getSerializedSize()` and reads its own empty fields | a view of a map holding one entry reports size 0 | delegate to the wrapped map | not executed | RealtimeMaps.UnmodifiableRealtimeMap.GetSerializedSizeAsWritten | RealtimeMaps.UnmodifiableRealtimeMap.GetSerializedSize |
