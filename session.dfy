/** The realtime session engine: the single owner of the connection state, the sequence
    counters, the send window, the reorder buffer, the listener registries and the current
    room. Every method is one task run on the session's worker thread; the transports, the
    timers and the monotonic clock reach it as input events and parameters, and the
    callbacks it posts to the main thread are appended to `events`. The session's fields
    are grouped by concern into the records below. */
module Sessions {
  import opened Wrappers
  import opened JavaTypes
  import opened RealtimeTypes
  import opened Proto
  import opened Codec
  import opened Rooms
  import opened Messages
  import opened Udp
  import opened RoomConfigs
  import opened SessionTypes

  /** connection_listener, reconnect_flag, reconnect_timeout and max_retries. */
  datatype Settings = Settings(connectionListener: Option<ConnectionListener>, reconnectFlag: bool,
                               reconnectTimeout: int, maxRetries: int)

  /** setMaxRetries(n) as its documentation describes it: the budget becomes `n` and every
      other setting is kept. */
  function SetMaxRetriesIntended(s: Settings, n: Int32): (r: Settings)
    ensures r.maxRetries == n
    ensures r.(maxRetries := s.maxRetries) == s
  {
    s.(maxRetries := n)
  }

  /** The link to the server: its address, connection_status, the TCP connection (told
      apart from earlier ones by its number), the retry bookkeeping (`pendingReconnects`
      counts the reconnect tasks posted with a delay and not yet run), session_id and
      session_info. */
  datatype Link = Link(host: string, port: int, status: ConnectionState, connection: Option<nat>,
                       nextConnection: nat, retries: int, pendingReconnects: nat,
                       sessionId: Option<string>, sessionInfo: Option<map<string, Value>>)
  {
    /** What forgetting the session leaves of the link: the address, the retry bookkeeping
        and the connection numbering survive. */
    function Forgotten(): (l: Link)
      ensures l.status == DISCONNECTED && l.connection.None?
      ensures l.sessionId.None? && l.sessionInfo.None?
      ensures l.host == host && l.port == port && l.nextConnection == nextConnection
      ensures l.retries == retries && l.pendingReconnects == pendingReconnects
    {
      this.(status := DISCONNECTED, connection := None, sessionId := None, sessionInfo := None)
    }
  }

  /** The sequencing state at one instant: the reorder state, what was handled, and the
      send window. */
  datatype Snapshot = Snapshot(receiver: Receiver, history: History, sendWindow: SendWindow)

  /** The last id of the run the buffer `b` holds without a gap after `last`. */
  function NextGap<V>(b: map<int, V>, last: int): (g: int)
    ensures g >= last && g + 1 !in b
    ensures forall k | last < k <= g :: k in b
    decreases |b|
  {
    if last + 1 in b then
      var rest := b - {last + 1};
      assert |rest| < |b| by { assert rest.Keys == b.Keys - {last + 1}; }
      var g := NextGap(rest, last + 1);
      assert forall k | last + 1 < k <= g :: k in b by {
        assert forall k | k in rest :: k in b;
      }
      g
    else last
  }

  /** The run without a gap after `last` ends at the first id the buffer does not hold. */
  lemma {:induction false} NextGapIs<V>(b: map<int, V>, last: int, g: int)
    requires last <= g && g + 1 !in b
    requires forall k | last < k <= g :: k in b
    ensures NextGap(b, last) == g
    decreases g - last
  {
    if last < g {
      NextGapIs(b - {last + 1}, last + 1, g);
    }
  }

  /** The reorder state between arrivals: every buffered envelope is filed under its own id,
      beyond the next expected one. */
  predicate Ordered(r: Receiver) {
    forall k | k in r.buffer :: k > r.lastReliableId + 1 && r.buffer[k].msgid == k
  }

  /** The reliable sequencing as a function of its state: an old id is dropped, an id past
      a gap is buffered, and the next expected id is delivered with the buffered run that
      follows it. The second component is what is delivered, in order. */
  ghost function ReliableArrival(r: Receiver, msg: OutMessage): (a: (Receiver, seq<OutMessage>))
    ensures a.0.lastReliableId == r.lastReliableId + |a.1|
    ensures a.0.lastUnreliableId == r.lastUnreliableId
    ensures Ordered(r) ==> Ordered(a.0)
    ensures Ordered(r) ==> forall i | 0 <= i < |a.1| :: a.1[i].msgid == r.lastReliableId + 1 + i
  {
    if msg.msgid <= r.lastReliableId then (r, [])
    else if msg.msgid > r.lastReliableId + 1 then (r.(buffer := r.buffer[msg.msgid := msg]), [])
    else
      var g := NextGap(r.buffer, msg.msgid);
      (r.(lastReliableId := g, buffer := Without(r.buffer, msg.msgid + 1, g)), [msg] + Run(r.buffer, msg.msgid + 1, g))
  }

  /** The arrivals `msgs`, one after the other: the final state and everything delivered. */
  ghost function ReliableArrivals(r: Receiver, msgs: seq<OutMessage>): (a: (Receiver, seq<OutMessage>))
    decreases |msgs|
  {
    if msgs == [] then (r, [])
    else
      var first := ReliableArrival(r, msgs[0]);
      var rest := ReliableArrivals(first.0, msgs[1..]);
      (rest.0, first.1 + rest.1)
  }

  /** However the envelopes arrive, those delivered carry the ids after the last one
      delivered before, consecutively, each once, and the state stays ordered. */
  lemma {:induction false} ReliableArrivalsInOrder(r: Receiver, msgs: seq<OutMessage>)
    requires Ordered(r)
    ensures Ordered(ReliableArrivals(r, msgs).0)
    ensures ReliableArrivals(r, msgs).0.lastReliableId == r.lastReliableId + |ReliableArrivals(r, msgs).1|
    ensures forall i | 0 <= i < |ReliableArrivals(r, msgs).1| ::
              ReliableArrivals(r, msgs).1[i].msgid == r.lastReliableId + 1 + i
    decreases |msgs|
  {
    if msgs != [] {
      var first := ReliableArrival(r, msgs[0]);
      ReliableArrivalsInOrder(first.0, msgs[1..]);
    }
  }

  /** The unreliable sequencing as a function of its state: an envelope is delivered when
      its id is above the last one accepted, which it then becomes. */
  function UnreliableArrival(r: Receiver, msg: OutMessage): (a: (Receiver, seq<OutMessage>))
    ensures a.0.lastUnreliableId >= r.lastUnreliableId
    ensures |a.1| <= 1 && (|a.1| == 1 <==> msg.msgid > r.lastUnreliableId)
    ensures a.0.lastReliableId == r.lastReliableId && a.0.buffer == r.buffer
  {
    if msg.msgid <= r.lastUnreliableId then (r, []) else (r.(lastUnreliableId := msg.msgid), [msg])
  }

  /** The unreliable arrivals `msgs`, one after the other. */
  function UnreliableArrivals(r: Receiver, msgs: seq<OutMessage>): (a: (Receiver, seq<OutMessage>))
    decreases |msgs|
  {
    if msgs == [] then (r, [])
    else
      var first := UnreliableArrival(r, msgs[0]);
      var rest := UnreliableArrivals(first.0, msgs[1..]);
      (rest.0, first.1 + rest.1)
  }

  /** The highest of `last` and the ids of `msgs`. */
  function MaxId(last: int, msgs: seq<OutMessage>): (m: int)
    ensures m >= last && forall i | 0 <= i < |msgs| :: msgs[i].msgid <= m
    decreases |msgs|
  {
    if msgs == [] then last
    else MaxId(if msgs[0].msgid > last then msgs[0].msgid else last, msgs[1..])
  }

  /** One counter for every unreliable envelope: the ids delivered strictly increase, all
      lie above the counter's start, and the counter ends at the highest id seen. */
  lemma {:induction false} UnreliableArrivalsIncrease(r: Receiver, msgs: seq<OutMessage>)
    ensures UnreliableArrivals(r, msgs).0.lastUnreliableId == MaxId(r.lastUnreliableId, msgs)
    ensures forall i | 0 <= i < |UnreliableArrivals(r, msgs).1| ::
              r.lastUnreliableId < UnreliableArrivals(r, msgs).1[i].msgid <= MaxId(r.lastUnreliableId, msgs)
    ensures forall i, j | 0 <= i < j < |UnreliableArrivals(r, msgs).1| ::
              UnreliableArrivals(r, msgs).1[i].msgid < UnreliableArrivals(r, msgs).1[j].msgid
    decreases |msgs|
  {
    if msgs != [] {
      var first := UnreliableArrival(r, msgs[0]);
      UnreliableArrivalsIncrease(first.0, msgs[1..]);
      var rest := UnreliableArrivals(first.0, msgs[1..]);
      assert UnreliableArrivals(r, msgs).1 == first.1 + rest.1;
      assert forall i | 0 <= i < |first.1| :: first.1[i].msgid == first.0.lastUnreliableId;
    }
  }

  /** A drain that handled `msg` and the buffered run after it, and stopped at a gap, did
      what the reliable sequencing function says. */
  lemma DeliveredIsArrival(r: Receiver, handled: seq<OutMessage>, msg: OutMessage,
                           r': Receiver, handled': seq<OutMessage>)
    requires msg.msgid == r.lastReliableId + 1 && msg.msgid <= r'.lastReliableId
    requires forall k | msg.msgid < k <= r'.lastReliableId :: k in r.buffer
    requires handled' == handled + [msg] + Run(r.buffer, msg.msgid + 1, r'.lastReliableId)
    requires r'.buffer == Without(r.buffer, msg.msgid + 1, r'.lastReliableId)
    requires r'.lastUnreliableId == r.lastUnreliableId
    requires r'.lastReliableId + 1 !in r'.buffer
    ensures r' == ReliableArrival(r, msg).0 && handled' == handled + ReliableArrival(r, msg).1
  {
    NextGapIs(r.buffer, msg.msgid, r'.lastReliableId);
  }

  /** The next expected envelope handled (from `s` to `t`), then the buffer drained (from
      `t` to `u`): the envelope and the run after it were delivered, and when the drain
      stopped at a gap this is what the sequencing function computes. */
  lemma InOrderThenDrain(s: Snapshot, t: Snapshot, u: Snapshot, msg: OutMessage)
    requires msg.msgid == s.receiver.lastReliableId + 1 && msg.msgid !in s.receiver.buffer
    requires t.receiver == s.receiver.(lastReliableId := msg.msgid, buffer := s.receiver.buffer - {msg.msgid})
    requires t.history.handled == s.history.handled + [msg]
    requires t.history.unreliable == s.history.unreliable && t.history.resets == s.history.resets
    requires t.sendWindow == s.sendWindow
    requires DrainedBetween(t, u)
    ensures msg.msgid <= u.receiver.lastReliableId
    ensures forall k | msg.msgid < k <= u.receiver.lastReliableId :: k in s.receiver.buffer
    ensures u.history.handled == s.history.handled + [msg] + Run(s.receiver.buffer, msg.msgid + 1, u.receiver.lastReliableId)
    ensures u.receiver.buffer == Without(s.receiver.buffer, msg.msgid + 1, u.receiver.lastReliableId)
    ensures u.receiver.lastUnreliableId == s.receiver.lastUnreliableId
    ensures u.history.unreliable == s.history.unreliable && u.history.resets == s.history.resets
    ensures u.sendWindow == s.sendWindow
    ensures u.receiver.lastReliableId + 1 !in u.receiver.buffer ==>
              && u.receiver == ReliableArrival(s.receiver, msg).0
              && u.history.handled == s.history.handled + ReliableArrival(s.receiver, msg).1
  {
    assert t.receiver.buffer == s.receiver.buffer;
    if u.receiver.lastReliableId + 1 !in u.receiver.buffer {
      DeliveredIsArrival(s.receiver, s.history.handled, msg, u.receiver, u.history.handled);
    }
  }

  /** What the drain of the reorder buffer did between the sequencing states `s` and `t`:
      the run of buffered envelopes that followed the last reliable id without a gap,
      handled in id order and taken out of the buffer; nothing else of the sequencing
      state moved. */
  ghost predicate DrainedBetween(s: Snapshot, t: Snapshot) {
    && s.receiver.lastReliableId <= t.receiver.lastReliableId
    && (forall k | s.receiver.lastReliableId < k <= t.receiver.lastReliableId :: k in s.receiver.buffer)
    && t.history.handled == s.history.handled + Run(s.receiver.buffer, s.receiver.lastReliableId + 1,
                                                    t.receiver.lastReliableId)
    && t.receiver.buffer == Without(s.receiver.buffer, s.receiver.lastReliableId + 1, t.receiver.lastReliableId)
    && t.receiver.lastUnreliableId == s.receiver.lastUnreliableId
    && t.history.unreliable == s.history.unreliable && t.history.resets == s.history.resets
    && t.sendWindow == s.sendWindow
  }

  /** Handling the buffered envelope with the next expected id extends the drain by one
      step and shrinks the buffer. */
  lemma DrainAdvance(s: Snapshot, t: Snapshot, u: Snapshot)
    requires DrainedBetween(s, t)
    requires t.receiver.lastReliableId + 1 in t.receiver.buffer
    requires u.receiver == t.receiver.(lastReliableId := t.receiver.lastReliableId + 1,
                                       buffer := t.receiver.buffer - {t.receiver.lastReliableId + 1})
    requires u.history.handled == t.history.handled + [t.receiver.buffer[t.receiver.lastReliableId + 1]]
    requires u.history.unreliable == t.history.unreliable && u.history.resets == t.history.resets
    requires u.sendWindow == t.sendWindow
    ensures DrainedBetween(s, u)
    ensures |u.receiver.buffer| < |t.receiver.buffer|
  {
    var key := t.receiver.lastReliableId + 1;
    assert forall k | s.receiver.lastReliableId < k <= key :: k in s.receiver.buffer;
    DrainStep(s.receiver.buffer, s.receiver.lastReliableId + 1, key);
    assert u.receiver.buffer.Keys == t.receiver.buffer.Keys - {key};
  }

  /** mm_time, mm_latency and mm_clock_last_update. */
  datatype Clock = Clock(mmTime: int, mmLatency: int, lastUpdate: int)
  {
    /** getMmTime() at monotonic time `now`: the server's match time at the last sync,
        advanced by the local time elapsed since. */
    function MmTime(now: int): (t: int)
      ensures now == lastUpdate ==> t == mmTime
    {
      now - lastUpdate + mmTime
    }
  }

  /** The match clock runs at the speed of the monotonic clock between two syncs. */
  lemma MmTimeAdvances(c: Clock, now: int, d: int)
    ensures c.MmTime(now + d) == c.MmTime(now) + d
  {
  }

  /** last_msgid, last_ackid and inmsg_queue: reliable envelopes sent and not yet
      acknowledged. */
  datatype SendWindow = SendWindow(lastMsgid: int, lastAckid: int, queue: map<int, InMessage>)

  /** last_reliable_id, last_unreliable_id and outmsg_queue: reliable envelopes received
      ahead of a gap. */
  datatype Receiver = Receiver(lastReliableId: int, lastUnreliableId: int, buffer: map<int, OutMessage>)

  /** ping_listeners, room_listeners, rcv_message_listeners and snd_message_listeners,
      with the ping timeout tasks posted and not yet run, by ping id. */
  datatype Registries = Registries(ping: map<int, PingListener>, pingTimeouts: multiset<int>,
                                   room: map<string, Option<RoomListener>>,
                                   rcv: map<string, Option<MessageReceivedListener>>,
                                   snd: map<int, MessageSentListener>)

  /** What the session did with the envelopes it received: every envelope handed to
      handleOutMessage, the ids of the reliable and of the unreliable ones handled, and
      how many times the session was forgotten. */
  datatype History = History(handled: seq<OutMessage>, reliable: seq<int>, unreliable: seq<int>,
                             resets: nat)

  predicate Increasing(s: seq<int>) {
    forall i, j | 0 <= i < j < |s| :: s[i] < s[j]
  }

  /** The entries of `q` whose keys lie outside lo..hi. */
  function Without<V>(q: map<int, V>, lo: int, hi: int): map<int, V> {
    map k | k in q && !(lo <= k <= hi) :: q[k]
  }

  /** The buffered envelopes with ids lo..hi, in id order. */
  ghost function Run(q: map<int, OutMessage>, lo: int, hi: int): (r: seq<OutMessage>)
    requires forall k | lo <= k <= hi :: k in q
    ensures |r| == if hi < lo then 0 else hi - lo + 1
    ensures forall i | 0 <= i < |r| :: r[i] == q[lo + i]
    decreases hi - lo
  {
    if hi < lo then [] else Run(q, lo, hi - 1) + [q[hi]]
  }

  /** One more step of the drain: the run grows by the envelope filed under `hi`, and
      that envelope leaves what remains of the buffer. */
  lemma DrainStep(b: map<int, OutMessage>, lo: int, hi: int)
    requires lo <= hi
    requires forall k | lo <= k <= hi :: k in b
    ensures Run(b, lo, hi) == Run(b, lo, hi - 1) + [b[hi]]
    ensures Without(b, lo, hi - 1) - {hi} == Without(b, lo, hi)
  {
    assert (Without(b, lo, hi - 1) - {hi}).Keys == Without(b, lo, hi).Keys;
  }

  /** Three retries at most; a disconnected session holds no connection; connection
      numbers are handed out in increasing order. */
  ghost predicate LinkOk(s: Settings, l: Link) {
    && s.maxRetries == 3 && 0 <= l.retries <= s.maxRetries
    && (l.status == DISCONNECTED ==> l.connection.None?)
    && (l.connection.Some? ==> l.connection.value < l.nextConnection)
  }

  /** Every envelope of the send window is filed under its own id, an id already used. */
  ghost predicate SendWindowOk(w: SendWindow) {
    && 0 <= w.lastMsgid
    && forall k | k in w.queue :: 1 <= k <= w.lastMsgid && w.queue[k].msgid == k
  }

  /** The reliable ids handled are exactly 1..lastReliableId, in order; every buffered
      envelope is filed under its own id, beyond the last one handled; the unreliable ids
      handled increase and never exceed the last one accepted. */
  ghost predicate ReceiverOk(r: Receiver, h: History) {
    && 0 <= r.lastReliableId && |h.reliable| == r.lastReliableId
    && (forall i | 0 <= i < |h.reliable| :: h.reliable[i] == i + 1)
    && (forall k | k in r.buffer :: k > r.lastReliableId && r.buffer[k].msgid == k)
    && 0 <= r.lastUnreliableId && Increasing(h.unreliable)
    && forall i | 0 <= i < |h.unreliable| :: 0 < h.unreliable[i] <= r.lastUnreliableId
  }

  /** Whether `room` is the joined room the push `roomId` is about. */
  predicate InRoom(room: Room?, roomId: string) {
    room != null && room.IsSameRoom(roomId)
  }

  /** The code a RoomLeft (`left`) or RoomClosed push reports; other statuses report
      nothing. */
  function RoomGoneCode(left: bool, s: Status): (c: Option<int>)
    ensures c.Some? ==> s == INTERNAL_ERROR || s == (if left then SUCCESS else ROOM_CLOSED)
                        || (left && s == ROOM_NOT_JOINED)
  {
    match s
    case INTERNAL_ERROR => Some(STATUS_INTERNAL_ERROR)
    case SUCCESS => if left then Some(STATUS_SUCCESS) else None
    case ROOM_NOT_JOINED => if left then Some(STATUS_SUCCESS) else None
    case ROOM_CLOSED => if left then None else Some(STATUS_ROOM_CLOSED)
    case _ => None
  }

  function RoomGoneEvent(left: bool, status: int, roomId: string): Event {
    if left then OnRoomLeft(status, roomId) else OnRoomClosed(status, roomId)
  }

  /** The code a GameStateChanged push that failed reports. */
  function MatchFailureCode(s: Status): (c: Option<int>)
    ensures c.Some? <==> s == ROOM_NOT_JOINED || s == BAD_STATE
    ensures c.Some? ==> c.value != STATUS_SUCCESS
  {
    match s
    case ROOM_NOT_JOINED => Some(STATUS_ROOM_NOT_JOINED)
    case BAD_STATE => Some(STATUS_BAD_STATE)
    case _ => None
  }

  /** The status the public send methods report for a write. */
  function WriteStatus(w: WriteResult): int {
    match w
    case NullConnection => STATUS_INTERNAL_ERROR
    case WriteFailed => STATUS_NETWORK_ERROR
    case Written => STATUS_SUCCESS
  }

  /** `w` writes every envelope of the send window `q` on connection `c`, with the
      acknowledgement `ack`, once each and nothing else. */
  ghost predicate IsReplay(w: seq<Transmission>, q: map<int, InMessage>, ack: int, c: nat) {
    && (forall i | 0 <= i < |w| ::
          w[i].TcpSend? && w[i].envelope.msgid in q && w[i] == TcpSend(c, q[w[i].envelope.msgid].(ackid := ack)))
    && (forall i, j | 0 <= i < j < |w| :: w[i].envelope.msgid != w[j].envelope.msgid)
    && (forall k | k in q :: TcpSend(c, q[k].(ackid := ack)) in w)
  }

  /** The writes of the replay after Connected. The source walks the hash map's values;
      this walk takes the ids in increasing order, which is one of the orders it may
      have. */
  method ReplayWindow(q: map<int, InMessage>, ack: int, c: nat, lastMsgid: int) returns (w: seq<Transmission>)
    requires forall k | k in q :: 1 <= k <= lastMsgid && q[k].msgid == k
    ensures IsReplay(w, q, ack, c)
  {
    w := [];
    var id := 1;
    while id <= lastMsgid
      invariant forall i | 0 <= i < |w| ::
                  w[i].TcpSend? && w[i].envelope.msgid in q && w[i].envelope.msgid < id
                  && w[i] == TcpSend(c, q[w[i].envelope.msgid].(ackid := ack))
      invariant forall i, j | 0 <= i < j < |w| :: w[i].envelope.msgid < w[j].envelope.msgid
      invariant forall k | k in q && k < id :: TcpSend(c, q[k].(ackid := ack)) in w
      decreases lastMsgid - id
    {
      if id in q {
        w := w + [TcpSend(c, q[id].(ackid := ack))];
      }
      id := id + 1;
    }
  }

  class Session {
    const playerId: string
    const gameId: string
    const accessToken: string
    /** The protobuf encoding of an envelope; its bytes are opaque here. */
    const encode: InMessage -> seq<bv8>

    var settings: Settings
    var link: Link
    var udpConnection: UdpConnection?
    var clock: Clock
    var sendWindow: SendWindow
    var receiver: Receiver
    var registries: Registries
    var currentRoom: Room?

    /** The callbacks posted to the main thread, in order. */
    var events: seq<Callback>
    /** The envelopes handed to the transports, in order. */
    var wire: seq<Transmission>
    /** The worker thread died of a NullPointerException: a write on a null connection. */
    var crashed: bool

    ghost var history: History

    /** The invariant every handler keeps, even halfway through a drain. */
    ghost predicate Core()
      reads this, currentRoom
    {
      && LinkOk(settings, link) && SendWindowOk(sendWindow) && ReceiverOk(receiver, history)
      && (currentRoom != null ==> currentRoom.Valid())
    }

    /** The invariant between input events: a retry budget not yet spent, and a reorder
        buffer whose every key lies beyond the next expected id. */
    ghost predicate Valid()
      reads this, currentRoom
    {
      && Core() && link.retries < settings.maxRetries
      && (!crashed ==> receiver.lastReliableId + 1 !in receiver.buffer)
    }

    /** The state a disconnection or a closed session leaves: no connection and no session,
        all counters zero, both queues and every registry empty, no room. */
    ghost predicate IsReset()
      reads this
    {
      && link.status == DISCONNECTED && link.connection.None? && udpConnection == null
      && link.sessionId.None? && link.sessionInfo.None? && currentRoom == null
      && sendWindow == SendWindow(0, 0, map[]) && receiver == Receiver(0, 0, map[])
      && registries.ping == map[] && registries.room == map[]
      && registries.rcv == map[] && registries.snd == map[]
      && history.reliable == [] && history.unreliable == []
    }

    /** Nothing but the send window, the registries, the room and the outputs changed. */
    twostate predicate CoreKept()
      reads this
    {
      && settings == old(settings) && link == old(link) && udpConnection == old(udpConnection)
      && clock == old(clock) && receiver == old(receiver) && history == old(history)
    }

    /** Nothing but the registries, the room and the callbacks changed. */
    twostate predicate EngineKept()
      reads this
    {
      CoreKept() && sendWindow == old(sendWindow) && wire == old(wire) && crashed == old(crashed)
    }

    /** Nothing but the callbacks changed. */
    twostate predicate AllKept()
      reads this
    {
      EngineKept() && registries == old(registries) && currentRoom == old(currentRoom)
    }

    /** The Connect envelope doConnect opens a connection with. */
    function ConnectEnvelope(): (e: InMessage)
      reads this
      ensures e.msgid == 0 && e.ackid == receiver.lastReliableId && e.isReliable
      ensures e.body.Connect? && e.body.sessionId == link.sessionId
      ensures e.body.clientId == playerId && e.body.gameId == gameId
    {
      InMessage(0, receiver.lastReliableId, true, Proto.Connect(playerId, gameId, accessToken, link.sessionId))
    }

    /** What a write of one envelope on the best channel reports: the UDP channel when it
        is connected, the TCP connection otherwise. */
    function BestChannelResult(env: Environment): WriteResult
      reads this, udpConnection
    {
      if udpConnection != null && udpConnection.isConnected then
        (if env.writesSucceed then Written else WriteFailed)
      else if link.connection.None? then NullConnection
      else if env.writesSucceed then Written else WriteFailed
    }

    /** What writing `inmsg` on the best channel left behind. */
    twostate predicate FastSent(inmsg: InMessage, env: Environment)
      reads this, udpConnection
    {
      && udpConnection == old(udpConnection)
      && if old(udpConnection) != null && old(udpConnection.isConnected) then
           && wire == old(wire) + [UdpSend(inmsg)]
           && udpConnection.sent == old(udpConnection.sent) + [Frame(encode(inmsg))]
           && udpConnection.isConnected == env.writesSucceed
           && udpConnection.running == old(udpConnection.running)
           && udpConnection.staleHeader == old(udpConnection.staleHeader)
           && udpConnection.delivered == old(udpConnection.delivered)
         else
           && wire == old(wire) + (if old(link.connection).Some? then [TcpSend(old(link.connection).value, inmsg)] else [])
           && (udpConnection != null ==> unchanged(udpConnection))
    }

    /** What a stamped reliable send left behind: on success the envelope joins the send
        window under its id; on failure the window is as it was and `networkError` is
        posted; with no connection the worker thread dies. */
    twostate predicate Stamped(inmsg: InMessage, networkError: seq<Callback>, env: Environment)
      reads this
    {
      if old(link.connection).None? then
        crashed && wire == old(wire) && events == old(events) && sendWindow == old(sendWindow)
      else
        && !crashed
        && wire == old(wire) + [TcpSend(old(link.connection).value, inmsg)]
        && if env.writesSucceed then
             && sendWindow == old(sendWindow).(lastMsgid := inmsg.msgid,
                                               queue := old(sendWindow.queue)[inmsg.msgid := inmsg])
             && events == old(events)
           else
             sendWindow == old(sendWindow) && events == old(events) + networkError
    }

    /** doConnect() opened a new connection, the link being `before` when it started. */
    twostate predicate Dialled(before: Link)
      reads this
    {
      && link == before.(status := CONNECTING, connection := Some(before.nextConnection),
                         nextConnection := before.nextConnection + 1)
      && udpConnection == null
      && wire == old(wire) + [TcpConnect(before.nextConnection, ConnectEnvelope())]
    }

    /** doConnect() found the retry budget spent, the link being `before` when it started. */
    twostate predicate GaveUp(before: Link)
      reads this
    {
      && link == before.(retries := 0) && udpConnection == old(udpConnection) && wire == old(wire)
      && events == old(events) + Notify(settings.connectionListener, OnConnectionFailed(STATUS_NETWORK_ERROR))
    }

    /** A lost connection was dropped: no transport, no session info, no pending pong. */
    twostate predicate Dropped()
      reads this
    {
      && udpConnection == null && registries == old(registries).(ping := map[])
      && link == old(link).(status := DISCONNECTED, connection := None, sessionInfo := None,
                            retries := link.retries, pendingReconnects := link.pendingReconnects)
    }

    /** A lost connection is retried after a delay when the reconnect flag is set, and
        reported as failed otherwise. */
    twostate predicate RetriedOrFailed()
      reads this
    {
      if settings.reconnectFlag then
        && link.retries == old(link.retries) && link.pendingReconnects == old(link.pendingReconnects) + 1
        && events == old(events) + Notify(settings.connectionListener, OnReconnecting(STATUS_NETWORK_ERROR))
      else
        && link.retries == 0 && link.pendingReconnects == old(link.pendingReconnects)
        && events == old(events) + Notify(settings.connectionListener, OnConnectionFailed(STATUS_NETWORK_ERROR))
    }

    /** initialize(host, port): disconnected, no session, reconnection on with a one-second
        delay and three retries. The player's identity comes from the SDK. */
    constructor (host: string, port: int, playerId: string, gameId: string,
                 accessToken: string, encode: InMessage -> seq<bv8>)
      ensures Valid() && !crashed && IsReset()
      ensures this.playerId == playerId && this.gameId == gameId && this.accessToken == accessToken
      ensures settings == Settings(None, true, 1000, 3)
      ensures link == Link(host, port, DISCONNECTED, None, 0, 0, 0, None, None)
      ensures registries == Registries(map[], multiset{}, map[], map[], map[])
      ensures events == [] && wire == [] && history == History([], [], [], 0)
    {
      this.playerId := playerId;
      this.gameId := gameId;
      this.accessToken := accessToken;
      this.encode := encode;
      settings := Settings(None, true, 1000, 3);
      link := Link(host, port, DISCONNECTED, None, 0, 0, 0, None, None);
      udpConnection := null;
      clock := Clock(0, 0, 0);
      sendWindow := SendWindow(0, 0, map[]);
      receiver := Receiver(0, 0, map[]);
      registries := Registries(map[], multiset{}, map[], map[], map[]);
      currentRoom := null;
      events := [];
      wire := [];
      crashed := false;
      history := History([], [], [], 0);
    }

    /* ---------------------------------------------------------------- settings */

    method SetReconnectFlag(flag: bool)
      requires Valid()
      modifies this
      ensures Valid()
      ensures settings == old(settings).(reconnectFlag := flag)
      ensures link == old(link) && clock == old(clock) && sendWindow == old(sendWindow)
      ensures receiver == old(receiver) && registries == old(registries) && events == old(events)
      ensures udpConnection == old(udpConnection) && currentRoom == old(currentRoom)
      ensures history == old(history) && wire == old(wire) && crashed == old(crashed)
    {
      settings := settings.(reconnectFlag := flag);
    }

    method SetReconnectTimeout(timeout: Int32)
      requires Valid()
      modifies this
      ensures Valid()
      ensures settings == old(settings).(reconnectTimeout := timeout)
      ensures link == old(link) && clock == old(clock) && sendWindow == old(sendWindow)
      ensures receiver == old(receiver) && registries == old(registries) && events == old(events)
      ensures udpConnection == old(udpConnection) && currentRoom == old(currentRoom)
      ensures history == old(history) && wire == old(wire) && crashed == old(crashed)
    {
      settings := settings.(reconnectTimeout := timeout);
    }

    /** setMaxRetries(n) stores 3 whatever `n` is. */
    method SetMaxRetries(n: Int32)
      requires Valid()
      modifies this
      ensures Valid()
      ensures settings == old(settings).(maxRetries := 3)
      ensures link == old(link) && clock == old(clock) && sendWindow == old(sendWindow)
      ensures receiver == old(receiver) && registries == old(registries) && events == old(events)
      ensures udpConnection == old(udpConnection) && currentRoom == old(currentRoom)
      ensures history == old(history) && wire == old(wire) && crashed == old(crashed)
    {
      settings := settings.(maxRetries := 3);
    }

    /* ---------------------------------------------------------------- transports */

    /** connection.sendMessage(inmsg); on a null connection the call throws a
        NullPointerException, reported here as NullConnection. */
    method TcpWrite(inmsg: InMessage, env: Environment) returns (r: WriteResult)
      modifies this
      ensures r == if link.connection.None? then NullConnection
                   else if env.writesSucceed then Written else WriteFailed
      ensures wire == old(wire) + (if link.connection.Some? then [TcpSend(link.connection.value, inmsg)] else [])
      ensures CoreKept() && sendWindow == old(sendWindow) && registries == old(registries)
      ensures currentRoom == old(currentRoom) && events == old(events) && crashed == old(crashed)
    {
      if link.connection.None? {
        return NullConnection;
      }
      wire := wire + [TcpSend(link.connection.value, inmsg)];
      r := if env.writesSucceed then Written else WriteFailed;
    }

    /** The write on the best channel shared by sendPing, sendUnreliableMessage and the
        Ping handler: UDP when it is connected, the TCP connection otherwise. */
    method FastWrite(inmsg: InMessage, env: Environment) returns (r: WriteResult)
      modifies this, udpConnection
      ensures r == old(BestChannelResult(env))
      ensures FastSent(inmsg, env)
      ensures CoreKept() && sendWindow == old(sendWindow) && registries == old(registries)
      ensures currentRoom == old(currentRoom) && events == old(events) && crashed == old(crashed)
    {
      if udpConnection != null && udpConnection.isConnected {
        var ok := udpConnection.SendMessage(encode(inmsg), env.writesSucceed);
        wire := wire + [UdpSend(inmsg)];
        r := if ok then Written else WriteFailed;
      } else {
        r := TcpWrite(inmsg, env);
      }
    }

    /** udp_connection.disconnect(); udp_connection = null. */
    method TearDownUdp()
      modifies this, udpConnection
      ensures udpConnection == null
      ensures old(udpConnection) != null ==> !old(udpConnection).running
      ensures settings == old(settings) && link == old(link) && clock == old(clock)
      ensures sendWindow == old(sendWindow) && receiver == old(receiver) && history == old(history)
      ensures registries == old(registries) && currentRoom == old(currentRoom)
      ensures events == old(events) && wire == old(wire) && crashed == old(crashed)
    {
      if udpConnection != null {
        udpConnection.Disconnect();
        udpConnection := null;
      }
    }

    /** The stamping of every reliable request: the envelope carries the next id and
        acknowledges the last reliable id received. */
    method SendRequest(body: Request, networkError: seq<Callback>, env: Environment)
      requires Valid() && !crashed
      modifies this
      ensures Valid()
      ensures Stamped(InMessage(old(sendWindow.lastMsgid) + 1, old(receiver.lastReliableId), true, body),
                      networkError, env)
      ensures CoreKept() && registries == old(registries) && currentRoom == old(currentRoom)
    {
      var inmsg := InMessage(sendWindow.lastMsgid + 1, receiver.lastReliableId, true, body);
      var r := TcpWrite(inmsg, env);
      match r
      case NullConnection =>
        crashed := true;
      case WriteFailed =>
        events := events + networkError;
      case Written =>
        sendWindow := sendWindow.(lastMsgid := inmsg.msgid, queue := sendWindow.queue[inmsg.msgid := inmsg]);
    }

    /* ---------------------------------------------------------------- connection */

    /** doConnect(): gives up once the retry budget is spent, else opens a new connection
        whose first envelope is Connect. */
    method DoConnect()
      requires Core() && !crashed
      modifies this, udpConnection
      ensures Core() && !crashed && link.retries < settings.maxRetries
      ensures old(link.retries) >= settings.maxRetries ==>
                && GaveUp(old(link))
                && (old(udpConnection) != null ==> unchanged(old(udpConnection)))
      ensures old(link.retries) < settings.maxRetries ==>
                && Dialled(old(link)) && events == old(events)
                && (old(udpConnection) != null ==> !old(udpConnection).running)
      ensures settings == old(settings) && clock == old(clock) && sendWindow == old(sendWindow)
      ensures receiver == old(receiver) && history == old(history)
      ensures registries == old(registries) && currentRoom == old(currentRoom)
    {
      if link.retries >= settings.maxRetries {
        link := link.(retries := 0);
        events := events + Notify(settings.connectionListener, OnConnectionFailed(STATUS_NETWORK_ERROR));
        return;
      }
      TearDownUdp();
      var c := link.nextConnection;
      link := link.(status := CONNECTING, connection := Some(c), nextConnection := c + 1);
      wire := wire + [TcpConnect(c, ConnectEnvelope())];
    }

    /** connect(listener): a null listener is refused; otherwise it is kept for later,
        then doConnect(). */
    method Connect(listener: Option<ConnectionListener>) returns (r: Outcome<()>)
      requires Valid() && !crashed
      modifies this, udpConnection
      ensures Valid() && !crashed
      ensures listener.None? ==> r == Thrown(IllegalArgumentException) && unchanged(this)
      ensures listener.Some? ==> r.Returned? && Dialled(old(link))
      ensures listener.Some? ==> settings == old(settings).(connectionListener := listener)
      ensures listener.None? ==> settings == old(settings)
      ensures events == old(events) && clock == old(clock) && sendWindow == old(sendWindow)
      ensures receiver == old(receiver) && history == old(history)
      ensures registries == old(registries) && currentRoom == old(currentRoom)
    {
      if listener.None? {
        return Thrown(IllegalArgumentException);
      }
      settings := settings.(connectionListener := listener);
      DoConnect();
      r := Returned(());
    }

    /** reconnect(): refused while no connection listener was ever given. */
    method Reconnect() returns (r: Outcome<()>)
      requires Valid() && !crashed
      modifies this, udpConnection
      ensures Valid() && !crashed
      ensures old(settings.connectionListener).None? ==>
                r == Thrown(IllegalArgumentException) && unchanged(this)
      ensures old(settings.connectionListener).Some? ==> r.Returned? && Dialled(old(link))
      ensures settings == old(settings) && events == old(events) && clock == old(clock)
      ensures sendWindow == old(sendWindow) && receiver == old(receiver) && history == old(history)
      ensures registries == old(registries) && currentRoom == old(currentRoom)
    {
      if settings.connectionListener.None? {
        return Thrown(IllegalArgumentException);
      }
      DoConnect();
      r := Returned(());
    }

    /** The delayed task of reconnectSession(): a new attempt, counted against the retry
        budget, unless a connection was opened meanwhile. */
    method ReconnectTimerFired()
      requires Valid() && !crashed && link.pendingReconnects > 0
      modifies this, udpConnection
      ensures Valid() && !crashed
      ensures old(link.connection).Some? ==>
                && link == old(link).(pendingReconnects := old(link.pendingReconnects) - 1)
                && udpConnection == old(udpConnection) && wire == old(wire) && events == old(events)
      ensures old(link.connection).None? ==>
                var before := old(link).(retries := old(link.retries) + 1,
                                         pendingReconnects := old(link.pendingReconnects) - 1);
                if before.retries >= settings.maxRetries then GaveUp(before)
                else Dialled(before) && events == old(events)
      ensures settings == old(settings) && clock == old(clock) && sendWindow == old(sendWindow)
      ensures receiver == old(receiver) && history == old(history)
      ensures registries == old(registries) && currentRoom == old(currentRoom)
    {
      link := link.(pendingReconnects := link.pendingReconnects - 1);
      if link.connection.None? {
        link := link.(retries := link.retries + 1);
        DoConnect();
      }
    }

    /** The part of a disconnection or a closed session that forgets the session. */
    method ResetSession()
      requires Core()
      modifies this
      ensures Core() && IsReset()
      ensures link == old(link).Forgotten()
      ensures history == old(history).(reliable := [], unreliable := [], resets := old(history.resets) + 1)
      ensures registries.pingTimeouts == old(registries.pingTimeouts)
      ensures settings == old(settings) && clock == old(clock)
      ensures events == old(events) && wire == old(wire) && crashed == old(crashed)
    {
      link := link.Forgotten();
      udpConnection := null;
      sendWindow := SendWindow(0, 0, map[]);
      receiver := Receiver(0, 0, map[]);
      currentRoom := null;
      registries := registries.(ping := map[], room := map[], rcv := map[], snd := map[]);
      history := history.(reliable := [], unreliable := [], resets := history.resets + 1);
    }

    /** doDisconnect(): tells a connected server goodbye, then forgets the session; the
        retry count survives. */
    method DoDisconnect()
      requires Valid() && !crashed
      modifies this, udpConnection
      ensures Valid()
      ensures old(udpConnection) != null ==> !old(udpConnection).running
      ensures old(link.status) == CONNECTED && old(link.connection).None? ==>
                && crashed && udpConnection == null && link == old(link)
                && sendWindow == old(sendWindow) && receiver == old(receiver) && history == old(history)
                && registries == old(registries) && currentRoom == old(currentRoom) && wire == old(wire)
      ensures !(old(link.status) == CONNECTED && old(link.connection).None?) ==>
                && !crashed && IsReset() && link == old(link).Forgotten()
                && history == old(history).(reliable := [], unreliable := [], resets := old(history.resets) + 1)
                && registries.pingTimeouts == old(registries.pingTimeouts)
                && wire == old(wire) + (if old(link.status) == CONNECTED
                                        then [TcpDisconnect(old(link.connection).value, InMessage(0, 0, true, Disconnect))]
                                        else [])
      ensures settings == old(settings) && clock == old(clock) && events == old(events)
    {
      TearDownUdp();
      if link.status == CONNECTED {
        if link.connection.None? {
          crashed := true;
          return;
        }
        wire := wire + [TcpDisconnect(link.connection.value, InMessage(0, 0, true, Disconnect))];
      }
      ResetSession();
    }

    /* ---------------------------------------------------------------- requests */

    /** sendPing(listener, timeout): an unreliable Ping whose id is the match clock, on the
        best channel; the timeout task is pending once the ping is out. */
    method SendPing(listener: PingListener, env: Environment)
      requires Valid() && !crashed
      modifies this, udpConnection
      ensures Valid()
      ensures old(link.status) != CONNECTED ==>
                && AllKept() && events == old(events) + [Callback(listener, OnPang)]
                && (old(udpConnection) != null ==> unchanged(old(udpConnection)))
      ensures old(link.status) == CONNECTED ==>
                var id := ToInt(old(clock.MmTime(env.now)));
                && FastSent(InMessage(id, old(receiver.lastReliableId), false, Ping(id, id)), env)
                && match old(BestChannelResult(env))
                   case NullConnection => crashed && registries == old(registries) && events == old(events)
                   case WriteFailed =>
                     && !crashed && registries == old(registries)
                     && events == old(events) + [Callback(listener, OnPang)]
                   case Written =>
                     && !crashed && events == old(events)
                     && registries == old(registries).(ping := old(registries.ping)[id := listener],
                                                       pingTimeouts := old(registries.pingTimeouts) + multiset{id})
      ensures CoreKept() && sendWindow == old(sendWindow) && currentRoom == old(currentRoom)
    {
      if link.status != CONNECTED {
        events := events + [Callback(listener, OnPang)];
        return;
      }
      var id := ToInt(clock.MmTime(env.now));
      var r := FastWrite(InMessage(id, receiver.lastReliableId, false, Ping(id, id)), env);
      match r
      case NullConnection =>
        crashed := true;
      case WriteFailed =>
        events := events + [Callback(listener, OnPang)];
      case Written =>
        registries := registries.(ping := registries.ping[id := listener],
                                  pingTimeouts := registries.pingTimeouts + multiset{id});
    }

    /** The delayed task of sendPing: the listener, if no pong took it away, hears Pang. */
    method PingTimeoutFired(id: int)
      requires Valid() && !crashed && id in registries.pingTimeouts
      modifies this
      ensures Valid() && !crashed
      ensures registries == old(registries).(ping := old(registries.ping) - {id},
                                             pingTimeouts := old(registries.pingTimeouts) - multiset{id})
      ensures events == old(events) + Notify(Lookup(old(registries.ping), id), OnPang)
      ensures EngineKept() && currentRoom == old(currentRoom)
    {
      var l := Lookup(registries.ping, id);
      registries := registries.(ping := registries.ping - {id}, pingTimeouts := registries.pingTimeouts - multiset{id});
      events := events + Notify(l, OnPang);
    }

    /** sendCreateRoom(id, config, room_props, participant_props): the room's listeners
        are registered before the CreateRoom request is sent, and stay registered if the
        write fails. */
    method SendCreateRoom(id: string, config: RoomConfig, roomProps: Option<map<string, Option<Value>>>,
                          participantProps: Option<map<string, Option<Value>>>, env: Environment)
      requires Valid() && !crashed
      modifies this
      ensures Valid()
      ensures old(link.status) != CONNECTED ==>
                && AllKept()
                && events == old(events) + Notify(config.roomListener, OnRoomCreated(STATUS_SESSION_NOT_CONNECTED, null))
      ensures old(link.status) == CONNECTED ==>
                && registries == old(registries).(room := old(registries.room)[id := config.roomListener],
                                                  rcv := old(registries.rcv)[id := config.messageListener])
                && Stamped(InMessage(old(sendWindow.lastMsgid) + 1, old(receiver.lastReliableId), true,
                                     CreateRoom(id, JavaMapToProtoMap(Some(Boxed(config.roomConfig.entries))),
                                                JavaMapToProtoMap(roomProps), JavaMapToProtoMap(participantProps))),
                           Notify(config.roomListener, OnRoomCreated(STATUS_NETWORK_ERROR, null)), env)
      ensures CoreKept() && currentRoom == old(currentRoom)
    {
      if link.status != CONNECTED {
        events := events + Notify(config.GetRoomListener(), OnRoomCreated(STATUS_SESSION_NOT_CONNECTED, null));
        return;
      }
      registries := registries.(room := registries.room[id := config.GetRoomListener()],
                                rcv := registries.rcv[id := config.GetMessageListener()]);
      var body := CreateRoom(id, JavaMapToProtoMap(Some(Boxed(config.GetRoomConfig().entries))),
                             JavaMapToProtoMap(roomProps), JavaMapToProtoMap(participantProps));
      SendRequest(body, Notify(config.GetRoomListener(), OnRoomCreated(STATUS_NETWORK_ERROR, null)), env);
    }

    /** sendJoinRoom(id, room_listener, message_listener, participant_props). */
    method SendJoinRoom(id: string, roomListener: RoomListener, messageListener: MessageReceivedListener,
                        participantProps: Option<map<string, Option<Value>>>, env: Environment)
      requires Valid() && !crashed
      modifies this
      ensures Valid()
      ensures old(link.status) != CONNECTED ==>
                && AllKept()
                && events == old(events) + [Callback(roomListener, OnRoomJoined(STATUS_SESSION_NOT_CONNECTED, null))]
      ensures old(link.status) == CONNECTED ==>
                && registries == old(registries).(room := old(registries.room)[id := Some(roomListener)],
                                                  rcv := old(registries.rcv)[id := Some(messageListener)])
                && Stamped(InMessage(old(sendWindow.lastMsgid) + 1, old(receiver.lastReliableId), true,
                                     JoinRoom(id, JavaMapToProtoMap(participantProps))),
                           [Callback(roomListener, OnRoomJoined(STATUS_NETWORK_ERROR, null))], env)
      ensures CoreKept() && currentRoom == old(currentRoom)
    {
      if link.status != CONNECTED {
        events := events + [Callback(roomListener, OnRoomJoined(STATUS_SESSION_NOT_CONNECTED, null))];
        return;
      }
      registries := registries.(room := registries.room[id := Some(roomListener)],
                                rcv := registries.rcv[id := Some(messageListener)]);
      SendRequest(JoinRoom(id, JavaMapToProtoMap(participantProps)),
                  [Callback(roomListener, OnRoomJoined(STATUS_NETWORK_ERROR, null))], env);
    }

    /** sendLeaveRoom(room_id, room_listener). */
    method SendLeaveRoom(roomId: string, listener: Option<RoomListener>, env: Environment)
      requires Valid() && !crashed
      modifies this
      ensures Valid()
      ensures old(link.status) != CONNECTED ==>
                AllKept() && events == old(events) + Notify(listener, OnRoomLeft(STATUS_SESSION_NOT_CONNECTED, roomId))
      ensures old(link.status) == CONNECTED ==>
                Stamped(InMessage(old(sendWindow.lastMsgid) + 1, old(receiver.lastReliableId), true, LeaveRoom(roomId)),
                        Notify(listener, OnRoomLeft(STATUS_NETWORK_ERROR, roomId)), env)
      ensures CoreKept() && registries == old(registries) && currentRoom == old(currentRoom)
    {
      if link.status != CONNECTED {
        events := events + Notify(listener, OnRoomLeft(STATUS_SESSION_NOT_CONNECTED, roomId));
        return;
      }
      SendRequest(LeaveRoom(roomId), Notify(listener, OnRoomLeft(STATUS_NETWORK_ERROR, roomId)), env);
    }

    /** sendStartMatch, sendStopMatch and sendResetMatch(room, room_listener). */
    method SendMatchCommand(command: MatchCommand, room: Room, listener: Option<RoomListener>, env: Environment)
      requires Valid() && !crashed
      modifies this
      ensures Valid()
      ensures old(link.status) != CONNECTED ==>
                && AllKept()
                && events == old(events) + Notify(listener, OnMatchStateChanged(STATUS_SESSION_NOT_CONNECTED, room, UNKNOWN))
      ensures old(link.status) == CONNECTED ==>
                Stamped(InMessage(old(sendWindow.lastMsgid) + 1, old(receiver.lastReliableId), true,
                                  MatchCommandBody(command, room.id)),
                        Notify(listener, OnMatchStateChanged(STATUS_NETWORK_ERROR, room, UNKNOWN)), env)
      ensures CoreKept() && registries == old(registries) && currentRoom == old(currentRoom)
    {
      if link.status != CONNECTED {
        events := events + Notify(listener, OnMatchStateChanged(STATUS_SESSION_NOT_CONNECTED, room, UNKNOWN));
        return;
      }
      SendRequest(MatchCommandBody(command, room.GetId()),
                  Notify(listener, OnMatchStateChanged(STATUS_NETWORK_ERROR, room, UNKNOWN)), env);
    }

    /** sendSetRoomProperty(room, room_listener, key, value): failures name the local
        player as the origin of the change. */
    method SendSetRoomProperty(room: Room, listener: Option<RoomListener>, key: string,
                               value: Option<Value>, env: Environment)
      requires Valid() && !crashed
      modifies this
      ensures Valid()
      ensures old(link.status) != CONNECTED ==>
                && AllKept()
                && events == old(events) + Notify(listener, OnRoomPropertyChanged(STATUS_SESSION_NOT_CONNECTED, room, playerId, key))
      ensures old(link.status) == CONNECTED ==>
                Stamped(InMessage(old(sendWindow.lastMsgid) + 1, old(receiver.lastReliableId), true,
                                  SetRoomProperty(room.id, ObjectToMapEntry(key, value))),
                        Notify(listener, OnRoomPropertyChanged(STATUS_NETWORK_ERROR, room, playerId, key)), env)
      ensures CoreKept() && registries == old(registries) && currentRoom == old(currentRoom)
    {
      if link.status != CONNECTED {
        events := events + Notify(listener, OnRoomPropertyChanged(STATUS_SESSION_NOT_CONNECTED, room, playerId, key));
        return;
      }
      SendRequest(SetRoomProperty(room.GetId(), ObjectToMapEntry(key, value)),
                  Notify(listener, OnRoomPropertyChanged(STATUS_NETWORK_ERROR, room, playerId, key)), env);
    }

    /** sendSetCurrentParticipantProperty(room, room_listener, key, value). */
    method SendSetCurrentParticipantProperty(room: Room, listener: Option<RoomListener>, key: string,
                                             value: Option<Value>, env: Environment)
      requires Valid() && !crashed
      modifies this
      ensures Valid()
      ensures old(link.status) != CONNECTED ==>
                && AllKept()
                && events == old(events) + Notify(listener, OnParticipantPropertyChanged(STATUS_SESSION_NOT_CONNECTED, room, playerId, key))
      ensures old(link.status) == CONNECTED ==>
                Stamped(InMessage(old(sendWindow.lastMsgid) + 1, old(receiver.lastReliableId), true,
                                  SetPlayerProperty(room.id, ObjectToMapEntry(key, value))),
                        Notify(listener, OnParticipantPropertyChanged(STATUS_NETWORK_ERROR, room, playerId, key)), env)
      ensures CoreKept() && registries == old(registries) && currentRoom == old(currentRoom)
    {
      if link.status != CONNECTED {
        events := events + Notify(listener, OnParticipantPropertyChanged(STATUS_SESSION_NOT_CONNECTED, room, playerId, key));
        return;
      }
      SendRequest(SetPlayerProperty(room.GetId(), ObjectToMapEntry(key, value)),
                  Notify(listener, OnParticipantPropertyChanged(STATUS_NETWORK_ERROR, room, playerId, key)), env);
    }

    /** sendUnreliableMessage(room_id, peer_id, tag, payload), as the public method returns
        it: the id is the match clock, nothing is kept for a resend, and a write on a null
        connection fails the future task, which reports INTERNAL_ERROR. */
    method SendUnreliableMessage(roomId: string, peerId: Option<string>, tag: Int32,
                                 payload: Option<map<string, Option<Value>>>, env: Environment)
      returns (r: int)
      requires Valid() && !crashed
      modifies this, udpConnection
      ensures Valid() && !crashed
      ensures old(link.status) != CONNECTED ==>
                && r == STATUS_SESSION_NOT_CONNECTED && wire == old(wire)
                && (old(udpConnection) != null ==> unchanged(old(udpConnection)))
      ensures old(link.status) == CONNECTED ==>
                var msgid := ToInt(old(clock.MmTime(env.now)));
                && FastSent(InMessage(msgid, old(receiver.lastReliableId), false,
                                      SendRoomMessage(roomId, msgid, tag, false, JavaMapToProtoMap(payload), peerId)), env)
                && r == WriteStatus(old(BestChannelResult(env)))
      ensures CoreKept() && sendWindow == old(sendWindow) && registries == old(registries)
      ensures currentRoom == old(currentRoom) && events == old(events)
    {
      if link.status != CONNECTED {
        return STATUS_SESSION_NOT_CONNECTED;
      }
      var msgid := ToInt(clock.MmTime(env.now));
      var body := SendRoomMessage(roomId, msgid, tag, false, JavaMapToProtoMap(payload), peerId);
      var w := FastWrite(InMessage(msgid, receiver.lastReliableId, false, body), env);
      r := WriteStatus(w);
    }

    /** sendReliableMessage(room_id, listener, peer_id, tag, payload), as the public method
        returns it: the new message id on success, else a status code. */
    method SendReliableMessage(roomId: string, listener: MessageSentListener, peerId: Option<string>,
                               tag: Int32, payload: Option<map<string, Option<Value>>>, env: Environment)
      returns (r: int)
      requires Valid() && !crashed
      modifies this
      ensures Valid() && !crashed
      ensures old(link.status) != CONNECTED ==>
                && r == STATUS_SESSION_NOT_CONNECTED && wire == old(wire)
                && sendWindow == old(sendWindow) && registries == old(registries)
      ensures old(link.status) == CONNECTED && old(link.connection).None? ==>
                && r == STATUS_INTERNAL_ERROR && wire == old(wire)
                && sendWindow == old(sendWindow) && registries == old(registries)
      ensures old(link.status) == CONNECTED && old(link.connection).Some? ==>
                var inmsg := InMessage(old(sendWindow.lastMsgid) + 1, old(receiver.lastReliableId), true,
                                       SendRoomMessage(roomId, ToInt(old(clock.MmTime(env.now))), tag, true,
                                                       JavaMapToProtoMap(payload), peerId));
                && wire == old(wire) + [TcpSend(old(link.connection).value, inmsg)]
                && (env.writesSucceed ==>
                      && r == inmsg.msgid
                      && sendWindow == old(sendWindow).(lastMsgid := r, queue := old(sendWindow.queue)[r := inmsg])
                      && registries == old(registries).(snd := old(registries.snd)[r := listener]))
                && (!env.writesSucceed ==>
                      r == STATUS_NETWORK_ERROR && sendWindow == old(sendWindow) && registries == old(registries))
      ensures CoreKept() && currentRoom == old(currentRoom) && events == old(events)
    {
      if link.status != CONNECTED {
        return STATUS_SESSION_NOT_CONNECTED;
      }
      var body := SendRoomMessage(roomId, ToInt(clock.MmTime(env.now)), tag, true, JavaMapToProtoMap(payload), peerId);
      var inmsg := InMessage(sendWindow.lastMsgid + 1, receiver.lastReliableId, true, body);
      var w := TcpWrite(inmsg, env);
      match w
      case NullConnection =>
        r := STATUS_INTERNAL_ERROR;
      case WriteFailed =>
        r := STATUS_NETWORK_ERROR;
      case Written =>
        r := inmsg.msgid;
        registries := registries.(snd := registries.snd[r := listener]);
        sendWindow := sendWindow.(lastMsgid := r, queue := sendWindow.queue[r := inmsg]);
    }

    /* ---------------------------------------------------------------- inbound */

    /** onMessageReceived(TCPConnection, msg): only the current connection is heard. */
    method OnTcpMessage(from: nat, msg: OutMessage, env: Environment)
      requires Valid() && !crashed
      modifies this, currentRoom, udpConnection
      ensures Valid()
      ensures old(link.connection) != Some(from) ==> unchanged(this)
      ensures currentRoom == null || currentRoom == old(currentRoom) || fresh(currentRoom)
      ensures udpConnection == null || udpConnection == old(udpConnection) || fresh(udpConnection)
    {
      if link.connection != Some(from) {
        return;
      }
      OnMessageReceived(msg, env);
    }

    /** onMessageReceived(UDPConnection, msg): only the current channel is heard. */
    method OnUdpMessage(from: UdpConnection, msg: OutMessage, env: Environment)
      requires Valid() && !crashed
      modifies this, currentRoom, udpConnection
      ensures Valid()
      ensures old(udpConnection) != from ==> unchanged(this)
      ensures currentRoom == null || currentRoom == old(currentRoom) || fresh(currentRoom)
      ensures udpConnection == null || udpConnection == old(udpConnection) || fresh(udpConnection)
    {
      if udpConnection != from {
        return;
      }
      OnMessageReceived(msg, env);
    }

    /** onMessageReceived(msg): every envelope first acknowledges the send window, then
        goes to its handler (id 0), or through the unreliable or the reliable sequencing. */
    method OnMessageReceived(msg: OutMessage, env: Environment)
      requires Valid() && !crashed
      modifies this, currentRoom, udpConnection
      ensures Valid()
      ensures history.resets == old(history.resets) ==>
                sendWindow == old(sendWindow).(lastAckid := if msg.ackid >= old(sendWindow.lastAckid)
                                                            then msg.ackid + 1 else old(sendWindow.lastAckid),
                                               queue := Without(old(sendWindow.queue), old(sendWindow.lastAckid), msg.ackid))
      ensures msg.msgid == 0 && history.resets == old(history.resets) ==>
                history.handled == old(history.handled) + [msg] && receiver == old(receiver)
      ensures currentRoom == null || currentRoom == old(currentRoom) || fresh(currentRoom)
      ensures udpConnection == null || udpConnection == old(udpConnection) || fresh(udpConnection)
    {
      AckReliableMessages(msg.ackid);
      if msg.msgid == 0 {
        HandleOutMessage(msg, env);
      } else if !msg.isReliable {
        OnUnreliableMessageReceived(msg, env);
      } else {
        OnReliableMessageReceived(msg, env);
      }
    }

    /** ackReliableMessages(ackid): the peer holds every id up to `ackid`, so those leave
        the send window, and the next acknowledgement is awaited from ackid + 1 on. */
    method AckReliableMessages(ackid: int)
      requires Core()
      modifies this
      ensures Core()
      ensures sendWindow == old(sendWindow).(lastAckid := if ackid >= old(sendWindow.lastAckid)
                                                          then ackid + 1 else old(sendWindow.lastAckid),
                                             queue := Without(old(sendWindow.queue), old(sendWindow.lastAckid), ackid))
      ensures forall k | k in sendWindow.queue ::
                k in old(sendWindow.queue) && !(old(sendWindow.lastAckid) <= k <= ackid)
      ensures CoreKept() && registries == old(registries) && currentRoom == old(currentRoom)
      ensures events == old(events) && wire == old(wire) && crashed == old(crashed)
    {
      var a := sendWindow.lastAckid;
      var q := sendWindow.queue;
      while a <= ackid
        invariant old(sendWindow.lastAckid) <= a
        invariant a <= if ackid >= old(sendWindow.lastAckid) then ackid + 1 else old(sendWindow.lastAckid)
        invariant q == Without(old(sendWindow.queue), old(sendWindow.lastAckid), a - 1)
        decreases ackid - a
      {
        q := q - {a};
        a := a + 1;
      }
      sendWindow := sendWindow.(lastAckid := a, queue := q);
    }

    /** What the drain of the reorder buffer has done so far: `msg` and the buffered run
        after it, handled in id order and taken out of the buffer; nothing else of the
        sequencing state moved. */
    twostate predicate Drained(msg: OutMessage)
      reads this
    {
      && msg.msgid <= receiver.lastReliableId
      && (forall k | msg.msgid < k <= receiver.lastReliableId :: k in old(receiver.buffer))
      && history.handled == old(history.handled) + [msg] + Run(old(receiver.buffer), msg.msgid + 1, receiver.lastReliableId)
      && receiver.buffer == Without(old(receiver.buffer), msg.msgid + 1, receiver.lastReliableId)
      && receiver.lastUnreliableId == old(receiver.lastUnreliableId)
      && history.unreliable == old(history.unreliable) && history.resets == old(history.resets)
      && sendWindow == old(sendWindow)
    }

    /** onReliableMessageReceived(msg): an old id is dropped, an id past a gap is
        buffered, and the next expected id is handled together with every buffered
        successor that follows it without a gap. */
    method OnReliableMessageReceived(msg: OutMessage, env: Environment)
      requires Valid() && !crashed && msg.isReliable && msg.msgid != 0
      modifies this, currentRoom, udpConnection
      ensures Valid()
      ensures link.retries <= old(link.retries)
      ensures currentRoom == null || currentRoom == old(currentRoom) || fresh(currentRoom)
      ensures udpConnection == null || udpConnection == old(udpConnection) || fresh(udpConnection)
      ensures msg.msgid <= old(receiver.lastReliableId) ==>
                && unchanged(this)
                && (old(currentRoom) != null ==> unchanged(old(currentRoom)))
                && (old(udpConnection) != null ==> unchanged(old(udpConnection)))
      ensures msg.msgid > old(receiver.lastReliableId) + 1 ==>
                && receiver == old(receiver).(buffer := old(receiver.buffer)[msg.msgid := msg])
                && settings == old(settings) && link == old(link) && udpConnection == old(udpConnection)
                && clock == old(clock) && history == old(history) && sendWindow == old(sendWindow)
                && registries == old(registries) && currentRoom == old(currentRoom)
                && events == old(events) && wire == old(wire) && crashed == old(crashed)
                && (old(currentRoom) != null ==> unchanged(old(currentRoom)))
                && (old(udpConnection) != null ==> unchanged(old(udpConnection)))
      ensures msg.msgid == old(receiver.lastReliableId) + 1 && history.resets == old(history.resets) ==>
                Drained(msg)
      ensures history.resets == old(history.resets) && !crashed ==>
                && receiver == ReliableArrival(old(receiver), msg).0
                && history.handled == old(history.handled) + ReliableArrival(old(receiver), msg).1
    {
      if msg.msgid <= receiver.lastReliableId {
        return;
      }
      if msg.msgid > receiver.lastReliableId + 1 {
        receiver := receiver.(buffer := receiver.buffer[msg.msgid := msg]);
        return;
      }
      HandleReliableRun(msg, env);
    }

    /** The third branch of onReliableMessageReceived: the next expected envelope is
        handled, then every buffered successor that follows it without a gap. */
    method HandleReliableRun(msg: OutMessage, env: Environment)
      requires Valid() && !crashed && msg.isReliable && msg.msgid == receiver.lastReliableId + 1
      modifies this, currentRoom, udpConnection
      ensures Valid()
      ensures link.retries <= old(link.retries)
      ensures currentRoom == null || currentRoom == old(currentRoom) || fresh(currentRoom)
      ensures udpConnection == null || udpConnection == old(udpConnection) || fresh(udpConnection)
      ensures history.resets == old(history.resets) ==> Drained(msg)
      ensures history.resets == old(history.resets) && !crashed ==>
                && receiver == ReliableArrival(old(receiver), msg).0
                && history.handled == old(history.handled) + ReliableArrival(old(receiver), msg).1
    {
      ghost var before := Snap();
      HandleInOrder(msg, env);
      ghost var handled := Snap();
      DrainBuffer(env);
      if history.resets == old(history.resets) {
        assert handled.history.resets == before.history.resets;
        InOrderThenDrain(before, handled, Snap(), msg);
      }
    }

    /** The sequencing state at one instant. */
    ghost function Snap(): Snapshot
      reads this
    {
      Snapshot(receiver, history, sendWindow)
    }

    /** The drain of the reorder buffer since the sequencing state was `s`: the run of
        buffered envelopes that followed the last reliable id without a gap, handled in id
        order and taken out of the buffer; nothing else of the sequencing state moved. */
    ghost predicate DrainedFrom(s: Snapshot)
      reads this
    {
      DrainedBetween(s, Snap())
    }

    /** The loop of onReliableMessageReceived: while the buffer holds the next expected id,
        that envelope is handled. It stops at a gap, once the buffer is empty, or when the
        worker thread died. */
    method DrainBuffer(env: Environment)
      requires Core()
      modifies this, currentRoom, udpConnection
      ensures Core()
      ensures link.retries <= old(link.retries)
      ensures currentRoom == null || currentRoom == old(currentRoom) || fresh(currentRoom)
      ensures udpConnection == null || udpConnection == old(udpConnection) || fresh(udpConnection)
      ensures history.resets >= old(history.resets)
      ensures history.resets == old(history.resets) ==> DrainedFrom(old(Snap()))
      ensures history.resets == old(history.resets) && !crashed ==> receiver.lastReliableId + 1 !in receiver.buffer
      ensures history.resets != old(history.resets) ==> receiver.buffer == map[]
    {
      ghost var s := Snap();
      assert receiver.buffer == Without(s.receiver.buffer, receiver.lastReliableId + 1, receiver.lastReliableId);
      while receiver.buffer != map[] && !crashed
        invariant Core()
        invariant link.retries <= old(link.retries)
        invariant currentRoom == null || currentRoom == old(currentRoom) || fresh(currentRoom)
        invariant udpConnection == null || udpConnection == old(udpConnection) || fresh(udpConnection)
        invariant history.resets >= s.history.resets
        invariant history.resets == s.history.resets ==> DrainedFrom(s)
        invariant history.resets != s.history.resets ==> receiver.buffer == map[]
        decreases |receiver.buffer|
      {
        if receiver.lastReliableId + 1 !in receiver.buffer {
          break;
        }
        DrainNext(s, env);
      }
    }

    /** One turn of the drain: the buffered envelope with the next expected id is handled. */
    method DrainNext(ghost s: Snapshot, env: Environment)
      requires Core() && !crashed && history.resets == s.history.resets && DrainedFrom(s)
      requires receiver.lastReliableId + 1 in receiver.buffer
      modifies this, currentRoom, udpConnection
      ensures Core()
      ensures link.retries <= old(link.retries)
      ensures currentRoom == null || currentRoom == old(currentRoom) || fresh(currentRoom)
      ensures udpConnection == null || udpConnection == old(udpConnection) || fresh(udpConnection)
      ensures history.resets >= old(history.resets)
      ensures history.resets == old(history.resets) ==>
                DrainedFrom(s) && |receiver.buffer| < old(|receiver.buffer|)
      ensures history.resets != old(history.resets) ==> receiver.buffer == map[]
    {
      ghost var before := Snap();
      HandleInOrder(receiver.buffer[receiver.lastReliableId + 1], env);
      if history.resets == old(history.resets) {
        DrainAdvance(s, before, Snap());
      }
    }

    /** The handling of the next expected reliable envelope: it becomes the last one
        handled, leaves the reorder buffer, and goes to its handler. */
    method HandleInOrder(msg: OutMessage, env: Environment)
      requires Core() && !crashed && msg.msgid == receiver.lastReliableId + 1
      modifies this, currentRoom, udpConnection
      ensures Core()
      ensures link.retries <= old(link.retries)
      ensures currentRoom == null || currentRoom == old(currentRoom) || fresh(currentRoom)
      ensures udpConnection == null || udpConnection == old(udpConnection) || fresh(udpConnection)
      ensures history.resets >= old(history.resets)
      ensures history.resets == old(history.resets) ==>
                && receiver == old(receiver).(lastReliableId := msg.msgid, buffer := old(receiver.buffer) - {msg.msgid})
                && history.handled == old(history.handled) + [msg]
                && history.unreliable == old(history.unreliable)
                && sendWindow == old(sendWindow)
      ensures history.resets != old(history.resets) ==> receiver.buffer == map[]
    {
      receiver := receiver.(lastReliableId := msg.msgid, buffer := receiver.buffer - {msg.msgid});
      history := history.(reliable := history.reliable + [msg.msgid]);
      HandleOutMessage(msg, env);
    }

    /** onUnreliableMessageReceived(msg): one counter for every unreliable envelope, on
        either channel; an id not above it is dropped. */
    method OnUnreliableMessageReceived(msg: OutMessage, env: Environment)
      requires Valid() && !crashed && !msg.isReliable && msg.msgid != 0
      modifies this, currentRoom, udpConnection
      ensures Valid()
      ensures link.retries <= old(link.retries)
      ensures currentRoom == null || currentRoom == old(currentRoom) || fresh(currentRoom)
      ensures udpConnection == null || udpConnection == old(udpConnection) || fresh(udpConnection)
      ensures msg.msgid <= old(receiver.lastUnreliableId) ==>
                && unchanged(this)
                && (old(currentRoom) != null ==> unchanged(old(currentRoom)))
                && (old(udpConnection) != null ==> unchanged(old(udpConnection)))
      ensures msg.msgid > old(receiver.lastUnreliableId) && history.resets == old(history.resets) ==>
                && receiver == old(receiver).(lastUnreliableId := msg.msgid)
                && history.unreliable == old(history.unreliable) + [msg.msgid]
                && history.handled == old(history.handled) + [msg]
                && sendWindow == old(sendWindow)
      ensures history.resets == old(history.resets) ==>
                && receiver == UnreliableArrival(old(receiver), msg).0
                && history.handled == old(history.handled) + UnreliableArrival(old(receiver), msg).1
    {
      if msg.msgid <= receiver.lastUnreliableId {
        return;
      }
      receiver := receiver.(lastUnreliableId := msg.msgid);
      history := history.(unreliable := history.unreliable + [msg.msgid]);
      HandleOutMessage(msg, env);
    }

    /** handleOutMessage(msg): the dispatch on the push an envelope carries. The sequencing
        state is untouched unless the push forgot the whole session. */
    method HandleOutMessage(msg: OutMessage, env: Environment)
      requires Core() && !crashed
      modifies this, currentRoom, udpConnection
      ensures Core()
      ensures history.handled == old(history.handled) + [msg]
      ensures || (&& sendWindow == old(sendWindow) && receiver == old(receiver)
                  && history == old(history).(handled := history.handled))
              || (IsReset() && history.resets == old(history.resets) + 1)
      ensures link.retries <= old(link.retries)
      ensures currentRoom == null || currentRoom == old(currentRoom) || fresh(currentRoom)
      ensures udpConnection == null || udpConnection == old(udpConnection) || fresh(udpConnection)
    {
      var p := msg.body;
      if p.Connected? || p.ConnectionFailed? || p.ConnectionClosed? {
        HandleLinkPush(p, env);
      } else if p.Sync? || p.ServerPing? || p.ServerPong? {
        HandleClockPush(p, env);
      } else if p.Ack? {
        HandleAck(p.status, p.ackedMsgid);
      } else if !p.UnknownPush? {
        HandleRoomPush(p);
      }
      history := history.(handled := history.handled + [msg]);
    }

    /** The pushes about the connection itself: Connected, ConnectionFailed and
        ConnectionClosed. Only a closed session touches the sequencing state, and then
        forgets it all. */
    method HandleLinkPush(p: Push, env: Environment)
      requires Core() && !crashed
      modifies this, udpConnection
      ensures Core()
      ensures || (&& sendWindow == old(sendWindow) && receiver == old(receiver) && history == old(history)
                  && currentRoom == old(currentRoom))
              || (IsReset() && history == old(history).(reliable := [], unreliable := [],
                                                         resets := old(history.resets) + 1))
      ensures link.retries <= old(link.retries)
      ensures udpConnection == null || udpConnection == old(udpConnection) || fresh(udpConnection)
    {
      if p.Connected? {
        HandleConnected(p.sessionId, p.mmTime, p.info, p.udpPort, env);
      } else if p.ConnectionFailed? {
        HandleConnectionFailed(p.status);
      } else if p.ConnectionClosed? {
        HandleConnectionClosed(p.status, p.hostname, p.port);
      }
    }

    /** The pushes about the match clock: Sync, Ping and Pong. */
    method HandleClockPush(p: Push, env: Environment)
      requires Core() && !crashed
      modifies this, udpConnection
      ensures Core()
      ensures link == old(link) && udpConnection == old(udpConnection) && sendWindow == old(sendWindow)
      ensures receiver == old(receiver) && history == old(history) && currentRoom == old(currentRoom)
    {
      if p.Sync? {
        HandleSync(p.latency);
      } else if p.ServerPing? {
        HandleServerPing(p.id, p.timestamp, env);
      } else if p.ServerPong? {
        HandleServerPong(p.id, p.timestamp, env);
      }
    }

    /** The pushes about rooms: replies, departures, peers, match state, properties and
        messages. None touches the connection or the sequencing state. */
    method HandleRoomPush(p: Push)
      requires Core() && !crashed
      modifies this, currentRoom
      ensures Core() && !crashed
      ensures EngineKept()
      ensures currentRoom == null || currentRoom == old(currentRoom) || fresh(currentRoom)
    {
      if p.RoomCreated? || p.RoomJoined? {
        HandleRoomReply(p.RoomCreated?, p.status, p.room);
      } else if p.RoomClosed? || p.RoomLeft? {
        HandleRoomGone(p.RoomLeft?, p.status, p.roomId);
      } else if p.PeerJoinedRoom? {
        HandlePeerJoined(p.roomId, p.player);
      } else if p.PeerLeftRoom? {
        HandlePeerLeft(p.roomId, p.clientId);
      } else if p.GameStateChanged? {
        HandleGameStateChanged(p.status, p.roomId, p.gameState);
      } else if p.RoomPropertyUpdated? {
        HandleRoomPropertyUpdated(p.status, p.roomId, p.clientId, p.property);
      } else if p.PlayerPropertyUpdated? {
        HandlePlayerPropertyUpdated(p.status, p.roomId, p.clientId, p.property);
      } else if p.RoomMessage? {
        HandleRoomMessage(p.roomId, p.fromId, p.tag, p.payload);
      }
    }

    /** The replay after Connected: every envelope of the send window written once more on
        connection `c` with the current acknowledgement, in the hash map's order. */
    ghost predicate Replayed(before: seq<Transmission>, c: nat)
      reads this
    {
      && |before| <= |wire| && wire[..|before|] == before
      && IsReplay(wire[|before|..], sendWindow.queue, receiver.lastReliableId, c)
    }

    /** handleOutMessage(Connected): the session is up and its clock set; a UDP channel is
        opened when the server offers one, and the send window is written again. */
    method HandleConnected(sid: string, mm: Int32, info: seq<MapEntry>, udpPort: Int32, env: Environment)
      requires Core() && !crashed
      modifies this
      ensures Core()
      ensures link == old(link).(status := CONNECTED, retries := 0, sessionId := Some(sid),
                                 sessionInfo := Some(JavaMapOf(info)))
      ensures clock == old(clock).(mmTime := mm, lastUpdate := env.now)
      ensures forall t :: clock.MmTime(t) == mm + (t - env.now)
      ensures events == old(events) + Notify(settings.connectionListener, OnConnected(JavaMapOf(info)))
      ensures udpPort == 0 ==> udpConnection == old(udpConnection)
      ensures udpPort != 0 && !env.udpOpens ==> udpConnection == null
      ensures udpPort != 0 && env.udpOpens ==>
                && fresh(udpConnection) && udpConnection.host == link.host && udpConnection.port == udpPort
                && udpConnection.sent == [HEARTBEAT_DATAGRAM] && udpConnection.running == env.writesSucceed
                && !udpConnection.isConnected
      ensures old(link.connection).Some? ==> !crashed && Replayed(old(wire), old(link.connection).value)
      ensures old(link.connection).None? ==> wire == old(wire) && crashed == (sendWindow.queue != map[])
      ensures settings == old(settings) && sendWindow == old(sendWindow) && receiver == old(receiver)
      ensures history == old(history) && registries == old(registries) && currentRoom == old(currentRoom)
    {
      var jinfo := ProtoMapToJavaMap(info);
      link := link.(status := CONNECTED, retries := 0, sessionId := Some(sid), sessionInfo := Some(jinfo));
      clock := clock.(mmTime := mm, lastUpdate := env.now);
      events := events + Notify(settings.connectionListener, OnConnected(jinfo));
      if udpPort != 0 {
        OpenUdpChannel(udpPort, env);
      }
      ReplaySendWindow();
    }

    /** The UDP channel Connected offers on `udpPort`: a new channel whose heartbeat is
        sent, or none when the socket cannot be opened. */
    method OpenUdpChannel(udpPort: Int32, env: Environment)
      requires Core()
      modifies this
      ensures Core()
      ensures !env.udpOpens ==> udpConnection == null
      ensures env.udpOpens ==>
                && fresh(udpConnection) && udpConnection.host == link.host && udpConnection.port == udpPort
                && udpConnection.sent == [HEARTBEAT_DATAGRAM] && udpConnection.running == env.writesSucceed
                && !udpConnection.isConnected
      ensures settings == old(settings) && link == old(link) && clock == old(clock)
      ensures sendWindow == old(sendWindow) && receiver == old(receiver) && history == old(history)
      ensures registries == old(registries) && currentRoom == old(currentRoom)
      ensures events == old(events) && wire == old(wire) && crashed == old(crashed)
    {
      if env.udpOpens {
        var u := new UdpConnection(link.host, udpPort);
        u.Connect(env.writesSucceed);
        udpConnection := u;
      } else {
        udpConnection := null;
      }
    }

    /** The replay of the send window after Connected, with the current acknowledgement;
        on a null connection the first write kills the worker thread. */
    method ReplaySendWindow()
      requires Core() && !crashed
      modifies this
      ensures Core()
      ensures link.connection.Some? ==> !crashed && Replayed(old(wire), link.connection.value)
      ensures link.connection.None? ==> wire == old(wire) && crashed == (sendWindow.queue != map[])
      ensures settings == old(settings) && link == old(link) && udpConnection == old(udpConnection)
      ensures clock == old(clock) && sendWindow == old(sendWindow) && receiver == old(receiver)
      ensures history == old(history) && registries == old(registries) && currentRoom == old(currentRoom)
      ensures events == old(events)
    {
      if link.connection.None? {
        if sendWindow.queue != map[] {
          crashed := true;
        }
        return;
      }
      var replay := ReplayWindow(sendWindow.queue, receiver.lastReliableId, link.connection.value, sendWindow.lastMsgid);
      assert (wire + replay)[..|wire|] == wire && (wire + replay)[|wire|..] == replay;
      wire := wire + replay;
    }

    /** handleOutMessage(ConnectionFailed): the connection is dropped; a terminal status is
        reported, a network error or timeout is retried or reported, others are silent. */
    method HandleConnectionFailed(status: Status)
      requires Core() && !crashed
      modifies this, udpConnection
      ensures Core() && !crashed
      ensures old(udpConnection) != null ==> !old(udpConnection).running
      ensures Dropped()
      ensures ConnectionFailedCode(status).Some? ==>
                && link.retries == 0 && link.pendingReconnects == old(link.pendingReconnects)
                && events == old(events) + Notify(settings.connectionListener,
                                                  OnConnectionFailed(ConnectionFailedCode(status).value))
      ensures status == NETWORK_ERROR || status == CONNECT_TIMEOUT ==> RetriedOrFailed()
      ensures ConnectionFailedCode(status).None? && status != NETWORK_ERROR && status != CONNECT_TIMEOUT ==>
                && link.retries == old(link.retries) && link.pendingReconnects == old(link.pendingReconnects)
                && events == old(events)
      ensures settings == old(settings) && clock == old(clock) && sendWindow == old(sendWindow)
      ensures receiver == old(receiver) && history == old(history) && currentRoom == old(currentRoom)
      ensures wire == old(wire)
    {
      DropConnection();
      if status == NETWORK_ERROR || status == CONNECT_TIMEOUT {
        RetryOrFail();
      } else {
        var code := ConnectionFailedCode(status);
        if code.Some? {
          link := link.(retries := 0);
          events := events + Notify(settings.connectionListener, OnConnectionFailed(code.value));
        }
      }
    }

    /** connection = null; DISCONNECTED; session_info = null; ping_listeners.clear(). */
    method DropConnection()
      requires Core()
      modifies this, udpConnection
      ensures Core()
      ensures old(udpConnection) != null ==> !old(udpConnection).running
      ensures udpConnection == null
      ensures link == old(link).(status := DISCONNECTED, connection := None, sessionInfo := None)
      ensures registries == old(registries).(ping := map[])
      ensures settings == old(settings) && clock == old(clock)
      ensures sendWindow == old(sendWindow) && receiver == old(receiver) && history == old(history)
      ensures currentRoom == old(currentRoom) && events == old(events) && wire == old(wire)
      ensures crashed == old(crashed)
    {
      TearDownUdp();
      link := link.(status := DISCONNECTED, connection := None, sessionInfo := None);
      registries := registries.(ping := map[]);
    }

    /** The retry policy after a lost connection: reconnectSession() when the flag is set,
        a reported failure otherwise. */
    method RetryOrFail()
      requires Core()
      modifies this
      ensures Core()
      ensures RetriedOrFailed()
      ensures link == old(link).(retries := link.retries, pendingReconnects := link.pendingReconnects)
      ensures settings == old(settings) && udpConnection == old(udpConnection) && clock == old(clock)
      ensures sendWindow == old(sendWindow) && receiver == old(receiver) && history == old(history)
      ensures registries == old(registries) && currentRoom == old(currentRoom)
      ensures wire == old(wire) && crashed == old(crashed)
    {
      if settings.reconnectFlag {
        events := events + Notify(settings.connectionListener, OnReconnecting(STATUS_NETWORK_ERROR));
        link := link.(pendingReconnects := link.pendingReconnects + 1);
      } else {
        link := link.(retries := 0);
        events := events + Notify(settings.connectionListener, OnConnectionFailed(STATUS_NETWORK_ERROR));
      }
    }

    /** handleOutMessage(ConnectionClosed): SESSION_CLOSED forgets the whole session,
        REPLACED_BY_NEW_CONNECTION only drops the connection, UNRESPONSIVE_CLIENT drops it
        and retries, NEW_SERVER_LOCATION reconnects to the new address at once. */
    method HandleConnectionClosed(status: Status, hostname: string, newPort: Int32)
      requires Core() && !crashed
      modifies this, udpConnection
      ensures Core() && !crashed
      ensures old(udpConnection) != null ==> !old(udpConnection).running
      ensures udpConnection == null
      ensures status == SESSION_CLOSED ==>
                && IsReset() && link == old(link).Forgotten().(retries := 0)
                && history == old(history).(reliable := [], unreliable := [], resets := old(history.resets) + 1)
                && registries.pingTimeouts == old(registries.pingTimeouts)
                && events == old(events) + Notify(settings.connectionListener, OnConnectionClosed(STATUS_SESSION_CLOSED))
                && wire == old(wire)
      ensures status == REPLACED_BY_NEW_CONNECTION ==>
                && Dropped() && link.retries == 0 && link.pendingReconnects == old(link.pendingReconnects)
                && events == old(events) + Notify(settings.connectionListener,
                                                  OnConnectionClosed(STATUS_REPLACED_BY_NEW_CONNECTION))
      ensures status == UNRESPONSIVE_CLIENT ==> Dropped() && RetriedOrFailed()
      ensures status == NEW_SERVER_LOCATION ==>
                && Dialled(old(link).(host := hostname, port := newPort, retries := 0))
                && registries == old(registries).(ping := map[])
                && events == old(events) + (if old(link.status) == CONNECTED
                                            then Notify(settings.connectionListener, OnReconnecting(STATUS_NEW_SERVER_LOCATION))
                                            else [])
      ensures status != SESSION_CLOSED ==>
                && sendWindow == old(sendWindow) && receiver == old(receiver) && history == old(history)
                && currentRoom == old(currentRoom)
      ensures status !in {SESSION_CLOSED, REPLACED_BY_NEW_CONNECTION, UNRESPONSIVE_CLIENT, NEW_SERVER_LOCATION} ==>
                && link == old(link) && registries == old(registries)
                && events == old(events) && wire == old(wire)
      ensures settings == old(settings) && clock == old(clock)
    {
      if status == SESSION_CLOSED {
        CloseSession();
      } else if status == REPLACED_BY_NEW_CONNECTION {
        DropConnection();
        link := link.(retries := 0);
        events := events + Notify(settings.connectionListener, OnConnectionClosed(STATUS_REPLACED_BY_NEW_CONNECTION));
      } else if status == UNRESPONSIVE_CLIENT {
        DropConnection();
        RetryOrFail();
      } else if status == NEW_SERVER_LOCATION {
        MoveServer(hostname, newPort);
      } else {
        TearDownUdp();
      }
    }

    /** ConnectionClosed with SESSION_CLOSED: the session is forgotten, the retry count
        restarts, and the connection listener hears it. */
    method CloseSession()
      requires Core() && !crashed
      modifies this, udpConnection
      ensures Core() && !crashed
      ensures old(udpConnection) != null ==> !old(udpConnection).running
      ensures IsReset() && link == old(link).Forgotten().(retries := 0)
      ensures history == old(history).(reliable := [], unreliable := [], resets := old(history.resets) + 1)
      ensures registries.pingTimeouts == old(registries.pingTimeouts)
      ensures events == old(events) + Notify(settings.connectionListener, OnConnectionClosed(STATUS_SESSION_CLOSED))
      ensures wire == old(wire) && settings == old(settings) && clock == old(clock)
    {
      TearDownUdp();
      ResetSession();
      link := link.(retries := 0);
      events := events + Notify(settings.connectionListener, OnConnectionClosed(STATUS_SESSION_CLOSED));
    }

    /** ConnectionClosed with NEW_SERVER_LOCATION: the new address replaces the old one
        with a fresh retry budget, and a new connection is opened at once. */
    method MoveServer(hostname: string, newPort: Int32)
      requires Core() && !crashed
      modifies this, udpConnection
      ensures Core() && !crashed
      ensures old(udpConnection) != null ==> !old(udpConnection).running
      ensures Dialled(old(link).(host := hostname, port := newPort, retries := 0))
      ensures registries == old(registries).(ping := map[])
      ensures events == old(events) + (if old(link.status) == CONNECTED
                                       then Notify(settings.connectionListener, OnReconnecting(STATUS_NEW_SERVER_LOCATION))
                                       else [])
      ensures settings == old(settings) && clock == old(clock) && sendWindow == old(sendWindow)
      ensures receiver == old(receiver) && history == old(history) && currentRoom == old(currentRoom)
    {
      TearDownUdp();
      link := link.(host := hostname, port := newPort, retries := 0);
      registries := registries.(ping := map[]);
      if link.status == CONNECTED {
        events := events + Notify(settings.connectionListener, OnReconnecting(STATUS_NEW_SERVER_LOCATION));
      }
      DoConnect();
    }

    /** handleOutMessage(Sync): the clock's anchor moves back by the latency, so the match
        clock reads `latency` later than before at every instant. */
    method HandleSync(latency: Int32)
      requires Core() && !crashed
      modifies this
      ensures Core() && !crashed
      ensures clock == old(clock).(mmLatency := latency, lastUpdate := old(clock.lastUpdate) - latency)
      ensures forall t :: clock.MmTime(t) == old(clock).MmTime(t) + latency
      ensures settings == old(settings) && link == old(link) && udpConnection == old(udpConnection)
      ensures sendWindow == old(sendWindow) && receiver == old(receiver) && history == old(history)
      ensures registries == old(registries) && currentRoom == old(currentRoom)
      ensures events == old(events) && wire == old(wire)
    {
      clock := clock.(mmLatency := latency);
      clock := clock.(lastUpdate := clock.lastUpdate - clock.mmLatency);
    }

    /** handleOutMessage(Ping): the clock is set to the server's timestamp and a Pong
        goes back on the best channel, its id being the match clock, which now reads the
        timestamp. */
    method HandleServerPing(id: Int32, timestamp: Int32, env: Environment)
      requires Core() && !crashed
      modifies this, udpConnection
      ensures Core()
      ensures clock == old(clock).(mmTime := timestamp, lastUpdate := env.now)
      ensures clock.MmTime(env.now) == timestamp
      ensures FastSent(InMessage(timestamp, receiver.lastReliableId, false, Pong(id, timestamp)), env)
      ensures crashed == (old(BestChannelResult(env)) == NullConnection)
      ensures settings == old(settings) && link == old(link) && sendWindow == old(sendWindow)
      ensures receiver == old(receiver) && history == old(history)
      ensures registries == old(registries) && currentRoom == old(currentRoom) && events == old(events)
    {
      clock := clock.(mmTime := timestamp, lastUpdate := env.now);
      var r := FastWrite(InMessage(ToInt(clock.MmTime(env.now)), receiver.lastReliableId, false, Pong(id, timestamp)), env);
      if r == NullConnection {
        crashed := true;
      }
    }

    /** handleOutMessage(Pong): the listener of that ping, if still waiting, hears the
        round-trip time on the match clock. */
    method HandleServerPong(id: Int32, timestamp: Int32, env: Environment)
      requires Core() && !crashed
      modifies this
      ensures Core() && !crashed
      ensures registries == old(registries).(ping := old(registries.ping) - {id})
      ensures events == old(events) + Notify(Lookup(old(registries.ping), id), OnPong(clock.MmTime(env.now) - timestamp))
      ensures EngineKept() && currentRoom == old(currentRoom)
    {
      var l := Lookup(registries.ping, id);
      registries := registries.(ping := registries.ping - {id});
      events := events + Notify(l, OnPong(clock.MmTime(env.now) - timestamp));
    }

    /** handleOutMessage(RoomCreated) (`created`) and handleOutMessage(RoomJoined): on
        SUCCESS the reply's room replaces the current room; a failure drops the room's
        listeners and leaves the current room alone. */
    method HandleRoomReply(created: bool, status: Status, r: ProtoRoom)
      requires Core() && !crashed
      modifies this
      ensures Core() && !crashed
      ensures EngineKept()
      ensures status == SUCCESS ==>
                && fresh(currentRoom)
                && currentRoom.id == r.roomId && currentRoom.state == MatchStateOf(r.gameState, PENDING)
                && currentRoom.config == JavaMapOf(r.config)
                && currentRoom.properties == JavaMapOf(r.properties)
                && currentRoom.participants == ParticipantsOf(r.players, r.roomId)
                && registries == old(registries)
                && events == old(events) + Notify(ListenerOf(registries.room, r.roomId),
                                                  RoomReplyEvent(created, STATUS_SUCCESS, currentRoom))
      ensures status != SUCCESS ==> currentRoom == old(currentRoom)
      ensures RoomReplyFailureCode(created, status).Some? ==>
                && registries == old(registries).(room := old(registries.room) - {r.roomId},
                                                  rcv := old(registries.rcv) - {r.roomId})
                && events == old(events) + Notify(ListenerOf(old(registries.room), r.roomId),
                                                  RoomReplyEvent(created, RoomReplyFailureCode(created, status).value, null))
      ensures status != SUCCESS && RoomReplyFailureCode(created, status).None? ==>
                registries == old(registries) && events == old(events)
    {
      if status == SUCCESS {
        var participants := BuildParticipants(r.players, r.roomId);
        var state := MatchStateOf(r.gameState, PENDING);
        var config := ProtoMapToJavaMap(r.config);
        var properties := ProtoMapToJavaMap(r.properties);
        currentRoom := new Room(r.roomId, state, config, properties, participants);
        events := events + Notify(ListenerOf(registries.room, r.roomId), RoomReplyEvent(created, STATUS_SUCCESS, currentRoom));
        return;
      }
      var code := RoomReplyFailureCode(created, status);
      if code.Some? {
        var l := ListenerOf(registries.room, r.roomId);
        registries := registries.(room := registries.room - {r.roomId}, rcv := registries.rcv - {r.roomId});
        events := events + Notify(l, RoomReplyEvent(created, code.value, null));
      }
    }

    /** handleOutMessage(RoomLeft) (`left`) and handleOutMessage(RoomClosed): a push about
        the joined room clears it and its message listener; the room listener hears a
        known status and is dropped then. */
    method HandleRoomGone(left: bool, status: Status, roomId: string)
      requires Core() && !crashed
      modifies this
      ensures Core() && !crashed
      ensures EngineKept()
      ensures !InRoom(old(currentRoom), roomId) ==> unchanged(this)
      ensures InRoom(old(currentRoom), roomId) ==>
                && currentRoom == null
                && registries.rcv == old(registries.rcv) - {roomId}
                && registries.ping == old(registries.ping) && registries.snd == old(registries.snd)
                && registries.pingTimeouts == old(registries.pingTimeouts)
                && (RoomGoneCode(left, status).Some? ==>
                      && registries.room == old(registries.room) - {roomId}
                      && events == old(events) + Notify(ListenerOf(old(registries.room), roomId),
                                                        RoomGoneEvent(left, RoomGoneCode(left, status).value, roomId)))
                && (RoomGoneCode(left, status).None? ==>
                      registries.room == old(registries.room) && events == old(events))
    {
      if !InRoom(currentRoom, roomId) {
        return;
      }
      currentRoom := null;
      var code := RoomGoneCode(left, status);
      if code.Some? {
        var l := ListenerOf(registries.room, roomId);
        registries := registries.(rcv := registries.rcv - {roomId}, room := registries.room - {roomId});
        events := events + Notify(l, RoomGoneEvent(left, code.value, roomId));
      } else {
        registries := registries.(rcv := registries.rcv - {roomId});
      }
    }

    /** handleOutMessage(PeerJoinedRoom): the peer joins the current room's participants. */
    method HandlePeerJoined(roomId: string, player: Player)
      requires Core() && !crashed
      modifies this, currentRoom
      ensures Core() && !crashed
      ensures AllKept()
      ensures !InRoom(old(currentRoom), roomId) ==>
                unchanged(this) && (old(currentRoom) != null ==> unchanged(old(currentRoom)))
      ensures InRoom(old(currentRoom), roomId) ==>
                var peer := Participant(player.clientId, roomId, JavaMapOf(player.properties));
                && currentRoom.participants == old(currentRoom.participants)[player.clientId := peer]
                && currentRoom.state == old(currentRoom.state)
                && currentRoom.properties == old(currentRoom.properties)
                && events == old(events) + Notify(ListenerOf(registries.room, currentRoom.id),
                                                  OnPeerJoined(currentRoom, peer))
    {
      if !InRoom(currentRoom, roomId) {
        return;
      }
      var props := ProtoMapToJavaMap(player.properties);
      var peer := Participant(player.clientId, roomId, props);
      currentRoom.AddParticipant(peer);
      events := events + Notify(ListenerOf(registries.room, currentRoom.GetId()), OnPeerJoined(currentRoom, peer));
    }

    /** handleOutMessage(PeerLeftRoom): the peer leaves the current room's participants. */
    method HandlePeerLeft(roomId: string, clientId: string)
      requires Core() && !crashed
      modifies this, currentRoom
      ensures Core() && !crashed
      ensures AllKept()
      ensures !InRoom(old(currentRoom), roomId) ==>
                unchanged(this) && (old(currentRoom) != null ==> unchanged(old(currentRoom)))
      ensures InRoom(old(currentRoom), roomId) ==>
                && currentRoom.participants == old(currentRoom.participants) - {clientId}
                && currentRoom.state == old(currentRoom.state)
                && currentRoom.properties == old(currentRoom.properties)
                && events == old(events) + Notify(ListenerOf(registries.room, currentRoom.id),
                                                  OnPeerLeft(currentRoom, clientId))
    {
      if !InRoom(currentRoom, roomId) {
        return;
      }
      currentRoom.RemoveParticipant(clientId);
      events := events + Notify(ListenerOf(registries.room, currentRoom.GetId()), OnPeerLeft(currentRoom, clientId));
    }

    /** handleOutMessage(GameStateChanged): only SUCCESS moves the match state, and an
        unknown server state keeps the current one. */
    method HandleGameStateChanged(status: Status, roomId: string, gameState: GameState)
      requires Core() && !crashed
      modifies this, currentRoom
      ensures Core() && !crashed
      ensures AllKept()
      ensures !InRoom(old(currentRoom), roomId) ==>
                unchanged(this) && (old(currentRoom) != null ==> unchanged(old(currentRoom)))
      ensures InRoom(old(currentRoom), roomId) ==>
                && currentRoom.properties == old(currentRoom.properties)
                && currentRoom.participants == old(currentRoom.participants)
                && (status == SUCCESS ==>
                      && currentRoom.state == MatchStateOf(gameState, old(currentRoom.state))
                      && events == old(events) + Notify(ListenerOf(registries.room, currentRoom.id),
                                                        OnMatchStateChanged(STATUS_SUCCESS, currentRoom, currentRoom.state)))
                && (status != SUCCESS ==> currentRoom.state == old(currentRoom.state))
                && (MatchFailureCode(status).Some? ==>
                      events == old(events) + Notify(ListenerOf(registries.room, currentRoom.id),
                                                     OnMatchStateChanged(MatchFailureCode(status).value, currentRoom, UNKNOWN)))
                && (status != SUCCESS && MatchFailureCode(status).None? ==> events == old(events))
    {
      if !InRoom(currentRoom, roomId) {
        return;
      }
      if status == SUCCESS {
        var state := MatchStateOf(gameState, currentRoom.GetMatchState());
        currentRoom.SetMatchState(state);
        events := events + Notify(ListenerOf(registries.room, currentRoom.GetId()),
                                  OnMatchStateChanged(STATUS_SUCCESS, currentRoom, state));
        return;
      }
      var code := MatchFailureCode(status);
      if code.Some? {
        events := events + Notify(ListenerOf(registries.room, currentRoom.GetId()),
                                  OnMatchStateChanged(code.value, currentRoom, UNKNOWN));
      }
    }

    /** handleOutMessage(RoomPropertyUpdated): on SUCCESS the property is set, or removed
        when its value decodes to null; ROOM_NOT_JOINED names the local player. */
    method HandleRoomPropertyUpdated(status: Status, roomId: string, clientId: string, property: MapEntry)
      requires Core() && !crashed
      modifies this, currentRoom
      ensures Core() && !crashed
      ensures AllKept()
      ensures !InRoom(old(currentRoom), roomId) ==>
                unchanged(this) && (old(currentRoom) != null ==> unchanged(old(currentRoom)))
      ensures InRoom(old(currentRoom), roomId) ==>
                && currentRoom.state == old(currentRoom.state)
                && currentRoom.participants == old(currentRoom.participants)
                && (status == SUCCESS ==>
                      && currentRoom.properties == (match MapEntryToObject(property)
                                                    case None => old(currentRoom.properties) - {property.name}
                                                    case Some(v) => old(currentRoom.properties)[property.name := v])
                      && events == old(events) + Notify(ListenerOf(registries.room, currentRoom.id),
                                                        OnRoomPropertyChanged(STATUS_SUCCESS, currentRoom, clientId, property.name)))
                && (status != SUCCESS ==> currentRoom.properties == old(currentRoom.properties))
                && (status == ROOM_NOT_JOINED ==>
                      events == old(events) + Notify(ListenerOf(registries.room, currentRoom.id),
                                                     OnRoomPropertyChanged(STATUS_ROOM_NOT_JOINED, currentRoom, playerId, property.name)))
                && (status != SUCCESS && status != ROOM_NOT_JOINED ==> events == old(events))
    {
      if !InRoom(currentRoom, roomId) {
        return;
      }
      var name := property.name;
      var value := MapEntryToObject(property);
      if status == SUCCESS {
        if value.None? {
          currentRoom.RemoveProperty(name);
        } else {
          currentRoom.AddProperty(name, value.value);
        }
        events := events + Notify(ListenerOf(registries.room, currentRoom.GetId()),
                                  OnRoomPropertyChanged(STATUS_SUCCESS, currentRoom, clientId, name));
      } else if status == ROOM_NOT_JOINED {
        events := events + Notify(ListenerOf(registries.room, currentRoom.GetId()),
                                  OnRoomPropertyChanged(STATUS_ROOM_NOT_JOINED, currentRoom, playerId, name));
      }
    }

    /** handleOutMessage(PlayerPropertyUpdated): the same for a participant's property; a
        participant the room does not hold is left alone. */
    method HandlePlayerPropertyUpdated(status: Status, roomId: string, clientId: string, property: MapEntry)
      requires Core() && !crashed
      modifies this, currentRoom
      ensures Core() && !crashed
      ensures AllKept()
      ensures !InRoom(old(currentRoom), roomId) ==>
                unchanged(this) && (old(currentRoom) != null ==> unchanged(old(currentRoom)))
      ensures InRoom(old(currentRoom), roomId) ==>
                && currentRoom.state == old(currentRoom.state)
                && currentRoom.properties == old(currentRoom.properties)
                && (status == SUCCESS ==>
                      && currentRoom.participants ==
                           (if clientId !in old(currentRoom.participants) then old(currentRoom.participants)
                            else match MapEntryToObject(property)
                                 case None => old(currentRoom.participants)[clientId :=
                                                old(currentRoom.participants)[clientId].RemoveProperty(property.name)]
                                 case Some(v) => old(currentRoom.participants)[clientId :=
                                                   old(currentRoom.participants)[clientId].AddProperty(property.name, v)])
                      && events == old(events) + Notify(ListenerOf(registries.room, currentRoom.id),
                                                        OnParticipantPropertyChanged(STATUS_SUCCESS, currentRoom, clientId, property.name)))
                && (status != SUCCESS ==> currentRoom.participants == old(currentRoom.participants))
                && (status == ROOM_NOT_JOINED ==>
                      events == old(events) + Notify(ListenerOf(registries.room, currentRoom.id),
                                                     OnParticipantPropertyChanged(STATUS_ROOM_NOT_JOINED, currentRoom, playerId, property.name)))
                && (status != SUCCESS && status != ROOM_NOT_JOINED ==> events == old(events))
    {
      if !InRoom(currentRoom, roomId) {
        return;
      }
      var name := property.name;
      var value := MapEntryToObject(property);
      if status == SUCCESS {
        if value.None? {
          currentRoom.RemoveParticipantProperty(clientId, name);
        } else {
          currentRoom.AddParticipantProperty(clientId, name, value.value);
        }
        events := events + Notify(ListenerOf(registries.room, currentRoom.GetId()),
                                  OnParticipantPropertyChanged(STATUS_SUCCESS, currentRoom, clientId, name));
      } else if status == ROOM_NOT_JOINED {
        events := events + Notify(ListenerOf(registries.room, currentRoom.GetId()),
                                  OnParticipantPropertyChanged(STATUS_ROOM_NOT_JOINED, currentRoom, playerId, name));
      }
    }

    /** handleOutMessage(RoomMessage): the joined room's message listener receives the
        message, filed under the room's own id. */
    method HandleRoomMessage(roomId: string, fromId: string, tag: Int32, payload: seq<MapEntry>)
      requires Core() && !crashed
      modifies this
      ensures Core() && !crashed
      ensures AllKept()
      ensures !InRoom(old(currentRoom), roomId) ==> unchanged(this)
      ensures InRoom(old(currentRoom), roomId) ==>
                events == old(events) + Notify(ListenerOf(registries.rcv, currentRoom.id),
                                               SessionTypes.OnMessageReceived(Message(currentRoom.id, fromId, tag, JavaMapOf(payload))))
    {
      if !InRoom(currentRoom, roomId) {
        return;
      }
      var jpayload := ProtoMapToJavaMap(payload);
      var message := Message(currentRoom.GetId(), fromId, tag, jpayload);
      events := events + Notify(ListenerOf(registries.rcv, currentRoom.GetId()), SessionTypes.OnMessageReceived(message));
    }

    /** handleOutMessage(Ack): the sender of that reliable message hears its fate once. */
    method HandleAck(status: Status, msgid: Int32)
      requires Core() && !crashed
      modifies this
      ensures Core() && !crashed
      ensures registries == old(registries).(snd := old(registries.snd) - {msgid})
      ensures events == old(events) + Notify(Lookup(old(registries.snd), msgid),
                                             OnMessageSent(AckStatusCode(status), msgid))
      ensures EngineKept() && currentRoom == old(currentRoom)
    {
      var l := Lookup(registries.snd, msgid);
      registries := registries.(snd := registries.snd - {msgid});
      events := events + Notify(l, OnMessageSent(AckStatusCode(status), msgid));
    }
  }
}
