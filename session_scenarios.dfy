/** Concrete runs of the session engine: the sequencing of envelopes that arrive out of
    order or twice, and the life cycle of a session object from construction to a
    repeated disconnection. */
module SessionScenarios {
  import opened Wrappers
  import opened RealtimeTypes
  import opened Proto
  import opened SessionTypes
  import opened Sessions

  /** An envelope with id `id` whose push the session does not know. */
  function Envelope(id: int, reliable: bool): OutMessage {
    OutMessage(id, 0, reliable, UnknownPush)
  }

  /** The ids of `msgs`, in order. */
  function Ids(msgs: seq<OutMessage>): (ids: seq<int>)
    ensures |ids| == |msgs| && forall i | 0 <= i < |msgs| :: ids[i] == msgs[i].msgid
  {
    if msgs == [] then [] else [msgs[0].msgid] + Ids(msgs[1..])
  }

  /** The five arrivals of the run below, one at a time. */
  lemma ReliableSteps(m1: OutMessage, m2: OutMessage, m3: OutMessage, m4: OutMessage, m5: OutMessage)
    requires m1 == Envelope(1, true) && m2 == Envelope(2, true) && m3 == Envelope(3, true)
    requires m4 == Envelope(4, true) && m5 == Envelope(5, true)
    ensures ReliableArrival(Receiver(0, 0, map[]), m1).0 == Receiver(1, 0, map[])
    ensures ReliableArrival(Receiver(0, 0, map[]), m1).1 == [m1]
    ensures ReliableArrival(Receiver(1, 0, map[]), m3).0 == Receiver(1, 0, map[3 := m3])
    ensures ReliableArrival(Receiver(1, 0, map[]), m3).1 == []
    ensures ReliableArrival(Receiver(1, 0, map[3 := m3]), m2).0 == Receiver(3, 0, map[])
    ensures ReliableArrival(Receiver(1, 0, map[3 := m3]), m2).1 == [m2, m3]
    ensures ReliableArrival(Receiver(3, 0, map[]), m5).0 == Receiver(3, 0, map[5 := m5])
    ensures ReliableArrival(Receiver(3, 0, map[]), m5).1 == []
    ensures ReliableArrival(Receiver(3, 0, map[5 := m5]), m4).0 == Receiver(5, 0, map[])
    ensures ReliableArrival(Receiver(3, 0, map[5 := m5]), m4).1 == [m4, m5]
  {
    var none: map<int, OutMessage> := map[];
    NextGapIs(none, 1, 1);
    assert Without(none, 2, 1) == none;
    assert Run(none, 2, 1) == [];
    NextGapIs(map[3 := m3], 2, 3);
    assert Without(map[3 := m3], 3, 3) == none;
    assert Run(map[3 := m3], 3, 3) == [m3];
    NextGapIs(map[5 := m5], 4, 5);
    assert Without(map[5 := m5], 5, 5) == none;
    assert Run(map[5 := m5], 5, 5) == [m5];
  }

  /** One more arrival in front of a run whose outcome is known. */
  lemma ReliableFold(r: Receiver, m: OutMessage, rest: seq<OutMessage>, mid: Receiver, d1: seq<OutMessage>,
                     fin: Receiver, d2: seq<OutMessage>)
    requires ReliableArrival(r, m).0 == mid && ReliableArrival(r, m).1 == d1
    requires ReliableArrivals(mid, rest).0 == fin && ReliableArrivals(mid, rest).1 == d2
    ensures ReliableArrivals(r, [m] + rest).0 == fin && ReliableArrivals(r, [m] + rest).1 == d1 + d2
  {
    assert ([m] + rest)[0] == m && ([m] + rest)[1..] == rest;
  }

  /** Reliable envelopes 1, 3, 2, 5, 4 on a fresh session: 3 waits for 2, 5 waits for 4,
      and all five are handled in id order, each once. */
  lemma ReliableOutOfOrder()
    ensures var a := ReliableArrivals(Receiver(0, 0, map[]),
                                      [Envelope(1, true), Envelope(3, true), Envelope(2, true),
                                       Envelope(5, true), Envelope(4, true)]);
            Ids(a.1) == [1, 2, 3, 4, 5] && a.0 == Receiver(5, 0, map[])
  {
    var m1, m2, m3, m4, m5 := Envelope(1, true), Envelope(2, true), Envelope(3, true), Envelope(4, true), Envelope(5, true);
    ReliableSteps(m1, m2, m3, m4, m5);
    var r5 := Receiver(5, 0, map[]);
    var none: seq<OutMessage> := [];
    ReliableFold(Receiver(3, 0, map[5 := m5]), m4, none, r5, [m4, m5], r5, none);
    ReliableFold(Receiver(3, 0, map[]), m5, [m4] + none, Receiver(3, 0, map[5 := m5]), none, r5, [m4, m5] + none);
    ReliableFold(Receiver(1, 0, map[3 := m3]), m2, [m5] + ([m4] + none), Receiver(3, 0, map[]), [m2, m3],
                 r5, none + ([m4, m5] + none));
    ReliableFold(Receiver(1, 0, map[]), m3, [m2] + ([m5] + ([m4] + none)), Receiver(1, 0, map[3 := m3]), none,
                 r5, [m2, m3] + (none + ([m4, m5] + none)));
    ReliableFold(Receiver(0, 0, map[]), m1, [m3] + ([m2] + ([m5] + ([m4] + none))), Receiver(1, 0, map[]), [m1],
                 r5, none + ([m2, m3] + (none + ([m4, m5] + none))));
    assert [m1] + ([m3] + ([m2] + ([m5] + ([m4] + none)))) == [m1, m3, m2, m5, m4];
    assert [m1] + (none + ([m2, m3] + (none + ([m4, m5] + none)))) == [m1, m2, m3, m4, m5];
  }

  /** Unreliable envelopes 5, 3, 9, 9, 7: only 5 and the first 9 are handled; the late 3
      and 7 and the repeated 9 are dropped. */
  lemma UnreliableDropsLate()
    ensures var a := UnreliableArrivals(Receiver(0, 0, map[]),
                                        [Envelope(5, false), Envelope(3, false), Envelope(9, false),
                                         Envelope(9, false), Envelope(7, false)]);
            Ids(a.1) == [5, 9] && a.0.lastUnreliableId == 9
  {
  }

  /** A session just built: setMaxRetries keeps the budget at 3, an envelope past a gap
      waits in the reorder buffer, and a repeated one changes nothing. */
  method Lifecycle() returns (s: Session)
    ensures s.settings.maxRetries == 3
    ensures s.receiver == Receiver(0, 0, map[2 := Envelope(2, true)])
    ensures s.wire == [] && s.events == []
    ensures s.link.status == DISCONNECTED && s.Valid() && !s.crashed
  {
    s := new Session("realtime.scoreflex.com", 12345, "player", "game", "token", (m: InMessage) => []);
    s.SetMaxRetries(5);
    var env := Environment(0, true, true);
    s.OnReliableMessageReceived(Envelope(2, true), env);
    s.OnReliableMessageReceived(Envelope(2, true), env);
  }

  /** Disconnecting twice: the first disconnection says goodbye on the connection, the
      second finds the session disconnected and writes nothing more. */
  method DisconnectTwice(s: Session)
    requires s.Valid() && !s.crashed && s.link.status == CONNECTED && s.link.connection.Some?
    modifies s, s.udpConnection
    ensures s.IsReset() && !s.crashed
    ensures s.wire == old(s.wire) + [TcpDisconnect(old(s.link.connection).value, InMessage(0, 0, true, Disconnect))]
  {
    s.DoDisconnect();
    ghost var once := s.wire;
    s.DoDisconnect();
    assert s.wire == once;
  }
}
