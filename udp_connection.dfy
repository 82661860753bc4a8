/** The UDP channel: one header byte in front of every datagram, a heartbeat the server
    answers, and the `is_connected` flag that tells the session whether the channel
    can be used. Socket I/O outcomes are parameters. */
module Udp {

  const MESSAGE: bv8 := 0x00
  const HEARTBEAT: bv8 := 0x80
  const START_SEQ: bv8 := 0x40
  const END_SEQ: bv8 := 0x20

  /** The receive buffer's size: longer datagrams are cut to it. */
  const BUFFER_SIZE: nat := 8192

  /** The header of every data datagram the client sends. */
  const DATA_HEADER: bv8 := MESSAGE | START_SEQ | END_SEQ

  /** The heartbeat datagram: a header alone. */
  const HEARTBEAT_DATAGRAM: seq<bv8> := [HEARTBEAT | START_SEQ | END_SEQ]

  /** sendMessage's datagram: the header byte, then the encoded envelope. */
  function Frame(body: seq<bv8>): (d: seq<bv8>)
    ensures |d| == 1 + |body|
    ensures d[0] == 0x60
    ensures d[1..] == body
  {
    [DATA_HEADER] + body
  }

  /** What the receive loop does with one datagram. */
  datatype Received =
    | Skipped                  // a heartbeat (or any datagram with the heartbeat bit)
    | Delivered(body: seq<bv8>) // handed to the envelope parser
    | Failed                   // copying the body throws: the receive task dies

  /** Classifies a received datagram. The header is read from the receive buffer, so an
      empty datagram is judged by `staleHeader`, the first byte of the previous one. */
  function Classify(datagram: seq<bv8>, staleHeader: bv8): (r: Received)
    ensures |datagram| > 0 && datagram[0] & HEARTBEAT == HEARTBEAT ==> r == Skipped
    ensures |datagram| > 0 && datagram[0] & HEARTBEAT != HEARTBEAT ==>
              r == Delivered(datagram[1..if |datagram| <= BUFFER_SIZE then |datagram| else BUFFER_SIZE])
    ensures |datagram| == 0 ==> r == if staleHeader & HEARTBEAT == HEARTBEAT then Skipped else Failed
  {
    var n := if |datagram| <= BUFFER_SIZE then |datagram| else BUFFER_SIZE;
    var header := if n > 0 then datagram[0] else staleHeader;
    if header & HEARTBEAT == HEARTBEAT then Skipped
    else if n == 0 then Failed
    else Delivered(datagram[1..n])
  }

  /** Framing then classifying gives back the body: the header never has the heartbeat bit. */
  lemma ClassifyFrame(body: seq<bv8>, staleHeader: bv8)
    requires |body| < BUFFER_SIZE
    ensures Classify(Frame(body), staleHeader) == Delivered(body)
  {
    assert DATA_HEADER & HEARTBEAT == 0;
  }

  /** The heartbeat is a single byte 0xE0 and is always skipped. */
  lemma HeartbeatSkipped(staleHeader: bv8)
    ensures HEARTBEAT_DATAGRAM == [0xE0]
    ensures Classify(HEARTBEAT_DATAGRAM, staleHeader) == Skipped
  {
  }

  class UdpConnection {
    const host: string
    const port: int
    var isConnected: bool
    /** The receive task is running. */
    var running: bool
    /** The first byte of the receive buffer. */
    var staleHeader: bv8
    /** Every datagram written to the socket, in order, whether or not the write succeeded. */
    var sent: seq<seq<bv8>>
    /** Every body handed to the envelope parser, in order. */
    var delivered: seq<seq<bv8>>

    constructor (host: string, port: int)
      ensures this.host == host && this.port == port
      ensures !isConnected && !running && staleHeader == 0
      ensures sent == [] && delivered == []
    {
      this.host := host;
      this.port := port;
      isConnected := false;
      running := false;
      staleHeader := 0;
      sent := [];
      delivered := [];
    }

    /** connect(): starts the receive task, whose first act is to send the heartbeat;
        if that send fails the task ends. */
    method Connect(heartbeatSent: bool)
      modifies this
      ensures running == heartbeatSent
      ensures sent == old(sent) + [HEARTBEAT_DATAGRAM]
      ensures isConnected == old(isConnected) && staleHeader == old(staleHeader)
      ensures delivered == old(delivered)
    {
      sent := sent + [HEARTBEAT_DATAGRAM];
      running := heartbeatSent;
    }

    /** disconnect(): cancels the receive task. */
    method Disconnect()
      modifies this
      ensures !running
      ensures isConnected == old(isConnected) && staleHeader == old(staleHeader)
      ensures sent == old(sent) && delivered == old(delivered)
    {
      running := false;
    }

    /** sendMessage(message): writes the framed envelope; a failed write clears
        `is_connected` and reports false. */
    method SendMessage(body: seq<bv8>, written: bool) returns (ok: bool)
      modifies this
      ensures ok == written
      ensures sent == old(sent) + [Frame(body)]
      ensures isConnected == (old(isConnected) && written)
      ensures running == old(running) && staleHeader == old(staleHeader)
      ensures delivered == old(delivered)
    {
      sent := sent + [Frame(body)];
      if !written {
        isConnected := false;
      }
      ok := written;
    }

    /** One turn of the receive loop that got a datagram: any datagram, heartbeats
        included, marks the channel connected. */
    method OnDatagram(datagram: seq<bv8>)
      requires running
      modifies this
      ensures isConnected
      ensures var r := Classify(datagram, old(staleHeader));
              && delivered == old(delivered) + (if r.Delivered? then [r.body] else [])
              && running == !r.Failed?
      ensures staleHeader == if |datagram| > 0 then datagram[0] else old(staleHeader)
      ensures sent == old(sent)
    {
      isConnected := true;
      var r := Classify(datagram, staleHeader);
      if |datagram| > 0 {
        staleHeader := datagram[0];
      }
      match r
      case Skipped =>
      case Delivered(body) =>
        delivered := delivered + [body];
      case Failed =>
        running := false;
    }

    /** One turn of the receive loop that timed out: the heartbeat is sent again and the
        loop goes on, unless that send fails. */
    method OnReceiveTimeout(heartbeatSent: bool)
      requires running
      modifies this
      ensures sent == old(sent) + [HEARTBEAT_DATAGRAM]
      ensures running == heartbeatSent
      ensures isConnected == old(isConnected) && staleHeader == old(staleHeader)
      ensures delivered == old(delivered)
    {
      sent := sent + [HEARTBEAT_DATAGRAM];
      running := heartbeatSent;
    }
  }

  /** A client of the channel: it is not connected until a datagram arrives, a heartbeat
      reply connects it without delivering anything, and a failed send disconnects it. */
  method ChannelLifecycle(body: seq<bv8>) returns (udp: UdpConnection)
    ensures !udp.isConnected && udp.delivered == []
    ensures udp.sent == [HEARTBEAT_DATAGRAM, Frame(body)]
  {
    udp := new UdpConnection("host", 1);
    udp.Connect(true);
    assert !udp.isConnected;
    udp.OnDatagram([0xE0]);
    assert udp.isConnected && udp.delivered == [];
    var ok := udp.SendMessage(body, false);
  }
}
