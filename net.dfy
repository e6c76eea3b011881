/**
 * The client's one TCP connection, seen from the client: what the server
 * will deliver to the next recv calls, whether each coming send succeeds,
 * and what has reached the server so far.
 */
module Net {
  import opened CStd

  /**
   * What one recv call yields: a token (a zero-byte read yields the empty
   * token and does not end the session), a negative return, or nothing at
   * all: the server stays silent and recv blocks for ever.
   */
  datatype RecvResult = Got(data: string) | Failed | Silent

  /**
   * The bytes of one successful send call. TCP is a byte stream: the
   * server sees the concatenation, not where one send ended and the next
   * began.
   */
  datatype Packet = Text(text: string) | Chunk(bytes: seq<byte>)

  /**
   * The connection as a value. `inbound` is what the coming recv calls
   * return, in order (when it runs out, recv blocks); `outcomes` says, in
   * order, whether the coming send calls succeed (when it runs out, every
   * send succeeds); `sent` logs the successful send calls, whose bytes,
   * concatenated, are what the server has received.
   */
  datatype Wire = Wire(inbound: seq<RecvResult>, outcomes: seq<bool>, sent: seq<Packet>, open: bool)

  /** recv: take the next result off the script; a silent server leaves the wire as it is. */
  function ReceiveOn(w: Wire): (res: (RecvResult, Wire))
    ensures res.0.Silent? ==> res.1 == w
    ensures !res.0.Silent? ==> w.inbound != [] && res.0 == w.inbound[0] && res.1 == w.(inbound := w.inbound[1..])
  {
    if w.inbound == [] || w.inbound[0].Silent? then (Silent, w)
    else (w.inbound[0], w.(inbound := w.inbound[1..]))
  }

  /** send: consume the next outcome; only a successful send reaches the server. */
  function SendOn(w: Wire, p: Packet): (res: (bool, Wire))
    ensures res.1.inbound == w.inbound && res.1.open == w.open
    ensures res.0 ==> res.1.sent == w.sent + [p]
    ensures !res.0 ==> res.1.sent == w.sent
    ensures res.0 <==> w.outcomes == [] || w.outcomes[0]
  {
    var ok := w.outcomes == [] || w.outcomes[0];
    var rest := if w.outcomes == [] then [] else w.outcomes[1..];
    (ok, w.(outcomes := rest, sent := if ok then w.sent + [p] else w.sent))
  }

  /** The socket descriptor. */
  class Socket {
    var inbound: seq<RecvResult>
    var outcomes: seq<bool>
    var sent: seq<Packet>
    var open: bool

    function State(): Wire
      reads this
    {
      Wire(inbound, outcomes, sent, open)
    }

    constructor (w: Wire)
      ensures State() == w
    {
      inbound, outcomes, sent, open := w.inbound, w.outcomes, w.sent, w.open;
    }

    /** recv(sockfd, server_reply, 2000, 0) */
    method Receive() returns (r: RecvResult)
      modifies this
      ensures (r, State()) == ReceiveOn(old(State()))
    {
      if inbound == [] || inbound[0].Silent? {
        r := Silent;
      } else {
        r := inbound[0];
        inbound := inbound[1..];
      }
    }

    /** send(sockfd, p, length, 0) */
    method Send(p: Packet) returns (ok: bool)
      modifies this
      ensures (ok, State()) == SendOn(old(State()), p)
    {
      ok := outcomes == [] || outcomes[0];
      if outcomes != [] {
        outcomes := outcomes[1..];
      }
      if ok {
        sent := sent + [p];
      }
    }

    /** close(sockfd) */
    method Close()
      modifies this
      ensures State() == old(State()).(open := false)
    {
      open := false;
    }
  }
}
