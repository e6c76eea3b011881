/**
 * The second variant of the client (client.c). Each pass of its loop
 * receives a command token and matches it with strcmp against up, down,
 * left, right, speed and file through independent ifs, then replies "OK".
 * Its go() drives for a moment and then stops the wheels and idles the
 * motors again, and its wheel signs are the opposite of the first
 * variant's. It has no "stop" and no "diode" branch.
 */
module Client {
  import opened CStd
  import opened Gateway
  import opened Net
  import opened FileStream
  import opened Sensors
  import opened Session

  /** Size of the file-transfer buffer. */
  const LENGTH := 512
  /** motorSpeed before any "speed" command. */
  const INITIAL_SPEED := 100
  /** After the loop: every LED off except the red channel of the left LED. */
  const EXIT_LEDS := Leds(1, 0, 0, 0, 0, 0, 0, 0, 0)
  /** The reply of this variant, copied into message before every end-of-pass send. */
  const OK := "OK"

  // ---------------------------------------------------------------------
  // Motion commands.

  /**
   * go(num1, num2, rotate): speed regulation, both wheels, a pause of
   * 100 ms, then the wheels stopped and the motors idle again.
   */
  function GoCalls(num1: int, num2: int, rotate: real): seq<Call> {
    [SetModeTo(Speed), SetSpeedTo(Scale(num1, rotate), Scale(num2, rotate)), SetSpeedTo(0, 0), SetModeTo(Idle)]
  }

  method Go(dev: Device, num1: int, num2: int, rotate: real)
    requires dev.Valid()
    modifies dev
    ensures dev.Valid() && dev.battery == old(dev.battery)
    ensures dev.calls == old(dev.calls) + GoCalls(num1, num2, rotate)
    ensures dev.State() == Hw(Idle, 0, 0, old(dev.leds))
  {
    dev.SetMode(Speed);
    dev.SetSpeed(Scale(num1, rotate), Scale(num2, rotate));
    dev.SetSpeed(0, 0);
    dev.SetMode(Idle);
  }

  /**
   * The calls of the four motion branches. They are independent ifs in
   * the loop, but strcmp can find at most one of the four words, so at
   * most one of them fires.
   */
  function MotionCalls(token: string, ms: int): seq<Call> {
    if token == "up" then GoCalls(-ms, -ms, STRAIGHT)
    else if token == "down" then GoCalls(ms, ms, STRAIGHT)
    else if token == "left" then GoCalls(ms, -ms, ROTATE_HIGH_SPEED_FACT)
    else if token == "right" then GoCalls(-ms, ms, ROTATE_HIGH_SPEED_FACT)
    else []
  }

  method Motion(dev: Device, token: string, ms: int)
    requires dev.Valid()
    modifies dev
    ensures dev.Valid() && dev.battery == old(dev.battery)
    ensures dev.calls == old(dev.calls) + MotionCalls(token, ms)
  {
    if token == "up" {
      Go(dev, -ms, -ms, STRAIGHT);
    }
    if token == "down" {
      Go(dev, ms, ms, STRAIGHT);
    }
    if token == "left" {
      Go(dev, ms, -ms, ROTATE_HIGH_SPEED_FACT);
    }
    if token == "right" {
      Go(dev, -ms, ms, ROTATE_HIGH_SPEED_FACT);
    }
  }

  // ---------------------------------------------------------------------
  // The "speed" exchange.

  /**
   * "speed": clear the buffer, send message, receive a reply, then store
   * the address of the reply buffer (not its contents) into motorSpeed
   * and clear the buffer again. A failed send leaves main with 1; a
   * failed recv breaks out of the loop.
   */
  function SpeedCommand(token: string, ms: int, message: string, address: int, w: Wire): (s: Step)
    ensures s.calls == [] && |s.wire.inbound| <= |w.inbound|
  {
    if token != "speed" then Step(Running, token, [], ms, w)
    else
      var (ok, w1) := SendOn(w, Text(message));
      if !ok then Step(Stopped(Returned(1)), "", [], ms, w1)
      else
        var (r, w2) := ReceiveOn(w1);
        match r
        case Silent => Step(Stopped(Blocked), "", [], ms, w2)
        case Failed => Step(Broke, "", [], ms, w2)
        case Got(_) => Step(Running, "", [], address, w2)
  }

  method SpeedExchange(sock: Socket, token: string, ms: int, message: string, address: int)
      returns (status: Status, token': string, ms': int)
    modifies sock
    ensures Step(status, token', [], ms', sock.State()) == SpeedCommand(token, ms, message, address, old(sock.State()))
  {
    status, token', ms' := Running, token, ms;
    if token == "speed" {
      token' := "";
      var ok := sock.Send(Text(message));
      if !ok {
        status := Stopped(Returned(1));
        return;
      }
      var r := sock.Receive();
      match r
      case Silent =>
        status := Stopped(Blocked);
      case Failed =>
        status := Broke;
      case Got(_) =>
        ms' := address;
    }
  }

  // ---------------------------------------------------------------------
  // The "file" command.

  /**
   * "file": the proximity report is written and reopened for reading; if
   * it cannot be opened the process exits with 1, otherwise it is
   * streamed in blocks of LENGTH bytes. A failed block send ends the
   * streaming only.
   */
  function FileCommand(token: string, ms: int, report: Option<seq<byte>>, w: Wire): (s: Step)
    ensures s.calls == [] && s.speed == ms && s.token == token
    ensures s.wire.inbound == w.inbound
  {
    if token != "file" then Step(Running, token, [], ms, w)
    else
      match report
      case None => Step(Stopped(Exited(1)), token, [], ms, w)
      case Some(bytes) =>
        SendChunksDelivers(w, Chunks(bytes, LENGTH));
        Step(Running, token, [], ms, SendChunks(w, Chunks(bytes, LENGTH)))
  }

  /** sensors and bars hold the twelve decoded proximity channels of proximity and their bars. */
  predicate Drawn(proximity: seq<byte>, sensors: array<int>, bars: array<string>)
    requires 2 * PROXIMITY_CHANNELS <= |proximity|
    requires PROXIMITY_CHANNELS <= sensors.Length && PROXIMITY_CHANNELS <= bars.Length
    reads sensors, bars
  {
    sensors[..PROXIMITY_CHANNELS] == Channels(proximity, PROXIMITY_CHANNELS) &&
    forall i :: 0 <= i < PROXIMITY_CHANNELS ==> bars[i] == IrBar(IrLevel(sensors[i]))
  }

  /**
   * The "file" branch: decode the twelve proximity channels and draw
   * their bars (the report printed into the file), then stream the file.
   */
  method FileTransfer(sock: Socket, token: string, ms: int, report: Option<seq<byte>>,
                      proximity: seq<byte>, sensors: array<int>, bars: array<string>) returns (status: Status)
    requires 2 * PROXIMITY_CHANNELS <= |proximity|
    requires PROXIMITY_CHANNELS <= sensors.Length && PROXIMITY_CHANNELS <= bars.Length
    modifies sock, sensors, bars
    ensures var want := FileCommand(token, ms, report, old(sock.State()));
            status == want.status && sock.State() == want.wire
    ensures token == "file" ==> Drawn(proximity, sensors, bars)
    ensures token != "file" ==> sensors[..] == old(sensors[..]) && bars[..] == old(bars[..])
    ensures sensors[PROXIMITY_CHANNELS..] == old(sensors[PROXIMITY_CHANNELS..])
    ensures bars[PROXIMITY_CHANNELS..] == old(bars[PROXIMITY_CHANNELS..])
  {
    status := Running;
    if token == "file" {
      ProximityBars(proximity, sensors, bars);
      if report.None? {
        status := Stopped(Exited(1));
        return;
      }
      StreamFile(sock, report.value, LENGTH);
    }
  }

  // ---------------------------------------------------------------------
  // One pass of the loop and the whole session.

  /**
   * One pass of the loop body with motorSpeed ms and message as the
   * previous pass left it: receive a token (a failed recv breaks out of
   * the loop), run the motion branch whose word it is, then the
   * exchanges.
   */
  function Iteration(ms: int, message: string, address: int, w: Wire, report: Option<seq<byte>>): (s: Step)
    ensures |s.wire.inbound| <= |w.inbound|
    ensures s.status != Stopped(Blocked) ==> |s.wire.inbound| < |w.inbound|
  {
    var (r, w1) := ReceiveOn(w);
    match r
    case Silent => Step(Stopped(Blocked), "", [], ms, w1)
    case Failed => Step(Broke, "", [], ms, w1)
    case Got(data) => OnToken(CStr(data), ms, message, address, w1, report)
  }

  /** A pass once a token has arrived: the motion branch whose word it is, then the exchanges. */
  function OnToken(token: string, ms: int, message: string, address: int, w: Wire, report: Option<seq<byte>>): (s: Step)
    ensures |s.wire.inbound| <= |w.inbound|
  {
    After(MotionCalls(token, ms), FromSpeed(token, ms, message, address, w, report))
  }

  /** The rest of a pass from the "speed" branch on. */
  function FromSpeed(token: string, ms: int, message: string, address: int, w: Wire, report: Option<seq<byte>>): (s: Step)
    ensures s.calls == [] && |s.wire.inbound| <= |w.inbound|
  {
    var sp := SpeedCommand(token, ms, message, address, w);
    if !sp.status.Running? then sp
    else FromFile(sp.token, sp.speed, sp.wire, report)
  }

  /** The rest of a pass from the "file" branch on: "OK" is copied into message and sent. */
  function FromFile(token: string, ms: int, w: Wire, report: Option<seq<byte>>): (s: Step)
    ensures s.speed == ms && s.calls == [] && s.wire.inbound == w.inbound
  {
    var fi := FileCommand(token, ms, report, w);
    if !fi.status.Running? then fi
    else
      var (ok, w2) := SendOn(fi.wire, Text(OK));
      Step(if ok then Running else Stopped(Returned(1)), "", [], ms, w2)
  }

  method Iterate(dev: Device, sock: Socket, ms: int, message: string, address: int, report: Option<seq<byte>>,
                 proximity: seq<byte>, sensors: array<int>, bars: array<string>)
      returns (status: Status, ms': int)
    requires dev.Valid()
    requires 2 * PROXIMITY_CHANNELS <= |proximity|
    requires PROXIMITY_CHANNELS <= sensors.Length && PROXIMITY_CHANNELS <= bars.Length
    modifies dev, sock, sensors, bars
    ensures dev.Valid() && dev.battery == old(dev.battery)
    ensures var want := Iteration(ms, message, address, old(sock.State()), report);
            status == want.status && ms' == want.speed && sock.State() == want.wire &&
            dev.calls == old(dev.calls) + want.calls
    ensures var r := ReceiveOn(old(sock.State())).0;
            if r.Got? && CStr(r.data) == "file" then Drawn(proximity, sensors, bars)
            else sensors[..] == old(sensors[..]) && bars[..] == old(bars[..])
    ensures Drawn(proximity, sensors, bars) || (sensors[..] == old(sensors[..]) && bars[..] == old(bars[..]))
    ensures sensors[PROXIMITY_CHANNELS..] == old(sensors[PROXIMITY_CHANNELS..])
    ensures bars[PROXIMITY_CHANNELS..] == old(bars[PROXIMITY_CHANNELS..])
  {
    ms' := ms;
    var r := sock.Receive();
    if r.Silent? {
      return Stopped(Blocked), ms';
    }
    if r.Failed? {
      return Broke, ms';
    }
    status, ms' := Handle(dev, sock, CStr(r.data), ms, message, address, report, proximity, sensors, bars);
  }

  /** A pass once a token has arrived: the motion branches, then the exchanges. */
  method Handle(dev: Device, sock: Socket, token: string, ms: int, message: string, address: int,
                report: Option<seq<byte>>, proximity: seq<byte>, sensors: array<int>, bars: array<string>)
      returns (status: Status, ms': int)
    requires dev.Valid()
    requires 2 * PROXIMITY_CHANNELS <= |proximity|
    requires PROXIMITY_CHANNELS <= sensors.Length && PROXIMITY_CHANNELS <= bars.Length
    modifies dev, sock, sensors, bars
    ensures dev.Valid() && dev.battery == old(dev.battery)
    ensures var want := OnToken(token, ms, message, address, old(sock.State()), report);
            status == want.status && ms' == want.speed && sock.State() == want.wire &&
            dev.calls == old(dev.calls) + want.calls
    ensures token == "file" ==> Drawn(proximity, sensors, bars)
    ensures token != "file" ==> sensors[..] == old(sensors[..]) && bars[..] == old(bars[..])
    ensures sensors[PROXIMITY_CHANNELS..] == old(sensors[PROXIMITY_CHANNELS..])
    ensures bars[PROXIMITY_CHANNELS..] == old(bars[PROXIMITY_CHANNELS..])
  {
    Motion(dev, token, ms);
    status, ms' := Dispatch(sock, token, ms, message, address, report, proximity, sensors, bars);
    assert MotionCalls(token, ms) + [] == MotionCalls(token, ms);
  }

  /** The exchanges of one pass, after the motion branches. */
  method Dispatch(sock: Socket, token: string, ms: int, message: string, address: int,
                  report: Option<seq<byte>>, proximity: seq<byte>, sensors: array<int>, bars: array<string>)
      returns (status: Status, ms': int)
    requires 2 * PROXIMITY_CHANNELS <= |proximity|
    requires PROXIMITY_CHANNELS <= sensors.Length && PROXIMITY_CHANNELS <= bars.Length
    modifies sock, sensors, bars
    ensures var want := FromSpeed(token, ms, message, address, old(sock.State()), report);
            status == want.status && ms' == want.speed && sock.State() == want.wire
    ensures token == "file" ==> Drawn(proximity, sensors, bars)
    ensures token != "file" ==> sensors[..] == old(sensors[..]) && bars[..] == old(bars[..])
    ensures sensors[PROXIMITY_CHANNELS..] == old(sensors[PROXIMITY_CHANNELS..])
    ensures bars[PROXIMITY_CHANNELS..] == old(bars[PROXIMITY_CHANNELS..])
  {
    var token' := token;
    status, token', ms' := SpeedExchange(sock, token, ms, message, address);
    if !status.Running? {
      return;
    }
    status := FileTransfer(sock, token', ms', report, proximity, sensors, bars);
    if !status.Running? {
      return;
    }
    var ok := sock.Send(Text(OK));
    if !ok {
      status := Stopped(Returned(1));
    }
  }

  /**
   * The session from a pass with motorSpeed ms and the given message
   * onward. Every pass that goes round again has copied "OK" into message.
   * Breaking out of the loop closes the socket, stops the robot, idles
   * the motors and sets the exit LEDs, then main returns 0.
   */
  function RunFrom(ms: int, message: string, address: int, w: Wire, report: Option<seq<byte>>): Finish
    decreases |w.inbound|
  {
    var s := Iteration(ms, message, address, w, report);
    match s.status
    case Running =>
      var rest := RunFrom(s.speed, OK, address, s.wire, report);
      Finish(rest.outcome, s.calls + rest.calls, rest.wire)
    case Broke => Finish(Returned(0), s.calls + ShutdownCalls(EXIT_LEDS), s.wire.(open := false))
    case Stopped(o) => Finish(o, s.calls, s.wire)
  }

  /**
   * The main loop from the first pass, with motorSpeed at its initial 100
   * and message still holding whatever the uninitialised array held, and
   * the code after it.
   */
  method Run(dev: Device, sock: Socket, initialMessage: string, address: int, report: Option<seq<byte>>,
             proximity: seq<byte>, sensors: array<int>, bars: array<string>) returns (outcome: Outcome)
    requires dev.Valid()
    requires 2 * PROXIMITY_CHANNELS <= |proximity|
    requires PROXIMITY_CHANNELS <= sensors.Length && PROXIMITY_CHANNELS <= bars.Length
    modifies dev, sock, sensors, bars
    ensures dev.Valid() && dev.battery == old(dev.battery)
    ensures var want := RunFrom(INITIAL_SPEED, CStr(initialMessage), address, old(sock.State()), report);
            outcome == want.outcome && sock.State() == want.wire && dev.calls == old(dev.calls) + want.calls
    ensures Drawn(proximity, sensors, bars) || (sensors[..] == old(sensors[..]) && bars[..] == old(bars[..]))
    ensures sensors[PROXIMITY_CHANNELS..] == old(sensors[PROXIMITY_CHANNELS..])
    ensures bars[PROXIMITY_CHANNELS..] == old(bars[PROXIMITY_CHANNELS..])
  {
    var ms := INITIAL_SPEED;
    var message := CStr(initialMessage);
    while true
      invariant dev.Valid() && dev.battery == old(dev.battery)
      invariant Drawn(proximity, sensors, bars) || (sensors[..] == old(sensors[..]) && bars[..] == old(bars[..]))
      invariant sensors[PROXIMITY_CHANNELS..] == old(sensors[PROXIMITY_CHANNELS..])
      invariant bars[PROXIMITY_CHANNELS..] == old(bars[PROXIMITY_CHANNELS..])
      invariant var want := RunFrom(INITIAL_SPEED, CStr(initialMessage), address, old(sock.State()), report);
                var rest := RunFrom(ms, message, address, sock.State(), report);
                rest.outcome == want.outcome && rest.wire == want.wire &&
                dev.calls + rest.calls == old(dev.calls) + want.calls
      decreases |sock.inbound|
    {
      ghost var calls0, w0, ms0 := dev.calls, sock.State(), ms;
      ghost var step := Iteration(ms0, message, address, w0, report);
      var status;
      status, ms := Iterate(dev, sock, ms, message, address, report, proximity, sensors, bars);
      match status
      case Running =>
        message := OK;
        SeqAssoc(calls0, step.calls, RunFrom(ms, message, address, sock.State(), report).calls);
      case Broke =>
        sock.Close();
        dev.Shutdown(EXIT_LEDS);
        SeqAssoc(calls0, step.calls, ShutdownCalls(EXIT_LEDS));
        return Returned(0);
      case Stopped(o) =>
        return o;
    }
  }
}
