/**
 * The first variant of the client (prog-template.c). Each pass of its
 * loop formats the battery level into the reply, receives a command token
 * and matches it with strcmp against stop, up, down, left, right, speed,
 * diode and file through independent ifs, then sends the battery reply.
 * go() leaves the motors running at the commanded speed.
 */
module ProgTemplate {
  import opened CStd
  import opened Gateway
  import opened Net
  import opened FileStream
  import opened Session

  /** Size of the file-transfer buffer. */
  const LENGTH := 4096
  /** motorSpeed before any "speed" command. */
  const INITIAL_SPEED := 100
  /** After the loop: every LED off except the red channel of the back LED. */
  const EXIT_LEDS := Leds(0, 0, 0, 0, 0, 0, 1, 0, 0)

  /** The reply of this variant: sprintf(message, "%d", battery) with battery = Buffer[3]. */
  function Message(battery: byte): string {
    FormatDecimal(battery as int)
  }

  // ---------------------------------------------------------------------
  // Motion commands.

  /** go(num1, num2, rotate): speed regulation, then both wheels; the motors keep running. */
  function GoCalls(num1: int, num2: int, rotate: real): seq<Call> {
    [SetModeTo(Speed), SetSpeedTo(Scale(num1, rotate), Scale(num2, rotate))]
  }

  method Go(dev: Device, num1: int, num2: int, rotate: real)
    requires dev.Valid()
    modifies dev
    ensures dev.Valid() && dev.battery == old(dev.battery)
    ensures dev.calls == old(dev.calls) + GoCalls(num1, num2, rotate)
  {
    dev.SetMode(Speed);
    dev.SetSpeed(Scale(num1, rotate), Scale(num2, rotate));
  }

  const STOP_CALLS := [SetSpeedTo(0, 0), SetModeTo(Idle)]

  /**
   * The calls of the five motion branches. They are independent ifs in
   * the loop, but strcmp can find at most one of the five words, so at
   * most one of them fires.
   */
  function MotionCalls(token: string, ms: int): seq<Call> {
    if token == "stop" then STOP_CALLS
    else if token == "up" then GoCalls(ms, ms, STRAIGHT)
    else if token == "down" then GoCalls(-ms, -ms, STRAIGHT)
    else if token == "left" then GoCalls(-ms, ms, ROTATE_HIGH_SPEED_FACT)
    else if token == "right" then GoCalls(ms, -ms, ROTATE_HIGH_SPEED_FACT)
    else []
  }

  method Motion(dev: Device, token: string, ms: int)
    requires dev.Valid()
    modifies dev
    ensures dev.Valid() && dev.battery == old(dev.battery)
    ensures dev.calls == old(dev.calls) + MotionCalls(token, ms)
  {
    if token == "stop" {
      dev.SetSpeed(0, 0);
      dev.SetMode(Idle);
    }
    if token == "up" {
      Go(dev, ms, ms, STRAIGHT);
    }
    if token == "down" {
      Go(dev, -ms, -ms, STRAIGHT);
    }
    if token == "left" {
      Go(dev, -ms, ms, ROTATE_HIGH_SPEED_FACT);
    }
    if token == "right" {
      Go(dev, ms, -ms, ROTATE_HIGH_SPEED_FACT);
    }
  }

  // ---------------------------------------------------------------------
  // The "speed" exchange.

  /**
   * "speed": clear the buffer, send the reply, receive the new speed and
   * scan it with "%d" (a reply with no number leaves motorSpeed as it
   * was), clear the buffer again. A failed send leaves main with 1; a
   * failed recv breaks out of the loop.
   */
  function SpeedCommand(token: string, ms: int, message: string, w: Wire): (s: Step)
    ensures s.calls == [] && |s.wire.inbound| <= |w.inbound|
  {
    if token != "speed" then Step(Running, token, [], ms, w)
    else
      var (ok, w1) := SendOn(w, Text(message));
      if !ok then Step(Stopped(Returned(1)), "", [], ms, w1)
      else
        var (r, w2) := ReceiveOn(w1);
        match r
        case Silent => Step(Stopped(Blocked), "", [], ms, w2)
        case Failed => Step(Broke, "", [], ms, w2)
        case Got(data) => Step(Running, "", [], ScanInt(CStr(data), ms), w2)
  }

  method SpeedExchange(sock: Socket, token: string, ms: int, message: string)
      returns (status: Status, token': string, ms': int)
    modifies sock
    ensures Step(status, token', [], ms', sock.State()) == SpeedCommand(token, ms, message, old(sock.State()))
  {
    status, token', ms' := Running, token, ms;
    if token == "speed" {
      token' := "";
      var ok := sock.Send(Text(message));
      if !ok {
        status := Stopped(Returned(1));
        return;
      }
      var r := sock.Receive();
      match r
      case Silent =>
        status := Stopped(Blocked);
      case Failed =>
        status := Broke;
      case Got(data) =>
        ms' := ScanInt(CStr(data), ms);
    }
  }

  // ---------------------------------------------------------------------
  // The "diode" exchange.

  /** The colour names and the LED settings they select: the left LED's red, green and blue channels. */
  function ColourLeds(name: string): (r: Option<Leds>)
    ensures r.Some? <==> name in {"red", "blue", "yellow", "pink", "purple", "orange", "green", "white"}
    ensures r.Some? ==> r.value.rightR == r.value.rightG == r.value.rightB == 0
    ensures r.Some? ==> r.value.backR == r.value.backG == r.value.backB == 0
  {
    if name == "red" then Some(Leds(1, 0, 0, 0, 0, 0, 0, 0, 0))
    else if name == "blue" then Some(Leds(0, 0, 1, 0, 0, 0, 0, 0, 0))
    else if name == "yellow" then Some(Leds(63, 63, 0, 0, 0, 0, 0, 0, 0))
    else if name == "pink" then Some(Leds(30, 0, 10, 0, 0, 0, 0, 0, 0))
    else if name == "purple" then Some(Leds(20, 0, 40, 0, 0, 0, 0, 0, 0))
    else if name == "orange" then Some(Leds(63, 20, 0, 0, 0, 0, 0, 0, 0))
    else if name == "green" then Some(Leds(0, 1, 0, 0, 0, 0, 0, 0, 0))
    else if name == "white" then Some(Leds(60, 60, 60, 0, 0, 0, 0, 0, 0))
    else None
  }

  function ColourCalls(name: string): seq<Call> {
    match ColourLeds(name)
    case None => []
    case Some(leds) => [SetLedsTo(leds)]
  }

  /**
   * "diode": clear the buffer, send the reply, receive a colour name, set
   * the LEDs if it is one of the eight, send the reply again. The buffer
   * then holds the colour name.
   */
  function DiodeCommand(token: string, ms: int, message: string, w: Wire): (s: Step)
    ensures s.speed == ms && |s.wire.inbound| <= |w.inbound|
  {
    if token != "diode" then Step(Running, token, [], ms, w)
    else
      var (ok, w1) := SendOn(w, Text(message));
      if !ok then Step(Stopped(Returned(1)), "", [], ms, w1)
      else
        var (r, w2) := ReceiveOn(w1);
        match r
        case Silent => Step(Stopped(Blocked), "", [], ms, w2)
        case Failed => Step(Broke, "", [], ms, w2)
        case Got(data) =>
          var colour := CStr(data);
          var (ok2, w3) := SendOn(w2, Text(message));
          Step(if ok2 then Running else Stopped(Returned(1)), colour, ColourCalls(colour), ms, w3)
  }

  method SetColour(dev: Device, colour: string)
    requires dev.Valid()
    modifies dev
    ensures dev.Valid() && dev.battery == old(dev.battery)
    ensures dev.calls == old(dev.calls) + ColourCalls(colour)
  {
    var leds := ColourLeds(colour);
    if leds.Some? {
      dev.SetRGBLeds(leds.value);
    }
  }

  method DiodeExchange(dev: Device, sock: Socket, token: string, ms: int, message: string)
      returns (status: Status, token': string)
    requires dev.Valid()
    modifies dev, sock
    ensures dev.Valid() && dev.battery == old(dev.battery)
    ensures var want := DiodeCommand(token, ms, message, old(sock.State()));
            status == want.status && token' == want.token && sock.State() == want.wire &&
            dev.calls == old(dev.calls) + want.calls
  {
    status, token' := Running, token;
    if token == "diode" {
      token' := "";
      var ok := sock.Send(Text(message));
      if !ok {
        status := Stopped(Returned(1));
        return;
      }
      var r := sock.Receive();
      match r
      case Silent =>
        status := Stopped(Blocked);
      case Failed =>
        status := Broke;
      case Got(data) =>
        token' := CStr(data);
        SetColour(dev, token');
        ok := sock.Send(Text(message));
        if !ok {
          status := Stopped(Returned(1));
        }
    }
  }

  // ---------------------------------------------------------------------
  // The "file" command.

  /**
   * "file": the report is rebuilt and opened for reading; if it cannot be
   * opened the loop is left, otherwise it is streamed in blocks of LENGTH
   * bytes. A failed block send ends the streaming only.
   */
  function FileCommand(token: string, ms: int, report: Option<seq<byte>>, w: Wire): (s: Step)
    ensures s.calls == [] && s.speed == ms && s.token == token
    ensures s.wire.inbound == w.inbound
  {
    if token != "file" then Step(Running, token, [], ms, w)
    else
      match report
      case None => Step(Broke, token, [], ms, w)
      case Some(bytes) =>
        SendChunksDelivers(w, Chunks(bytes, LENGTH));
        Step(Running, token, [], ms, SendChunks(w, Chunks(bytes, LENGTH)))
  }

  method FileTransfer(sock: Socket, token: string, ms: int, report: Option<seq<byte>>) returns (status: Status)
    modifies sock
    ensures var want := FileCommand(token, ms, report, old(sock.State()));
            status == want.status && sock.State() == want.wire
  {
    status := Running;
    if token == "file" {
      if report.None? {
        status := Broke;
        return;
      }
      StreamFile(sock, report.value, LENGTH);
    }
  }

  // ---------------------------------------------------------------------
  // One pass of the loop and the whole session.

  /**
   * One pass of the loop body with motorSpeed ms: receive a token (a
   * failed recv breaks out of the loop), run the motion branch whose word
   * it is, then the exchanges.
   */
  function Iteration(ms: int, w: Wire, battery: byte, report: Option<seq<byte>>): (s: Step)
    ensures |s.wire.inbound| <= |w.inbound|
    ensures s.status != Stopped(Blocked) ==> |s.wire.inbound| < |w.inbound|
  {
    var (r, w1) := ReceiveOn(w);
    match r
    case Silent => Step(Stopped(Blocked), "", [], ms, w1)
    case Failed => Step(Broke, "", [], ms, w1)
    case Got(data) => OnToken(CStr(data), ms, Message(battery), w1, report)
  }

  /** A pass once a token has arrived: the motion branch whose word it is, then the exchanges. */
  function OnToken(token: string, ms: int, message: string, w: Wire, report: Option<seq<byte>>): (s: Step)
    ensures |s.wire.inbound| <= |w.inbound|
  {
    After(MotionCalls(token, ms), FromSpeed(token, ms, message, w, report))
  }

  /** The rest of a pass from the "speed" branch on. */
  function FromSpeed(token: string, ms: int, message: string, w: Wire, report: Option<seq<byte>>): (s: Step)
    ensures |s.wire.inbound| <= |w.inbound|
  {
    var sp := SpeedCommand(token, ms, message, w);
    if !sp.status.Running? then sp
    else FromDiode(sp.token, sp.speed, message, sp.wire, report)
  }

  /** The rest of a pass from the "diode" branch on. */
  function FromDiode(token: string, ms: int, message: string, w: Wire, report: Option<seq<byte>>): (s: Step)
    ensures |s.wire.inbound| <= |w.inbound|
  {
    var di := DiodeCommand(token, ms, message, w);
    if !di.status.Running? then di
    else After(di.calls, FromFile(di.token, ms, message, di.wire, report))
  }

  /** The rest of a pass from the "file" branch on: the final reply, then the buffer is cleared. */
  function FromFile(token: string, ms: int, message: string, w: Wire, report: Option<seq<byte>>): (s: Step)
    ensures s.speed == ms && s.calls == [] && s.wire.inbound == w.inbound
  {
    var fi := FileCommand(token, ms, report, w);
    if !fi.status.Running? then fi
    else
      var (ok, w2) := SendOn(fi.wire, Text(message));
      Step(if ok then Running else Stopped(Returned(1)), "", [], ms, w2)
  }

  method Iterate(dev: Device, sock: Socket, ms: int, report: Option<seq<byte>>) returns (status: Status, ms': int)
    requires dev.Valid()
    modifies dev, sock
    ensures dev.Valid() && dev.battery == old(dev.battery)
    ensures var want := Iteration(ms, old(sock.State()), dev.battery, report);
            status == want.status && ms' == want.speed && sock.State() == want.wire &&
            dev.calls == old(dev.calls) + want.calls
  {
    var message := Message(dev.battery);
    ms' := ms;
    var r := sock.Receive();
    if r.Silent? {
      return Stopped(Blocked), ms';
    }
    if r.Failed? {
      return Broke, ms';
    }
    status, ms' := Handle(dev, sock, CStr(r.data), ms, message, report);
  }

  /** A pass once a token has arrived: the motion branches, then the exchanges. */
  method Handle(dev: Device, sock: Socket, token: string, ms: int, message: string, report: Option<seq<byte>>)
      returns (status: Status, ms': int)
    requires dev.Valid()
    modifies dev, sock
    ensures dev.Valid() && dev.battery == old(dev.battery)
    ensures var want := OnToken(token, ms, message, old(sock.State()), report);
            status == want.status && ms' == want.speed && sock.State() == want.wire &&
            dev.calls == old(dev.calls) + want.calls
  {
    Motion(dev, token, ms);
    status, ms' := Dispatch(dev, sock, token, ms, message, report);
    SeqAssoc(old(dev.calls), MotionCalls(token, ms), FromSpeed(token, ms, message, old(sock.State()), report).calls);
  }

  /** The exchanges of one pass, after the motion branches. */
  method Dispatch(dev: Device, sock: Socket, token: string, ms: int, message: string, report: Option<seq<byte>>)
      returns (status: Status, ms': int)
    requires dev.Valid()
    modifies dev, sock
    ensures dev.Valid() && dev.battery == old(dev.battery)
    ensures var want := FromSpeed(token, ms, message, old(sock.State()), report);
            status == want.status && ms' == want.speed && sock.State() == want.wire &&
            dev.calls == old(dev.calls) + want.calls
  {
    var token' := token;
    status, token', ms' := SpeedExchange(sock, token, ms, message);
    if !status.Running? {
      return;
    }
    status, token' := DiodeExchange(dev, sock, token', ms', message);
    if !status.Running? {
      return;
    }
    status := FileTransfer(sock, token', ms', report);
    if !status.Running? {
      return;
    }
    var ok := sock.Send(Text(message));
    if !ok {
      status := Stopped(Returned(1));
    }
  }

  /**
   * The session from a pass with motorSpeed ms onward. Breaking out of the
   * loop closes the socket, stops the robot, idles the motors and sets the
   * exit LEDs, then main returns 0.
   */
  function RunFrom(ms: int, w: Wire, battery: byte, report: Option<seq<byte>>): Finish
    decreases |w.inbound|
  {
    var s := Iteration(ms, w, battery, report);
    match s.status
    case Running =>
      var rest := RunFrom(s.speed, s.wire, battery, report);
      Finish(rest.outcome, s.calls + rest.calls, rest.wire)
    case Broke => Finish(Returned(0), s.calls + ShutdownCalls(EXIT_LEDS), s.wire.(open := false))
    case Stopped(o) => Finish(o, s.calls, s.wire)
  }

  /** The main loop from the first pass, with motorSpeed at its initial 100, and the code after it. */
  method Run(dev: Device, sock: Socket, report: Option<seq<byte>>) returns (outcome: Outcome)
    requires dev.Valid()
    modifies dev, sock
    ensures dev.Valid() && dev.battery == old(dev.battery)
    ensures var want := RunFrom(INITIAL_SPEED, old(sock.State()), old(dev.battery), report);
            outcome == want.outcome && sock.State() == want.wire && dev.calls == old(dev.calls) + want.calls
  {
    var ms := INITIAL_SPEED;
    while true
      invariant dev.Valid() && dev.battery == old(dev.battery)
      invariant var want := RunFrom(INITIAL_SPEED, old(sock.State()), dev.battery, report);
                var rest := RunFrom(ms, sock.State(), dev.battery, report);
                rest.outcome == want.outcome && rest.wire == want.wire &&
                dev.calls + rest.calls == old(dev.calls) + want.calls
      decreases |sock.inbound|
    {
      ghost var calls0, w0, ms0 := dev.calls, sock.State(), ms;
      ghost var step := Iteration(ms0, w0, dev.battery, report);
      var status;
      status, ms := Iterate(dev, sock, ms, report);
      match status
      case Running =>
        SeqAssoc(calls0, step.calls, RunFrom(ms, sock.State(), dev.battery, report).calls);
      case Broke =>
        sock.Close();
        dev.Shutdown(EXIT_LEDS);
        SeqAssoc(calls0, step.calls, ShutdownCalls(EXIT_LEDS));
        return Returned(0);
      case Stopped(o) =>
        return o;
    }
  }
}
