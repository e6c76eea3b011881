/**
 * What one pass of the first variant's loop does for each command word,
 * and how its sessions end.
 */
module ProgTemplateProperties {
  import opened CStd
  import opened Gateway
  import opened Net
  import opened FileStream
  import opened Session
  import opened ProgTemplate

  // ---------------------------------------------------------------------
  // The motion words.

  /**
   * The robot after each motion word: "stop" stops and idles it; "up" and
   * "down" run both wheels at motorSpeed forwards or backwards; "left" and
   * "right" turn on the spot at half motorSpeed (truncated); the motors
   * keep running and the LEDs are untouched. Any other word calls nothing.
   */
  lemma MotionEffect(hw: Hw, token: string, ms: int)
    ensures token == "stop" ==> ApplyAll(hw, MotionCalls(token, ms)) == Hw(Idle, 0, 0, hw.leds)
    ensures token == "up" ==> ApplyAll(hw, MotionCalls(token, ms)) == Hw(Speed, ms, ms, hw.leds)
    ensures token == "down" ==> ApplyAll(hw, MotionCalls(token, ms)) == Hw(Speed, -ms, -ms, hw.leds)
    ensures token == "left" ==>
              ApplyAll(hw, MotionCalls(token, ms)) == Hw(Speed, -TruncDiv(ms, 2), TruncDiv(ms, 2), hw.leds)
    ensures token == "right" ==>
              ApplyAll(hw, MotionCalls(token, ms)) == Hw(Speed, TruncDiv(ms, 2), -TruncDiv(ms, 2), hw.leds)
    ensures token !in {"stop", "up", "down", "left", "right"} ==> MotionCalls(token, ms) == []
  {
    ScaleFactors(ms);
    ScaleFactors(-ms);
    var cs := MotionCalls(token, ms);
    if cs != [] {
      ApplyTwo(hw, cs[0], cs[1]);
      assert cs == [cs[0], cs[1]];
    }
  }

  /** "stop" twice leaves the robot as "stop" once does. */
  lemma StopIdempotent(hw: Hw, ms: int)
    ensures var once := ApplyAll(hw, MotionCalls("stop", ms));
            ApplyAll(once, MotionCalls("stop", ms)) == once
  {
    MotionEffect(hw, "stop", ms);
    MotionEffect(ApplyAll(hw, MotionCalls("stop", ms)), "stop", ms);
  }

  // ---------------------------------------------------------------------
  // Passes.

  /** The end of a pass on a token other than "file": the battery reply alone. */
  lemma FinalReply(token: string, ms: int, message: string, w: Wire, report: Option<seq<byte>>)
    requires token != "file"
    ensures var (ok, w1) := SendOn(w, Text(message));
            FromFile(token, ms, message, w, report) == Step(ReplyStatus(ok), "", [], ms, w1)
  {
  }

  /** From the "diode" test on, a token that is neither "diode" nor "file" only gets the battery reply. */
  lemma QuietFromDiode(token: string, ms: int, message: string, w: Wire, report: Option<seq<byte>>)
    requires token != "diode" && token != "file"
    ensures var (ok, w1) := SendOn(w, Text(message));
            FromDiode(token, ms, message, w, report) == Step(ReplyStatus(ok), "", [], ms, w1)
  {
    FinalReply(token, ms, message, w, report);
  }

  /**
   * A pass on a token that is none of "speed", "diode" and "file": its
   * motion calls, then the one battery reply; motorSpeed is unchanged and
   * the pass fails only when that reply cannot be sent.
   */
  lemma PlainPass(token: string, ms: int, message: string, w: Wire, report: Option<seq<byte>>)
    requires token !in {"speed", "diode", "file"}
    ensures var s := OnToken(token, ms, message, w, report);
            var (ok, w1) := SendOn(w, Text(message));
            s == Step(ReplyStatus(ok), "", MotionCalls(token, ms), ms, w1)
  {
    QuietFromDiode(token, ms, message, w, report);
  }

  /** The first recv of a pass delivers a token: the pass goes on with it and the rest of the script. */
  lemma GotToken(ms: int, w: Wire, battery: byte, report: Option<seq<byte>>)
    requires w.inbound != [] && w.inbound[0].Got?
    ensures Iteration(ms, w, battery, report) ==
            OnToken(CStr(w.inbound[0].data), ms, Message(battery), w.(inbound := w.inbound[1..]), report)
  {
  }

  /**
   * A pass on a motion word, on an unknown word or on an empty read: the
   * robot ends in the motion word's state, motorSpeed is unchanged and
   * the server gets exactly one reply, the battery level in decimal.
   */
  lemma PlainIteration(ms: int, w: Wire, battery: byte, report: Option<seq<byte>>)
    requires w.inbound != [] && w.inbound[0].Got?
    requires CStr(w.inbound[0].data) !in {"speed", "diode", "file"}
    ensures var s := Iteration(ms, w, battery, report);
            var token := CStr(w.inbound[0].data);
            s.calls == MotionCalls(token, ms) && s.speed == ms &&
            s.wire.inbound == w.inbound[1..] && s.wire.open == w.open &&
            s.status == ReplyStatus(SendSucceeds(w)) &&
            s.wire.sent == if SendSucceeds(w) then w.sent + [Text(Message(battery))] else w.sent
  {
    GotToken(ms, w, battery, report);
    PlainPass(CStr(w.inbound[0].data), ms, Message(battery), w.(inbound := w.inbound[1..]), report);
  }

  /** An empty read is not an error: nothing moves, the reply is sent, and the loop goes on if it was. */
  lemma EmptyReadContinues(ms: int, w: Wire, battery: byte, report: Option<seq<byte>>)
    requires w.inbound != [] && w.inbound[0].Got? && CStr(w.inbound[0].data) == ""
    ensures var s := Iteration(ms, w, battery, report);
            s.calls == [] && s.speed == ms && (SendSucceeds(w) ==> s.status == Running)
  {
    PlainIteration(ms, w, battery, report);
  }

  /** The "speed" exchange when its send goes through and the number arrives. */
  lemma SpeedExchangeGot(ms: int, message: string, w: Wire, report: Option<seq<byte>>)
    requires SendSucceeds(w)
    requires var w1 := SendOn(w, Text(message)).1; w1.inbound != [] && w1.inbound[0].Got?
    ensures var w1 := SendOn(w, Text(message)).1;
            var w2 := w1.(inbound := w1.inbound[1..]);
            FromSpeed("speed", ms, message, w, report) ==
            FromDiode("", ScanInt(CStr(w1.inbound[0].data), ms), message, w2, report)
  {
  }

  /**
   * "speed": the reply goes out, the next token is scanned as the new
   * motorSpeed (kept if it holds no number), and the reply goes out again.
   * A failed first send ends main with 1 before anything is read; a failed
   * recv of the number breaks out of the loop.
   */
  lemma SpeedIteration(ms: int, w: Wire, battery: byte, report: Option<seq<byte>>)
    requires Receives(w, "speed") && |w.inbound| >= 2
    ensures var s := Iteration(ms, w, battery, report);
            var m := Text(Message(battery));
            s.calls == [] &&
            (!SendSucceeds(w) ==> s.status == Stopped(Returned(1)) && s.speed == ms && s.wire.sent == w.sent) &&
            (SendSucceeds(w) && w.inbound[1] == Failed ==> s.status == Broke && s.wire.sent == w.sent + [m]) &&
            (SendSucceeds(w) && w.inbound[1].Got? ==>
               s.speed == ScanInt(CStr(w.inbound[1].data), ms) && s.wire.inbound == w.inbound[2..]) &&
            (NoFailure(w.outcomes, 2) && w.inbound[1].Got? ==> s.status == Running && s.wire.sent == w.sent + [m, m])
  {
    var m := Message(battery);
    var w0 := w.(inbound := w.inbound[1..]);
    GotToken(ms, w, battery, report);
    assert Iteration(ms, w, battery, report) == FromSpeed("speed", ms, m, w0, report);
    if !SendSucceeds(w) {
      SpeedSendFails(ms, m, w0, report);
    } else if w.inbound[1].Got? {
      SpeedGot(ms, m, w0, report);
    } else if w.inbound[1] == Failed {
      SpeedRecvFails(ms, m, w0, report);
    }
  }

  lemma SpeedSendFails(ms: int, message: string, w: Wire, report: Option<seq<byte>>)
    requires !SendSucceeds(w)
    ensures var s := FromSpeed("speed", ms, message, w, report);
            s.calls == [] && s.status == Stopped(Returned(1)) && s.speed == ms && s.wire.sent == w.sent
  {
  }

  lemma SpeedRecvFails(ms: int, message: string, w: Wire, report: Option<seq<byte>>)
    requires SendSucceeds(w) && w.inbound != [] && w.inbound[0] == Failed
    ensures var s := FromSpeed("speed", ms, message, w, report);
            s.calls == [] && s.status == Broke && s.wire.sent == w.sent + [Text(message)]
  {
  }

  lemma SpeedGot(ms: int, message: string, w: Wire, report: Option<seq<byte>>)
    requires SendSucceeds(w) && w.inbound != [] && w.inbound[0].Got?
    ensures var s := FromSpeed("speed", ms, message, w, report);
            var m := Text(message);
            s.calls == [] && s.speed == ScanInt(CStr(w.inbound[0].data), ms) && s.wire.inbound == w.inbound[1..] &&
            (NoFailure(w.outcomes, 2) ==> s.status == Running && s.wire.sent == w.sent + [m, m])
  {
    SpeedGotStep(ms, message, w, report);
    if NoFailure(w.outcomes, 2) {
      TwoSends(w, Text(message), Text(message));
    }
  }

  /** The "speed" exchange followed by the end-of-pass reply, as one step. */
  lemma SpeedGotStep(ms: int, message: string, w: Wire, report: Option<seq<byte>>)
    requires SendSucceeds(w) && w.inbound != [] && w.inbound[0].Got?
    ensures var w1 := SendOn(w, Text(message)).1;
            var w2 := w1.(inbound := w1.inbound[1..]);
            var r := SendOn(w2, Text(message));
            FromSpeed("speed", ms, message, w, report) ==
            Step(ReplyStatus(r.0), "", [], ScanInt(CStr(w.inbound[0].data), ms), r.1)
  {
    var w1 := SendOn(w, Text(message)).1;
    var w2 := w1.(inbound := w1.inbound[1..]);
    var ms' := ScanInt(CStr(w.inbound[0].data), ms);
    SpeedExchangeGot(ms, message, w, report);
    QuietFromDiode("", ms', message, w2, report);
  }

  /** A speed the server sends in decimal is the speed the robot then drives at. */
  lemma SpeedRoundTrip(ms: int, w: Wire, battery: byte, report: Option<seq<byte>>, n: int)
    requires Receives(w, "speed") && |w.inbound| >= 2 && w.inbound[1] == Got(FormatDecimal(n))
    requires SendSucceeds(w)
    ensures Iteration(ms, w, battery, report).speed == n
  {
    SpeedIteration(ms, w, battery, report);
    CStrOfPlain(FormatDecimal(n));
    ScanFormatRoundTrip(n, []);
    assert FormatDecimal(n) + [] == FormatDecimal(n);
  }

  /** The LED settings a colour name selects; any other name leaves the LEDs as they are. */
  lemma ColourEffect(hw: Hw, name: string)
    ensures ApplyAll(hw, ColourCalls(name)) == match ColourLeds(name)
                                               case None => hw
                                               case Some(leds) => hw.(leds := leds)
  {
    if ColourLeds(name).Some? {
      ApplyAllOne(hw, SetLedsTo(ColourLeds(name).value));
    }
  }

  /** The "diode" exchange when its two sends go through and a colour name arrives. */
  lemma DiodeExchangeGot(ms: int, message: string, w: Wire)
    requires w.inbound != [] && w.inbound[0].Got?
    requires NoFailure(w.outcomes, 2)
    ensures var d := DiodeCommand("diode", ms, message, w);
            var colour := CStr(w.inbound[0].data);
            d.status == Running && d.token == colour && d.calls == ColourCalls(colour) &&
            d.wire.sent == w.sent + [Text(message), Text(message)] && d.wire.inbound == w.inbound[1..] &&
            (NoFailure(w.outcomes, 3) ==> NoFailure(d.wire.outcomes, 1))
  {
    var (ok1, w1) := SendOn(w, Text(message));
    NoFailureShift(w, Text(message), 1);
    var w2 := w1.(inbound := w1.inbound[1..]);
    NoFailureShift(w2, Text(message), 0);
    if NoFailure(w.outcomes, 3) {
      NoFailureShift(w, Text(message), 2);
      NoFailureShift(w2, Text(message), 1);
    }
  }

  /**
   * "diode": the reply, the colour name read, the LEDs set from it, the
   * reply twice more (the second exchange reply and the end-of-pass
   * reply); the colour name is then what the "file" test sees.
   */
  lemma DiodeIteration(ms: int, w: Wire, battery: byte, report: Option<seq<byte>>)
    requires Receives(w, "diode") && |w.inbound| >= 2 && w.inbound[1].Got?
    requires CStr(w.inbound[1].data) != "file"
    requires NoFailure(w.outcomes, 3)
    ensures var s := Iteration(ms, w, battery, report);
            var m := Text(Message(battery));
            s.calls == ColourCalls(CStr(w.inbound[1].data)) && s.speed == ms &&
            s.status == Running && s.wire.sent == w.sent + [m, m, m] && s.wire.inbound == w.inbound[2..]
  {
    var m := Message(battery);
    var w0 := w.(inbound := w.inbound[1..]);
    GotToken(ms, w, battery, report);
    DiodeExchangeGot(ms, m, w0);
    var d := DiodeCommand("diode", ms, m, w0);
    FinalReply(d.token, ms, m, d.wire, report);
    NoFailureShift(d.wire, Text(m), 0);
    assert [] + d.calls == d.calls;
    assert d.wire.sent + [Text(m)] == w.sent + [Text(m), Text(m), Text(m)];
  }

  /**
   * The error exits of "diode": a failed first send returns 1 with nothing
   * sent; a failed recv of the colour name breaks out of the loop after
   * one reply; a failed second send returns 1 after the LEDs were set from
   * the colour name. motorSpeed is kept on every path.
   */
  lemma DiodeFailures(ms: int, w: Wire, battery: byte, report: Option<seq<byte>>)
    requires Receives(w, "diode") && |w.inbound| >= 2
    ensures var s := Iteration(ms, w, battery, report);
            var m := Text(Message(battery));
            s.speed == ms &&
            (!SendSucceeds(w) ==> s.status == Stopped(Returned(1)) && s.calls == [] && s.wire.sent == w.sent) &&
            (SendSucceeds(w) && w.inbound[1] == Failed ==> s.status == Broke && s.calls == [] && s.wire.sent == w.sent + [m]) &&
            (SendSucceeds(w) && w.inbound[1].Got? && !SendSucceeds(SendOn(w, m).1) ==>
               s.status == Stopped(Returned(1)) && s.calls == ColourCalls(CStr(w.inbound[1].data)) &&
               s.wire.sent == w.sent + [m])
  {
    var m := Message(battery);
    var w0 := w.(inbound := w.inbound[1..]);
    GotToken(ms, w, battery, report);
    assert Iteration(ms, w, battery, report) == FromSpeed("diode", ms, m, w0, report);
    if !SendSucceeds(w) {
      DiodeSendFails(ms, m, w0, report);
    } else if w.inbound[1] == Failed {
      DiodeRecvFails(ms, m, w0, report);
    } else if w.inbound[1].Got? && !SendSucceeds(SendOn(w, Text(m)).1) {
      DiodeReplyFails(ms, m, w0, report);
    }
  }

  lemma DiodeSendFails(ms: int, message: string, w: Wire, report: Option<seq<byte>>)
    requires !SendSucceeds(w)
    ensures var s := FromSpeed("diode", ms, message, w, report);
            s.calls == [] && s.status == Stopped(Returned(1)) && s.speed == ms && s.wire.sent == w.sent
  {
  }

  lemma DiodeRecvFails(ms: int, message: string, w: Wire, report: Option<seq<byte>>)
    requires SendSucceeds(w) && w.inbound != [] && w.inbound[0] == Failed
    ensures var s := FromSpeed("diode", ms, message, w, report);
            s.calls == [] && s.status == Broke && s.speed == ms && s.wire.sent == w.sent + [Text(message)]
  {
  }

  lemma DiodeReplyFails(ms: int, message: string, w: Wire, report: Option<seq<byte>>)
    requires SendSucceeds(w) && w.inbound != [] && w.inbound[0].Got?
    requires !SendSucceeds(SendOn(w, Text(message)).1)
    ensures var s := FromSpeed("diode", ms, message, w, report);
            s.calls == ColourCalls(CStr(w.inbound[0].data)) && s.status == Stopped(Returned(1)) &&
            s.speed == ms && s.wire.sent == w.sent + [Text(message)]
  {
  }

  /**
   * A colour name of "file" falls through to the file branch: with no
   * report to open, the pass breaks out of the loop after setting nothing.
   */
  lemma DiodeThenFile(ms: int, w: Wire, battery: byte)
    requires Receives(w, "diode") && |w.inbound| >= 2 && w.inbound[1].Got?
    requires CStr(w.inbound[1].data) == "file"
    requires SendSucceeds(w) && SendSucceeds(SendOn(w, Text(Message(battery))).1)
    ensures var s := Iteration(ms, w, battery, None);
            s.status == Broke && s.calls == []
  {
    var m := Message(battery);
    var w0 := w.(inbound := w.inbound[1..]);
    GotToken(ms, w, battery, None);
    var (ok1, w1) := SendOn(w0, Text(m));
    assert ok1;
    var w2 := w1.(inbound := w1.inbound[1..]);
    var (ok2, w3) := SendOn(w2, Text(m));
    assert ok2;
    assert DiodeCommand("diode", ms, m, w0) == Step(Running, "file", [], ms, w3);
  }

  /**
   * "file": a report that cannot be opened breaks out of the loop with
   * nothing sent; an opened one is streamed in blocks of LENGTH bytes,
   * followed by the battery reply.
   */
  lemma FileIteration(ms: int, w: Wire, battery: byte, report: Option<seq<byte>>)
    requires Receives(w, "file")
    ensures var s := Iteration(ms, w, battery, report);
            var w0 := w.(inbound := w.inbound[1..]);
            s.calls == [] && s.speed == ms &&
            (report.None? ==> s.status == Broke && s.wire == w0) &&
            (report.Some? ==>
               var (ok, w1) := SendOn(SendChunks(w0, Chunks(report.value, LENGTH)), Text(Message(battery)));
               s.status == ReplyStatus(ok) && s.wire == w1)
  {
    GotToken(ms, w, battery, report);
  }

  // ---------------------------------------------------------------------
  // Sessions.

  /** How a pass may end: the socket is as open as before, and main is left only with 1 or by blocking. */
  predicate EndsInPass(s: Step, w: Wire) {
    s.wire.open == w.open &&
    (s.status.Stopped? ==> s.status.outcome == Returned(1) || s.status.outcome == Blocked)
  }

  /** A pass never closes the socket, and it leaves main only with 1 (a failed send) or by blocking. */
  lemma PassEnds(ms: int, w: Wire, battery: byte, report: Option<seq<byte>>)
    ensures var s := Iteration(ms, w, battery, report);
            s.wire.open == w.open &&
            (s.status.Stopped? ==> s.status.outcome == Returned(1) || s.status.outcome == Blocked)
  {
    var (r, w1) := ReceiveOn(w);
    if r.Got? {
      FromSpeedEnds(CStr(r.data), ms, Message(battery), w1, report);
    }
  }

  lemma FromSpeedEnds(token: string, ms: int, message: string, w: Wire, report: Option<seq<byte>>)
    ensures EndsInPass(FromSpeed(token, ms, message, w, report), w)
  {
    var sp := SpeedCommand(token, ms, message, w);
    if sp.status.Running? {
      FromDiodeEnds(sp.token, sp.speed, message, sp.wire, report);
    }
  }

  lemma FromDiodeEnds(token: string, ms: int, message: string, w: Wire, report: Option<seq<byte>>)
    ensures EndsInPass(FromDiode(token, ms, message, w, report), w)
  {
    var di := DiodeCommand(token, ms, message, w);
    if di.status.Running? {
      FromFileEnds(di.token, ms, message, di.wire, report);
    }
  }

  lemma FromFileEnds(token: string, ms: int, message: string, w: Wire, report: Option<seq<byte>>)
    ensures EndsInPass(FromFile(token, ms, message, w, report), w)
  {
    if token == "file" && report.Some? {
      SendChunksDelivers(w, Chunks(report.value, LENGTH));
    }
  }

  /** No colour name selects the exit LED pattern. */
  lemma ColourIsNotExit(name: string)
    ensures NeverSetsLeds(ColourCalls(name), EXIT_LEDS)
  {
  }

  /** No pass sets the exit LEDs: only the shutdown after the loop does. */
  lemma PassAvoidsExitLeds(ms: int, w: Wire, battery: byte, report: Option<seq<byte>>)
    ensures NeverSetsLeds(Iteration(ms, w, battery, report).calls, EXIT_LEDS)
  {
    var (r, w1) := ReceiveOn(w);
    if r.Got? {
      var token, m := CStr(r.data), Message(battery);
      MotionAvoidsExitLeds(token, ms);
      FromSpeedAvoidsExitLeds(token, ms, m, w1, report);
      NeverSetsLedsAppend(MotionCalls(token, ms), FromSpeed(token, ms, m, w1, report).calls, EXIT_LEDS);
    }
  }

  lemma MotionAvoidsExitLeds(token: string, ms: int)
    ensures NeverSetsLeds(MotionCalls(token, ms), EXIT_LEDS)
  {
  }

  lemma FromSpeedAvoidsExitLeds(token: string, ms: int, message: string, w: Wire, report: Option<seq<byte>>)
    ensures NeverSetsLeds(FromSpeed(token, ms, message, w, report).calls, EXIT_LEDS)
  {
    var sp := SpeedCommand(token, ms, message, w);
    if sp.status.Running? {
      DiodeAvoidsExitLeds(sp.token, sp.speed, message, sp.wire);
    }
  }

  lemma DiodeAvoidsExitLeds(token: string, ms: int, message: string, w: Wire)
    ensures NeverSetsLeds(DiodeCommand(token, ms, message, w).calls, EXIT_LEDS)
  {
    if token == "diode" {
      var (ok, w1) := SendOn(w, Text(message));
      var (r, w2) := ReceiveOn(w1);
      if ok && r.Got? {
        ColourIsNotExit(CStr(r.data));
      }
    }
  }

  /**
   * Every session ends in one of three ways. Breaking out of the loop (a
   * failed recv, or a report that cannot be opened) returns 0 with the
   * socket closed and the robot stopped, idle and showing the exit LEDs,
   * whatever it did before. A failed send returns 1 at once: the socket
   * stays open and no shutdown follows, so the exit LEDs are never set.
   * Otherwise the server went silent and recv blocks.
   */
  lemma {:induction false} SessionEnds(ms: int, w: Wire, battery: byte, report: Option<seq<byte>>, hw: Hw)
    ensures var f := RunFrom(ms, w, battery, report);
            (f.outcome == Returned(0) || f.outcome == Returned(1) || f.outcome == Blocked) &&
            (f.outcome == Returned(0) ==> !f.wire.open && ApplyAll(hw, f.calls) == Hw(Idle, 0, 0, EXIT_LEDS)) &&
            (f.outcome != Returned(0) ==> f.wire.open == w.open && NeverSetsLeds(f.calls, EXIT_LEDS))
    decreases |w.inbound|
  {
    var s := Iteration(ms, w, battery, report);
    PassEnds(ms, w, battery, report);
    PassAvoidsExitLeds(ms, w, battery, report);
    match s.status
    case Running =>
      var rest := RunFrom(s.speed, s.wire, battery, report);
      SessionEnds(s.speed, s.wire, battery, report, ApplyAll(hw, s.calls));
      ApplyAllAppend(hw, s.calls, rest.calls);
      if rest.outcome != Returned(0) {
        NeverSetsLedsAppend(s.calls, rest.calls, EXIT_LEDS);
      }
    case Broke =>
      EndsShutDown(hw, s.calls, EXIT_LEDS);
    case Stopped(o) =>
  }

  /** A failed first recv ends the session at once: shutdown, socket closed, nothing sent, 0 returned. */
  lemma RecvFailureShutsDown(ms: int, w: Wire, battery: byte, report: Option<seq<byte>>)
    requires w.inbound != [] && w.inbound[0] == Failed
    ensures var f := RunFrom(ms, w, battery, report);
            f.outcome == Returned(0) && f.calls == ShutdownCalls(EXIT_LEDS) &&
            f.wire == w.(inbound := w.inbound[1..], open := false)
  {
    assert [] + ShutdownCalls(EXIT_LEDS) == ShutdownCalls(EXIT_LEDS);
  }
}
