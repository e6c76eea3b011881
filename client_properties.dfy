/**
 * What one pass of the second variant's loop does for each command word,
 * and how its sessions end.
 */
module ClientProperties {
  import opened CStd
  import opened Gateway
  import opened Net
  import opened FileStream
  import opened Session
  import opened Client

  // ---------------------------------------------------------------------
  // The motion words.

  /**
   * go() in this variant: during the move the motors are in speed mode
   * with the scaled wheel speeds; after it they are stopped and idle,
   * whatever the arguments. The LEDs are untouched.
   */
  lemma GoEffect(hw: Hw, num1: int, num2: int, rotate: real)
    ensures var cs := GoCalls(num1, num2, rotate);
            ApplyAll(hw, cs[..2]) == Hw(Speed, Scale(num1, rotate), Scale(num2, rotate), hw.leds) &&
            ApplyAll(hw, cs) == Hw(Idle, 0, 0, hw.leds)
  {
    var cs := GoCalls(num1, num2, rotate);
    ApplyTwo(hw, cs[0], cs[1]);
    assert cs[..2] == [cs[0], cs[1]];
    var moving := ApplyAll(hw, cs[..2]);
    ApplyTwo(moving, cs[2], cs[3]);
    assert cs == cs[..2] + [cs[2], cs[3]];
    ApplyAllAppend(hw, cs[..2], [cs[2], cs[3]]);
  }

  /**
   * The robot during and after each motion word: "up" runs both wheels
   * backwards at motorSpeed and "down" forwards; "left" turns with the
   * left wheel forwards and the right one backwards at half motorSpeed
   * (truncated), "right" the other way round. Every move ends stopped and
   * idle. Any other word, "stop" and "diode" among them, calls nothing.
   */
  lemma MotionEffect(hw: Hw, token: string, ms: int)
    ensures var cs := MotionCalls(token, ms);
            token in {"up", "down", "left", "right"} ==>
              |cs| == 4 && ApplyAll(hw, cs) == Hw(Idle, 0, 0, hw.leds)
    ensures token == "up" ==> ApplyAll(hw, MotionCalls(token, ms)[..2]) == Hw(Speed, -ms, -ms, hw.leds)
    ensures token == "down" ==> ApplyAll(hw, MotionCalls(token, ms)[..2]) == Hw(Speed, ms, ms, hw.leds)
    ensures token == "left" ==>
              ApplyAll(hw, MotionCalls(token, ms)[..2]) == Hw(Speed, TruncDiv(ms, 2), -TruncDiv(ms, 2), hw.leds)
    ensures token == "right" ==>
              ApplyAll(hw, MotionCalls(token, ms)[..2]) == Hw(Speed, -TruncDiv(ms, 2), TruncDiv(ms, 2), hw.leds)
    ensures token !in {"up", "down", "left", "right"} ==> MotionCalls(token, ms) == []
  {
    ScaleFactors(ms);
    ScaleFactors(-ms);
    if token == "up" {
      GoEffect(hw, -ms, -ms, STRAIGHT);
    } else if token == "down" {
      GoEffect(hw, ms, ms, STRAIGHT);
    } else if token == "left" {
      GoEffect(hw, ms, -ms, ROTATE_HIGH_SPEED_FACT);
    } else if token == "right" {
      GoEffect(hw, -ms, ms, ROTATE_HIGH_SPEED_FACT);
    }
  }

  // ---------------------------------------------------------------------
  // Passes.

  /** The first recv of a pass delivers a token: the pass goes on with it and the rest of the script. */
  lemma GotToken(ms: int, message: string, address: int, w: Wire, report: Option<seq<byte>>)
    requires w.inbound != [] && w.inbound[0].Got?
    ensures Iteration(ms, message, address, w, report) ==
            OnToken(CStr(w.inbound[0].data), ms, message, address, w.(inbound := w.inbound[1..]), report)
  {
  }

  /**
   * A pass on a token that is neither "speed" nor "file": its motion
   * calls, then the one "OK" reply; motorSpeed is unchanged and the pass
   * fails only when that reply cannot be sent.
   */
  lemma PlainPass(token: string, ms: int, message: string, address: int, w: Wire, report: Option<seq<byte>>)
    requires token != "speed" && token != "file"
    ensures var s := OnToken(token, ms, message, address, w, report);
            var (ok, w1) := SendOn(w, Text(OK));
            s == Step(ReplyStatus(ok), "", MotionCalls(token, ms), ms, w1)
  {
    assert MotionCalls(token, ms) + [] == MotionCalls(token, ms);
  }

  /**
   * A pass on a motion word, on an unknown word (including "stop" and
   * "diode", which this variant does not handle) or on an empty read:
   * the robot gets only the motion word's calls, motorSpeed is unchanged
   * and the server gets exactly one reply, "OK".
   */
  lemma PlainIteration(ms: int, message: string, address: int, w: Wire, report: Option<seq<byte>>)
    requires w.inbound != [] && w.inbound[0].Got?
    requires CStr(w.inbound[0].data) != "speed" && CStr(w.inbound[0].data) != "file"
    ensures var s := Iteration(ms, message, address, w, report);
            var token := CStr(w.inbound[0].data);
            s.calls == MotionCalls(token, ms) && s.speed == ms &&
            s.wire.inbound == w.inbound[1..] && s.wire.open == w.open &&
            s.status == ReplyStatus(SendSucceeds(w)) &&
            s.wire.sent == if SendSucceeds(w) then w.sent + [Text(OK)] else w.sent
  {
    GotToken(ms, message, address, w, report);
    PlainPass(CStr(w.inbound[0].data), ms, message, address, w.(inbound := w.inbound[1..]), report);
  }

  /** "stop" and "diode" are not commands of this variant: no library call, no change of speed, just "OK". */
  lemma UnhandledWords(ms: int, message: string, address: int, w: Wire, report: Option<seq<byte>>)
    requires Receives(w, "stop") || Receives(w, "diode")
    ensures var s := Iteration(ms, message, address, w, report);
            s.calls == [] && s.speed == ms &&
            s.wire.sent == if SendSucceeds(w) then w.sent + [Text(OK)] else w.sent
  {
    PlainIteration(ms, message, address, w, report);
    MotionEffect(Hw(Idle, 0, 0, LedsOff), CStr(w.inbound[0].data), ms);
  }

  lemma SpeedSendFails(ms: int, message: string, address: int, w: Wire, report: Option<seq<byte>>)
    requires !SendSucceeds(w)
    ensures var s := FromSpeed("speed", ms, message, address, w, report);
            s.status == Stopped(Returned(1)) && s.speed == ms && s.wire.sent == w.sent
  {
  }

  lemma SpeedRecvFails(ms: int, message: string, address: int, w: Wire, report: Option<seq<byte>>)
    requires SendSucceeds(w) && w.inbound != [] && w.inbound[0] == Failed
    ensures var s := FromSpeed("speed", ms, message, address, w, report);
            s.status == Broke && s.wire.sent == w.sent + [Text(message)]
  {
  }

  /** The "speed" exchange followed by the end-of-pass reply, as one step. */
  lemma SpeedGotStep(ms: int, message: string, address: int, w: Wire, report: Option<seq<byte>>)
    requires SendSucceeds(w) && w.inbound != [] && w.inbound[0].Got?
    ensures var w1 := SendOn(w, Text(message)).1;
            var w2 := w1.(inbound := w1.inbound[1..]);
            var r := SendOn(w2, Text(OK));
            FromSpeed("speed", ms, message, address, w, report) == Step(ReplyStatus(r.0), "", [], address, r.1)
  {
  }

  /**
   * "speed": message (on the first pass whatever the uninitialised array
   * held, later "OK") goes out, the next token is read, and motorSpeed
   * becomes the buffer's address whatever the token says; then "OK". A
   * failed first send ends main with 1; a failed recv breaks out of the
   * loop.
   */
  lemma SpeedIteration(ms: int, message: string, address: int, w: Wire, report: Option<seq<byte>>)
    requires Receives(w, "speed") && |w.inbound| >= 2
    ensures var s := Iteration(ms, message, address, w, report);
            s.calls == [] &&
            (!SendSucceeds(w) ==> s.status == Stopped(Returned(1)) && s.speed == ms && s.wire.sent == w.sent) &&
            (SendSucceeds(w) && w.inbound[1] == Failed ==>
               s.status == Broke && s.wire.sent == w.sent + [Text(message)]) &&
            (SendSucceeds(w) && w.inbound[1].Got? ==> s.speed == address && s.wire.inbound == w.inbound[2..]) &&
            (NoFailure(w.outcomes, 2) && w.inbound[1].Got? ==>
               s.status == Running && s.wire.sent == w.sent + [Text(message), Text(OK)])
  {
    var w0 := w.(inbound := w.inbound[1..]);
    GotToken(ms, message, address, w, report);
    assert Iteration(ms, message, address, w, report) == FromSpeed("speed", ms, message, address, w0, report);
    if !SendSucceeds(w) {
      SpeedSendFails(ms, message, address, w0, report);
    } else if w.inbound[1].Got? {
      SpeedGotStep(ms, message, address, w0, report);
      if NoFailure(w.outcomes, 2) {
        TwoSends(w0, Text(message), Text(OK));
      }
    } else if w.inbound[1] == Failed {
      SpeedRecvFails(ms, message, address, w0, report);
    }
  }

  /**
   * "file": a report that cannot be opened exits the process with 1 and
   * nothing sent; an opened one is streamed in blocks of LENGTH bytes,
   * followed by "OK".
   */
  lemma FileIteration(ms: int, message: string, address: int, w: Wire, report: Option<seq<byte>>)
    requires Receives(w, "file")
    ensures var s := Iteration(ms, message, address, w, report);
            var w0 := w.(inbound := w.inbound[1..]);
            s.calls == [] && s.speed == ms &&
            (report.None? ==> s.status == Stopped(Exited(1)) && s.wire == w0) &&
            (report.Some? ==>
               var (ok, w1) := SendOn(SendChunks(w0, Chunks(report.value, LENGTH)), Text(OK));
               s.status == ReplyStatus(ok) && s.wire == w1)
  {
    GotToken(ms, message, address, w, report);
  }

  // ---------------------------------------------------------------------
  // Sessions.

  /** A pass never closes the socket, and it leaves main only with return 1, exit 1, or by blocking. */
  lemma PassEnds(ms: int, message: string, address: int, w: Wire, report: Option<seq<byte>>)
    ensures var s := Iteration(ms, message, address, w, report);
            s.wire.open == w.open &&
            (s.status.Stopped? ==>
               s.status.outcome == Returned(1) || s.status.outcome == Exited(1) || s.status.outcome == Blocked)
  {
    var (r, w1) := ReceiveOn(w);
    if r.Got? {
      var token := CStr(r.data);
      var sp := SpeedCommand(token, ms, message, address, w1);
      if sp.status.Running? {
        var fi := FileCommand(sp.token, sp.speed, report, sp.wire);
        assert fi.wire.open == w.open by {
          if sp.token == "file" && report.Some? {
            SendChunksDelivers(sp.wire, Chunks(report.value, LENGTH));
          }
        }
      }
    }
  }

  /** A pass of this variant never touches the LEDs: only the shutdown after the loop does. */
  lemma PassTouchesNoLeds(ms: int, message: string, address: int, w: Wire, report: Option<seq<byte>>)
    ensures NoLedCall(Iteration(ms, message, address, w, report).calls)
  {
    var (r, w1) := ReceiveOn(w);
    if r.Got? {
      var token := CStr(r.data);
      assert Iteration(ms, message, address, w, report).calls == MotionCalls(token, ms) + [];
    }
  }

  /**
   * Every session ends in one of four ways. Breaking out of the loop (a
   * failed recv) returns 0 with the socket closed and the robot stopped,
   * idle and showing the exit LEDs, whatever it did before. A failed send
   * returns 1 at once and a report that cannot be opened exits with 1:
   * the socket stays open and no shutdown follows, so no LED is ever set.
   * Otherwise the server went silent and recv blocks.
   */
  lemma {:induction false} SessionEnds(ms: int, message: string, address: int, w: Wire,
                                       report: Option<seq<byte>>, hw: Hw)
    ensures var f := RunFrom(ms, message, address, w, report);
            (f.outcome == Returned(0) || f.outcome == Returned(1) || f.outcome == Exited(1) || f.outcome == Blocked) &&
            (f.outcome == Returned(0) ==> !f.wire.open && ApplyAll(hw, f.calls) == Hw(Idle, 0, 0, EXIT_LEDS)) &&
            (f.outcome != Returned(0) ==> f.wire.open == w.open && NoLedCall(f.calls))
    decreases |w.inbound|
  {
    var s := Iteration(ms, message, address, w, report);
    PassEnds(ms, message, address, w, report);
    PassTouchesNoLeds(ms, message, address, w, report);
    match s.status
    case Running =>
      var rest := RunFrom(s.speed, OK, address, s.wire, report);
      SessionEnds(s.speed, OK, address, s.wire, report, ApplyAll(hw, s.calls));
      ApplyAllAppend(hw, s.calls, rest.calls);
      if rest.outcome != Returned(0) {
        NoLedCallAppend(s.calls, rest.calls);
      }
    case Broke =>
      EndsShutDown(hw, s.calls, EXIT_LEDS);
    case Stopped(o) =>
  }

  /**
   * Between passes the robot is always stopped and idle: every pass that
   * goes round again leaves the wheels at 0 and the motors idle if they
   * were before, because every move of this variant ends with a stop.
   */
  lemma PassKeepsIdle(ms: int, message: string, address: int, w: Wire, report: Option<seq<byte>>, hw: Hw)
    requires hw.mode == Idle && hw.left == 0 && hw.right == 0
    ensures var s := Iteration(ms, message, address, w, report);
            ApplyAll(hw, s.calls) == Hw(Idle, 0, 0, hw.leds)
  {
    var s := Iteration(ms, message, address, w, report);
    var (r, w1) := ReceiveOn(w);
    if r.Got? {
      var token := CStr(r.data);
      MotionEffect(hw, token, ms);
      assert s.calls == MotionCalls(token, ms);
    } else {
      assert s.calls == [];
    }
  }

  /** A failed first recv ends the session at once: shutdown, socket closed, nothing sent, 0 returned. */
  lemma RecvFailureShutsDown(ms: int, message: string, address: int, w: Wire, report: Option<seq<byte>>)
    requires w.inbound != [] && w.inbound[0] == Failed
    ensures var f := RunFrom(ms, message, address, w, report);
            f.outcome == Returned(0) && f.calls == ShutdownCalls(EXIT_LEDS) &&
            f.wire == w.(inbound := w.inbound[1..], open := false)
  {
    assert [] + ShutdownCalls(EXIT_LEDS) == ShutdownCalls(EXIT_LEDS);
  }
}
