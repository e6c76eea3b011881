/**
 * What the two clients share around their dispatch loop: how a pass of the
 * loop body and a whole session can end, the wheel-speed scaling of go(),
 * and the shutdown that follows the loop.
 */
module Session {
  import opened CStd
  import opened Gateway
  import opened Net
  import opened FileStream

  /** How main ends: a return, an exit, or a recv that never returns (the server stays silent). */
  datatype Outcome = Returned(code: int) | Exited(code: int) | Blocked

  /** How one pass of the loop body ends: go round again, break out of the loop, or leave main at once. */
  datatype Status = Running | Broke | Stopped(outcome: Outcome)

  /**
   * Where part of one pass leaves things: its status, what strcmp sees in
   * the reply buffer, the library calls it made, motorSpeed, and the
   * connection.
   */
  datatype Step = Step(status: Status, token: string, calls: seq<Call>, speed: int, wire: Wire)

  /** A whole session: how main ends, every library call it made, and the connection. */
  datatype Finish = Finish(outcome: Outcome, calls: seq<Call>, wire: Wire)

  /** Calls made earlier in the same pass come first. */
  function After(first: seq<Call>, s: Step): (r: Step)
    ensures r.status == s.status && r.token == s.token && r.speed == s.speed && r.wire == s.wire
    ensures r.calls == first + s.calls
  {
    s.(calls := first + s.calls)
  }

  /** ROTATE_HIGH_SPEED_FACT: turns run at half speed. */
  const ROTATE_HIGH_SPEED_FACT: real := 0.5
  const STRAIGHT: real := 1.0

  /**
   * The wheel speed go() passes on: num * rotate is a double, converted to
   * the int parameter of kh4_set_speed by truncation.
   */
  function Scale(num: int, rotate: real): int {
    TruncToInt(num as real * rotate)
  }

  /** At full factor the speed passes unchanged; at half factor it is halved toward zero, symmetrically in sign. */
  lemma ScaleFactors(num: int)
    ensures Scale(num, STRAIGHT) == num
    ensures Scale(num, ROTATE_HIGH_SPEED_FACT) == TruncDiv(num, 2)
    ensures Scale(-num, ROTATE_HIGH_SPEED_FACT) == -Scale(num, ROTATE_HIGH_SPEED_FACT)
  {
    HalfIsTruncDiv(num);
    HalfIsTruncDiv(-num);
  }

  /** Whatever a session did before, the shutdown sequence at its end leaves the robot stopped, idle, with the given LEDs. */
  lemma EndsShutDown(hw: Hw, calls: seq<Call>, leds: Leds)
    ensures ApplyAll(hw, calls + ShutdownCalls(leds)) == Hw(Idle, 0, 0, leds)
  {
    ApplyAllAppend(hw, calls, ShutdownCalls(leds));
    ShutdownState(ApplyAll(hw, calls), leds);
  }

  // ---------------------------------------------------------------------
  // The exchanges of a pass with the server.

  /** The next recv delivers a token that strcmp reads as word. */
  predicate Receives(w: Wire, word: string) {
    w.inbound != [] && w.inbound[0].Got? && CStr(w.inbound[0].data) == word
  }

  /** The next send succeeds. */
  predicate SendSucceeds(w: Wire) {
    w.outcomes == [] || w.outcomes[0]
  }

  /** How a pass ends after its last send: a failed send leaves main with 1. */
  function ReplyStatus(ok: bool): Status {
    if ok then Running else Stopped(Returned(1))
  }

  /** A send that no scheduled failure stops goes through, and the failures after it move up one place. */
  lemma NoFailureShift(w: Wire, p: Packet, n: nat)
    requires NoFailure(w.outcomes, n + 1)
    ensures SendOn(w, p).0 && NoFailure(SendOn(w, p).1.outcomes, n)
  {
    var rest := SendOn(w, p).1.outcomes;
    if w.outcomes != [] {
      assert w.outcomes[0];
      forall i | 0 <= i < n && i < |rest| ensures rest[i] {
        assert rest[i] == w.outcomes[i + 1];
      }
    }
  }

  /** Two sends with no failure scheduled, a recv between them: both messages reach the server. */
  lemma TwoSends(w: Wire, p: Packet, q: Packet)
    requires NoFailure(w.outcomes, 2) && w.inbound != []
    ensures var w1 := SendOn(w, p).1;
            var w2 := w1.(inbound := w1.inbound[1..]);
            SendOn(w2, q).0 && SendOn(w2, q).1.sent == w.sent + [p, q] && SendOn(w2, q).1.inbound == w.inbound[1..]
  {
    var w1 := SendOn(w, p).1;
    var w2 := w1.(inbound := w1.inbound[1..]);
    NoFailureShift(w, p, 1);
    NoFailureShift(w2, q, 0);
    assert w.sent + [p] + [q] == w.sent + [p, q];
  }
}
