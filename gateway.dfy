/**
 * The robot as the client sees it through the vendor library: a drive
 * mode, the two wheel speeds last commanded, and the nine channels of the
 * three RGB LEDs. The library calls themselves (kh4_SetMode, kh4_set_speed,
 * kh4_SetRGBLeds) are modelled by their effect on this record, and the
 * device object keeps the list of calls it received so that the order and
 * arguments of the calls a command issues can be stated.
 */
module Gateway {
  import opened CStd

  /** kh4RegIdle and kh4RegSpeed, the two regulation modes the client uses. */
  datatype Mode = Idle | Speed

  /** The arguments of kh4_SetRGBLeds: left, right and back LED, each red, green, blue. */
  datatype Leds = Leds(leftR: int, leftG: int, leftB: int,
                       rightR: int, rightG: int, rightB: int,
                       backR: int, backG: int, backB: int)

  const LedsOff := Leds(0, 0, 0, 0, 0, 0, 0, 0, 0)

  /** The abstract state of the robot. */
  datatype Hw = Hw(mode: Mode, left: int, right: int, leds: Leds)

  /** One call into the vendor library. */
  datatype Call =
    | SetModeTo(mode: Mode)
    | SetSpeedTo(left: int, right: int)
    | SetLedsTo(leds: Leds)

  function Apply(hw: Hw, c: Call): Hw {
    match c
    case SetModeTo(m) => hw.(mode := m)
    case SetSpeedTo(l, r) => hw.(left := l, right := r)
    case SetLedsTo(leds) => hw.(leds := leds)
  }

  /** The state after a sequence of calls, in order. */
  function ApplyAll(hw: Hw, cs: seq<Call>): Hw {
    if cs == [] then hw else Apply(ApplyAll(hw, cs[..|cs| - 1]), cs[|cs| - 1])
  }

  lemma {:induction false} ApplyAllAppend(hw: Hw, a: seq<Call>, b: seq<Call>)
    ensures ApplyAll(hw, a + b) == ApplyAll(ApplyAll(hw, a), b)
  {
    if b == [] {
      assert a + b == a;
    } else {
      assert (a + b)[..|a + b| - 1] == a + b[..|b| - 1];
      ApplyAllAppend(hw, a, b[..|b| - 1]);
    }
  }

  lemma ApplyAllOne(hw: Hw, c: Call)
    ensures ApplyAll(hw, [c]) == Apply(hw, c)
  {
    assert [c][..0] == [];
  }

  lemma ApplyTwo(hw: Hw, a: Call, b: Call)
    ensures ApplyAll(hw, [a, b]) == Apply(Apply(hw, a), b)
  {
    assert [a, b][..1] == [a];
    ApplyAllOne(hw, a);
  }

  /** Calls that do not touch the wheels leave them where they were. */
  predicate NoSpeedCall(cs: seq<Call>) {
    forall i :: 0 <= i < |cs| ==> !cs[i].SetSpeedTo?
  }

  /** Calls that do not touch the LEDs leave them as they were. */
  predicate NoLedCall(cs: seq<Call>) {
    forall i :: 0 <= i < |cs| ==> !cs[i].SetLedsTo?
  }

  /** No call sets the LEDs to the pattern leds. */
  predicate NeverSetsLeds(cs: seq<Call>, leds: Leds) {
    forall i :: 0 <= i < |cs| ==> cs[i] != SetLedsTo(leds)
  }

  lemma NeverSetsLedsAppend(a: seq<Call>, b: seq<Call>, leds: Leds)
    requires NeverSetsLeds(a, leds) && NeverSetsLeds(b, leds)
    ensures NeverSetsLeds(a + b, leds)
  {
    forall i | 0 <= i < |a + b|
      ensures (a + b)[i] != SetLedsTo(leds)
    {
      if i >= |a| {
        assert (a + b)[i] == b[i - |a|];
      }
    }
  }

  lemma NoLedCallAppend(a: seq<Call>, b: seq<Call>)
    requires NoLedCall(a) && NoLedCall(b)
    ensures NoLedCall(a + b)
  {
    forall i | 0 <= i < |a + b|
      ensures !(a + b)[i].SetLedsTo?
    {
      if i >= |a| {
        assert (a + b)[i] == b[i - |a|];
      }
    }
  }

  lemma {:induction false} FrameOfCalls(hw: Hw, cs: seq<Call>)
    ensures NoSpeedCall(cs) ==> ApplyAll(hw, cs).left == hw.left && ApplyAll(hw, cs).right == hw.right
    ensures NoLedCall(cs) ==> ApplyAll(hw, cs).leds == hw.leds
  {
    if cs != [] {
      FrameOfCalls(hw, cs[..|cs| - 1]);
    }
  }

  /**
   * The shutdown sequence: stop the wheels, idle the motors, set the LEDs.
   * It runs after the main loop (with a variant-specific LED pattern), and
   * the same calls with every LED off make up the body of the Ctrl-C handler.
   */
  function ShutdownCalls(leds: Leds): seq<Call> {
    [SetSpeedTo(0, 0), SetModeTo(Idle), SetLedsTo(leds)]
  }

  lemma ShutdownState(hw: Hw, leds: Leds)
    ensures ApplyAll(hw, ShutdownCalls(leds)) == Hw(Idle, 0, 0, leds)
  {
    var a, b, c := SetSpeedTo(0, 0), SetModeTo(Idle), SetLedsTo(leds);
    assert ShutdownCalls(leds) == [a, b] + [c];
    assert [a, b] == [a] + [b];
    ApplyAllAppend(hw, [a, b], [c]);
    ApplyAllAppend(hw, [a], [b]);
    ApplyAllOne(hw, a);
    ApplyAllOne(ApplyAll(hw, [a]), b);
    ApplyAllOne(ApplyAll(hw, [a, b]), c);
  }

  /**
   * The dsPic handle: the robot's actuator state, the list of library calls
   * made through it, and the battery byte a status read returns (Buffer[3],
   * the remaining capacity in percent), which the model treats as a fixed input.
   */
  class Device {
    var mode: Mode
    var left: int
    var right: int
    var leds: Leds
    var calls: seq<Call>
    var battery: byte
    ghost const initial: Hw

    function State(): Hw
      reads this
    {
      Hw(mode, left, right, leds)
    }

    /** The state is the initial state with every logged call applied. */
    ghost predicate Valid()
      reads this
    {
      State() == ApplyAll(initial, calls)
    }

    constructor (hw: Hw, battery: byte)
      ensures Valid() && State() == hw && calls == [] && this.battery == battery
    {
      mode, left, right, leds := hw.mode, hw.left, hw.right, hw.leds;
      calls := [];
      this.battery := battery;
      initial := hw;
    }

    /** kh4_SetMode */
    method SetMode(m: Mode)
      requires Valid()
      modifies this
      ensures Valid()
      ensures calls == old(calls) + [SetModeTo(m)]
      ensures State() == old(State()).(mode := m) && battery == old(battery)
    {
      mode := m;
      calls := calls + [SetModeTo(m)];
      assert calls[..|calls| - 1] == old(calls);
    }

    /** kh4_set_speed */
    method SetSpeed(l: int, r: int)
      requires Valid()
      modifies this
      ensures Valid()
      ensures calls == old(calls) + [SetSpeedTo(l, r)]
      ensures State() == old(State()).(left := l, right := r) && battery == old(battery)
    {
      left, right := l, r;
      calls := calls + [SetSpeedTo(l, r)];
      assert calls[..|calls| - 1] == old(calls);
    }

    /** kh4_SetRGBLeds */
    method SetRGBLeds(v: Leds)
      requires Valid()
      modifies this
      ensures Valid()
      ensures calls == old(calls) + [SetLedsTo(v)]
      ensures State() == old(State()).(leds := v) && battery == old(battery)
    {
      leds := v;
      calls := calls + [SetLedsTo(v)];
      assert calls[..|calls| - 1] == old(calls);
    }

    /** The stop, idle, LED sequence of the loop exit and of the Ctrl-C handler's body. */
    method Shutdown(v: Leds)
      requires Valid()
      modifies this
      ensures Valid()
      ensures calls == old(calls) + ShutdownCalls(v)
      ensures State() == Hw(Idle, 0, 0, v) && battery == old(battery)
    {
      SetSpeed(0, 0);
      SetMode(Idle);
      SetRGBLeds(v);
    }
  }

  /**
   * The body of ctrlc_handler: stop, idle, all LEDs off, then exit(0).
   * Neither variant ever installs it with signal(), so a Ctrl-C kills the
   * process with no cleanup at all; this method is what the handler would
   * do if it were installed.
   */
  method CtrlcHandler(dev: Device) returns (exitCode: int)
    requires dev.Valid()
    modifies dev
    ensures dev.Valid()
    ensures dev.calls == old(dev.calls) + ShutdownCalls(LedsOff)
    ensures dev.State() == Hw(Idle, 0, 0, LedsOff)
    ensures exitCode == 0
  {
    dev.Shutdown(LedsOff);
    exitCode := 0;
  }
}
