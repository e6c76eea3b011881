/**
 * The robot returns its sensor readings as raw byte buffers: channel i is
 * the little-endian 16-bit word in bytes 2i and 2i+1, stored into a short.
 * The client decodes the proximity (12 channels), ultrasonic (5) and
 * ambient (12) buffers this way, and one variant turns each proximity
 * reading into a text bar drawn with terminal cursor movements.
 */
module Sensors {
  import opened CStd

  // ---------------------------------------------------------------------
  // Little-endian decoding.

  lemma ShiftIsMul(hi: byte)
    ensures ((hi as bv16) << 8) as int == 256 * (hi as int)
  {
  }

  lemma AddNoWrap(lo: byte, hi: byte)
    ensures ((lo as bv16) + ((hi as bv16) << 8)) as int == lo as int + ((hi as bv16) << 8) as int
  {
  }

  /**
   * Buffer[2i] | Buffer[2i+1] << 8, with unsigned bytes (char is unsigned
   * on the robot's ARM processor): the low byte plus 256 times the high one.
   */
  function Le16(lo: byte, hi: byte): (v: int)
    ensures 0 <= v < 65536
    ensures v % 256 == lo as int && v / 256 == hi as int
  {
    var x := (lo as bv16) | ((hi as bv16) << 8);
    assert x == (lo as bv16) + ((hi as bv16) << 8);
    ShiftIsMul(hi);
    AddNoWrap(lo, hi);
    x as int
  }

  /** Channel i of a raw buffer, as the short it is stored into. */
  function Channel(buf: seq<byte>, i: nat): (v: int)
    requires 2 * i + 1 < |buf|
    ensures SHORT_MIN <= v <= SHORT_MAX
  {
    ToShort(Le16(buf[2 * i], buf[2 * i + 1]))
  }

  /** The first count channels of a raw buffer. */
  function Channels(buf: seq<byte>, count: nat): (vs: seq<int>)
    requires 2 * count <= |buf|
    ensures |vs| == count
  {
    seq(count, i requires 0 <= i < count => Channel(buf, i))
  }

  predicate ShortValues(vs: seq<int>) {
    forall i :: 0 <= i < |vs| ==> SHORT_MIN <= vs[i] <= SHORT_MAX
  }

  /** The two bytes, low first, of a short in two's complement. */
  function LowByte(v: int): byte {
    ByteOf((v % 65536) % 256)
  }

  function HighByte(v: int): byte {
    ByteOf((v % 65536) / 256)
  }

  /** How the robot lays out a list of shorts: two bytes each, little-endian. */
  function Encode(vs: seq<int>): (buf: seq<byte>)
    ensures |buf| == 2 * |vs|
  {
    seq(2 * |vs|, j requires 0 <= j < 2 * |vs| => if j % 2 == 0 then LowByte(vs[j / 2]) else HighByte(vs[j / 2]))
  }

  /** Decoding reads back every short the robot encoded. */
  lemma DecodeEncode(vs: seq<int>)
    requires ShortValues(vs)
    ensures Channels(Encode(vs), |vs|) == vs
  {
    forall i | 0 <= i < |vs|
      ensures Channels(Encode(vs), |vs|)[i] == vs[i]
    {
      EncodedChannel(vs, i);
    }
  }

  lemma EncodedChannel(vs: seq<int>, i: nat)
    requires ShortValues(vs) && i < |vs|
    ensures Channel(Encode(vs), i) == vs[i]
  {
    var buf := Encode(vs);
    assert buf[2 * i] == LowByte(vs[i]);
    assert buf[2 * i + 1] == HighByte(vs[i]);
    ShortBytes(vs[i]);
  }

  lemma ShortBytes(v: int)
    requires SHORT_MIN <= v <= SHORT_MAX
    ensures ToShort(Le16(LowByte(v), HighByte(v))) == v
  {
    BytesOf(v);
    Le16IsSum(LowByte(v), HighByte(v));
    ToShortOfMod(v);
  }

  /** The two bytes of a short, low one first, make up its value modulo 2^16. */
  lemma BytesOf(v: int)
    ensures LowByte(v) as int + 256 * (HighByte(v) as int) == v % 65536
  {
    var u := v % 65536;
    assert u == 256 * (u / 256) + u % 256;
  }

  lemma Le16IsSum(lo: byte, hi: byte)
    ensures Le16(lo, hi) == lo as int + 256 * (hi as int)
  {
    var w := Le16(lo, hi);
    assert w == 256 * (w / 256) + w % 256;
  }

  lemma ToShortOfMod(v: int)
    requires SHORT_MIN <= v <= SHORT_MAX
    ensures ToShort(v % 65536) == v
  {
    if v < 0 {
      assert v % 65536 == v + 65536;
    }
  }

  /** Every buffer is the encoding of the channels decoded from it: decoding loses nothing. */
  lemma EncodeDecode(buf: seq<byte>, count: nat)
    requires |buf| == 2 * count
    ensures ShortValues(Channels(buf, count))
    ensures Encode(Channels(buf, count)) == buf
  {
    forall j | 0 <= j < |buf|
      ensures Encode(Channels(buf, count))[j] == buf[j]
    {
      DecodedByte(buf, count, j);
    }
  }

  lemma DecodedByte(buf: seq<byte>, count: nat, j: nat)
    requires |buf| == 2 * count && j < |buf|
    ensures Encode(Channels(buf, count))[j] == buf[j]
  {
    var vs := Channels(buf, count);
    var i := j / 2;
    assert vs[i] == ToShort(Le16(buf[2 * i], buf[2 * i + 1]));
    ChannelBytes(buf[2 * i], buf[2 * i + 1]);
    if j % 2 == 0 {
      assert j == 2 * i;
    } else {
      assert j == 2 * i + 1;
    }
  }

  /** The two bytes of a decoded channel are the two raw bytes it came from. */
  lemma ChannelBytes(lo: byte, hi: byte)
    ensures LowByte(ToShort(Le16(lo, hi))) == lo
    ensures HighByte(ToShort(Le16(lo, hi))) == hi
  {
    var w := Le16(lo, hi);
    ShortModulus(w);
    assert LowByte(ToShort(w)) == ByteOf(lo as int);
    assert HighByte(ToShort(w)) == ByteOf(hi as int);
    ByteOfValue(lo);
    ByteOfValue(hi);
  }

  /** Storing an unsigned 16-bit value in a short keeps it modulo 65536. */
  lemma ShortModulus(w: int)
    requires 0 <= w < 65536
    ensures ToShort(w) % 65536 == w
  {
    if w > SHORT_MAX {
      assert ToShort(w) == w - 65536;
    }
  }

  /**
   * The decode loop of proximitySensor, uaSensor and ambientSensor:
   * sensors[i] = Buffer[2i] | Buffer[2i+1] << 8 for i below count, in place.
   */
  method DecodeInto(buffer: seq<byte>, sensors: array<int>, count: nat)
    requires 2 * count <= |buffer| && count <= sensors.Length
    modifies sensors
    ensures sensors[..count] == Channels(buffer, count)
    ensures sensors[count..] == old(sensors[count..])
  {
    for i := 0 to count
      invariant forall j :: 0 <= j < i ==> sensors[j] == Channel(buffer, j)
      invariant sensors[count..] == old(sensors[count..])
    {
      sensors[i] := ToShort(Le16(buffer[2 * i], buffer[2 * i + 1]));
    }
  }

  const PROXIMITY_CHANNELS := 12
  const US_CHANNELS := 5
  const AMBIENT_CHANNELS := 12

  /** proximitySensor: the twelve infrared proximity channels. */
  method ProximitySensor(buffer: seq<byte>, sensors: array<int>)
    requires 2 * PROXIMITY_CHANNELS <= |buffer| && PROXIMITY_CHANNELS <= sensors.Length
    modifies sensors
    ensures sensors[..PROXIMITY_CHANNELS] == Channels(buffer, PROXIMITY_CHANNELS)
    ensures sensors[PROXIMITY_CHANNELS..] == old(sensors[PROXIMITY_CHANNELS..])
  {
    DecodeInto(buffer, sensors, PROXIMITY_CHANNELS);
  }

  /** uaSensor: the five ultrasonic distances, cast to short explicitly. */
  method UaSensor(buffer: seq<byte>, usvalues: array<int>)
    requires 2 * US_CHANNELS <= |buffer| && US_CHANNELS <= usvalues.Length
    modifies usvalues
    ensures usvalues[..US_CHANNELS] == Channels(buffer, US_CHANNELS)
    ensures usvalues[US_CHANNELS..] == old(usvalues[US_CHANNELS..])
  {
    DecodeInto(buffer, usvalues, US_CHANNELS);
  }

  /** ambientSensor: the twelve ambient-light channels. */
  method AmbientSensor(buffer: seq<byte>, sensors: array<int>)
    requires 2 * AMBIENT_CHANNELS <= |buffer| && AMBIENT_CHANNELS <= sensors.Length
    modifies sensors
    ensures sensors[..AMBIENT_CHANNELS] == Channels(buffer, AMBIENT_CHANNELS)
    ensures sensors[AMBIENT_CHANNELS..] == old(sensors[AMBIENT_CHANNELS..])
  {
    DecodeInto(buffer, sensors, AMBIENT_CHANNELS);
  }

  // ---------------------------------------------------------------------
  // The infrared bar display.

  /** The bar is IR_BAR_LEN columns wide between its two end marks. */
  const IR_BAR_LEN := 15
  const ESC: char := '\U{1B}'

  /**
   * (int)(sensor * IR_BAR_LEN / 1024.0): the product is an int, the
   * division is done in double and the conversion truncates, which is the
   * truncating integer quotient of the product by 1024.
   */
  function IrLevel(s: int): (n: int)
    ensures n == TruncDiv(s * IR_BAR_LEN, 1024)
  {
    var x := (s * IR_BAR_LEN) as real / 1024.0;
    TruncQuotient(s * IR_BAR_LEN);
    TruncToInt(x)
  }

  /** Converting a / 1024.0 to int is the truncating quotient of a by 1024. */
  lemma TruncQuotient(a: int)
    ensures TruncToInt(a as real / 1024.0) == TruncDiv(a, 1024)
  {
    var q := TruncDiv(a, 1024);
    var x := a as real / 1024.0;
    assert a as real == x * 1024.0;
    if a >= 0 {
      assert q * 1024 <= a < q * 1024 + 1024;
      assert q as real <= x < (q + 1) as real;
    } else {
      assert q * 1024 - 1024 < a <= q * 1024;
      assert (q - 1) as real < x <= q as real;
    }
  }

  /** The escape sequence ESC [ k C, "%d" rendering of k: move the cursor k columns right. */
  function CursorForward(k: int): string {
    [ESC, '['] + FormatDecimal(k) + "C"
  }

  /**
   * The bar for level n: the marker '>' right after the left end when n is
   * 0, right before the right end when n reaches IR_BAR_LEN-1, and in
   * between with cursor moves of IR_BAR_LEN-1-n and n columns otherwise.
   */
  function IrBar(n: int): (r: string)
    ensures 2 <= |r| && r[0] == '|' && r[|r| - 1] == '|'
  {
    if n == 0 then "|" + CursorForward(IR_BAR_LEN - 1) + ">|"
    else if n >= IR_BAR_LEN - 1 then "|>" + CursorForward(IR_BAR_LEN - 1) + "|"
    else "|" + CursorForward(IR_BAR_LEN - 1 - n) + ">" + CursorForward(n) + "|"
  }

  function Max(a: int, b: int): int {
    if a >= b then a else b
  }

  /**
   * What a terminal shows for a string, starting at column col: the
   * printed characters with their columns. ESC [ k C is Cursor Forward
   * (CUF, section 8.3.20 of ECMA-48): it moves k columns right, and a
   * parameter of 0 counts as 1.
   */
  function Render(s: string, col: int): seq<(int, char)>
    decreases |s|
  {
    if s == [] then []
    else if |s| >= 2 && s[0] == ESC && s[1] == '[' && IsCuf(s[2..]) then
      var k := DigitRun(s[2..]);
      Render(s[3 + k..], col + Max(DigitsValue(s[2..][..k]), 1))
    else [(col, s[0])] + Render(s[1..], col + 1)
  }

  /** A run of digits followed by 'C'. */
  predicate IsCuf(t: string) {
    var k := DigitRun(t);
    k > 0 && k < |t| && t[k] == 'C'
  }

  lemma RenderForward(k: nat, rest: string, col: int, next: int, s: string)
    requires next == col + Max(k, 1) && s == CursorForward(k) + rest
    ensures Render(s, col) == Render(rest, next)
  {
    CufLayout(k, rest);
    CufParameter(k, rest);
    RenderCuf(s, col);
  }

  /** ESC [ k C followed by rest, taken apart: the two lead characters, the digits and 'C', then rest. */
  lemma CufLayout(k: nat, rest: string)
    ensures var s := CursorForward(k) + rest;
            var ds := NatDigits(k);
            |s| == 3 + |ds| + |rest| && s[0] == ESC && s[1] == '[' &&
            s[2..] == ds + ("C" + rest) && s[3 + |ds|..] == rest
  {
    var ds := NatDigits(k);
    var s := CursorForward(k) + rest;
    assert CursorForward(k) == [ESC, '['] + ds + "C";
    assert s == [ESC, '['] + (ds + ("C" + rest));
  }

  /** After ESC [, the "%d" digits of k and a 'C' form one Cursor Forward with parameter k. */
  lemma CufParameter(k: nat, rest: string)
    ensures var ds := NatDigits(k);
            var t := ds + ("C" + rest);
            IsCuf(t) && DigitRun(t) == |ds| && DigitsValue(t[..|ds|]) == k
  {
    var ds := NatDigits(k);
    var t := ds + ("C" + rest);
    DigitRunAppend(ds, "C" + rest);
    assert t[..|ds|] == ds;
    assert t[|ds|] == 'C';
    NatDigitsValue(k);
  }

  /** One Cursor Forward sequence at the head of a string. */
  lemma RenderCuf(s: string, col: int)
    requires |s| >= 2 && s[0] == ESC && s[1] == '[' && IsCuf(s[2..])
    ensures var k := DigitRun(s[2..]);
            Render(s, col) == Render(s[3 + k..], col + Max(DigitsValue(s[2..][..k]), 1))
  {
  }

  lemma RenderPlain(c: char, rest: string, col: int)
    requires c != ESC
    ensures Render([c] + rest, col) == [(col, c)] + Render(rest, col + 1)
  {
    assert ([c] + rest)[1..] == rest;
  }

  /**
   * Whatever the level, the bar spans columns 0 to IR_BAR_LEN+1 with its
   * end marks there, and shows exactly one '>' between them, at column
   * IR_BAR_LEN - min(n, IR_BAR_LEN-1): further left the higher the level.
   */
  lemma BarLayout(n: int)
    requires n >= 0
    ensures Render(IrBar(n), 0) == [(0, '|'), (IR_BAR_LEN - Min(n, IR_BAR_LEN - 1), '>'), (IR_BAR_LEN + 1, '|')]
  {
    if n == 0 {
      BarIsAtZero(n);
    } else if n >= 14 {
      BarIsAtTop(n);
    } else {
      BarIsBetween(n);
    }
  }

  lemma BarIsAtZero(n: int)
    requires n == 0
    ensures Render(IrBar(n), 0) == [(0, '|'), (15, '>'), (16, '|')]
  {
    BarAtZero(IrBar(n));
  }

  lemma BarIsAtTop(n: int)
    requires n >= 14
    ensures Render(IrBar(n), 0) == [(0, '|'), (1, '>'), (16, '|')]
  {
    BarAtTop(IrBar(n));
  }

  lemma BarIsBetween(n: int)
    requires 0 < n < 14
    ensures Render(IrBar(n), 0) == [(0, '|'), (15 - n, '>'), (16, '|')]
  {
    BarShape(IR_BAR_LEN - 1 - n, n, 15 - n, 16, IrBar(n));
  }

  lemma BarAtZero(bar: string)
    requires bar == "|" + CursorForward(IR_BAR_LEN - 1) + ">|"
    ensures Render(bar, 0) == [(0, '|'), (15, '>'), (16, '|')]
  {
    var inner := CursorForward(14) + ">|";
    assert bar == "|" + inner;
    ForwardThenEnd(14, 1, 15, 16, inner);
    OpenBar(inner, 15, 16, bar);
  }

  lemma BarAtTop(bar: string)
    requires bar == "|>" + CursorForward(IR_BAR_LEN - 1) + "|"
    ensures Render(bar, 0) == [(0, '|'), (1, '>'), (16, '|')]
  {
    var inner := ">" + (CursorForward(14) + "|");
    assert bar == "|" + inner;
    MarkThenForward(14, 1, 16, inner);
    OpenBar(inner, 1, 16, bar);
  }

  /** '|', a move of a columns, '>', a move of b columns, '|'. */
  lemma BarShape(a: nat, b: nat, mark: int, end: int, bar: string)
    requires a >= 1 && b >= 1 && mark == 1 + a && end == mark + b + 1
    requires bar == "|" + CursorForward(a) + ">" + CursorForward(b) + "|"
    ensures Render(bar, 0) == [(0, '|'), (mark, '>'), (end, '|')]
  {
    var inner := CursorForward(a) + (">" + (CursorForward(b) + "|"));
    assert bar == "|" + inner;
    ForwardMarkForward(a, b, 1, mark, end, inner);
    OpenBar(inner, mark, end, bar);
  }

  /** The opening '|' of a bar goes to column 0 and the rest starts at column 1. */
  lemma OpenBar(inner: string, mark: int, end: int, bar: string)
    requires bar == "|" + inner && Render(inner, 1) == [(mark, '>'), (end, '|')]
    ensures Render(bar, 0) == [(0, '|'), (mark, '>'), (end, '|')]
  {
    RenderPlain('|', inner, 0);
  }

  /** A move of a columns, '>', a move of b columns, then '|'. */
  lemma ForwardMarkForward(a: nat, b: nat, col: int, mark: int, end: int, s: string)
    requires a >= 1 && b >= 1 && mark == col + a && end == mark + b + 1
    requires s == CursorForward(a) + (">" + (CursorForward(b) + "|"))
    ensures Render(s, col) == [(mark, '>'), (end, '|')]
  {
    var tail := ">" + (CursorForward(b) + "|");
    MarkThenForward(b, mark, end, tail);
    RenderForward(a, tail, col, mark, s);
  }

  /** A move of a columns, then '>' and the closing '|' side by side. */
  lemma ForwardThenEnd(a: nat, col: int, mark: int, end: int, s: string)
    requires a >= 1 && mark == col + a && end == mark + 1 && s == CursorForward(a) + ">|"
    ensures Render(s, col) == [(mark, '>'), (end, '|')]
  {
    RenderForward(a, ">|", col, mark, s);
    assert ">|" == ['>'] + "|";
    RenderPlain('>', "|", mark);
    RenderPlain('|', "", end);
  }

  /** '>' at column c, then a move of n columns, then the closing '|'. */
  lemma MarkThenForward(n: nat, c: int, end: int, s: string)
    requires 0 < n && end == c + n + 1 && s == ">" + (CursorForward(n) + "|")
    ensures Render(s, c) == [(c, '>'), (end, '|')]
  {
    RenderPlain('>', CursorForward(n) + "|", c);
    RenderForward(n, "|", c + 1, end, CursorForward(n) + "|");
    RenderPlain('|', "", end);
  }

  /** The two end cases as literal text: ESC [ 14 C between the marks. */
  lemma BarText(n: int)
    ensures n == 0 ==> IrBar(n) == "|\U{1B}[14C>|"
    ensures n >= IR_BAR_LEN - 1 ==> IrBar(n) == "|>\U{1B}[14C|"
  {
    assert NatDigits(14) == NatDigits(1) + [DigitChar(4)];
    assert FormatDecimal(14) == "14";
  }

  /**
   * For a proximity reading s (10 bits), the bar shows its marker at
   * column IR_BAR_LEN - trunc(15 s / 1024): column 15 for readings below
   * 69, column 1 for readings of 956 and more.
   */
  lemma ReadingBar(s: int)
    requires 0 <= s < 1024
    ensures Render(IrBar(IrLevel(s)), 0) == [(0, '|'), (IR_BAR_LEN - IrLevel(s), '>'), (IR_BAR_LEN + 1, '|')]
    ensures s < 69 ==> IrLevel(s) == 0
    ensures s >= 956 ==> IrLevel(s) == IR_BAR_LEN - 1
  {
    LevelRange(s);
    BarLayout(IrLevel(s));
  }

  /** A proximity reading (10 bits, 0 to 1023) gives a level of 0 to IR_BAR_LEN-1. */
  lemma LevelRange(s: int)
    requires 0 <= s < 1024
    ensures 0 <= IrLevel(s) <= IR_BAR_LEN - 1
  {
  }

  /**
   * The loop of the "file" command of the second variant: decode the
   * twelve proximity channels into sensors and draw each one's bar into
   * bars, in place.
   */
  method ProximityBars(buffer: seq<byte>, sensors: array<int>, bars: array<string>)
    requires 2 * PROXIMITY_CHANNELS <= |buffer|
    requires PROXIMITY_CHANNELS <= sensors.Length && PROXIMITY_CHANNELS <= bars.Length
    modifies sensors, bars
    ensures sensors[..PROXIMITY_CHANNELS] == Channels(buffer, PROXIMITY_CHANNELS)
    ensures forall i :: 0 <= i < PROXIMITY_CHANNELS ==> bars[i] == IrBar(IrLevel(sensors[i]))
    ensures sensors[PROXIMITY_CHANNELS..] == old(sensors[PROXIMITY_CHANNELS..])
    ensures bars[PROXIMITY_CHANNELS..] == old(bars[PROXIMITY_CHANNELS..])
  {
    for i := 0 to PROXIMITY_CHANNELS
      invariant forall j :: 0 <= j < i ==> sensors[j] == Channel(buffer, j)
      invariant forall j :: 0 <= j < i ==> bars[j] == IrBar(IrLevel(Channel(buffer, j)))
      invariant forall j :: PROXIMITY_CHANNELS <= j < sensors.Length ==> sensors[j] == old(sensors[j])
      invariant forall j :: PROXIMITY_CHANNELS <= j < bars.Length ==> bars[j] == old(bars[j])
    {
      DrawChannel(buffer, i, sensors, bars);
    }
    assert sensors[..PROXIMITY_CHANNELS] == Channels(buffer, PROXIMITY_CHANNELS);
  }

  /** One pass of that loop: decode channel i and draw its bar. */
  method DrawChannel(buffer: seq<byte>, i: nat, sensors: array<int>, bars: array<string>)
    requires 2 * i + 1 < |buffer| && i < sensors.Length && i < bars.Length
    modifies sensors, bars
    ensures sensors[i] == Channel(buffer, i) && bars[i] == IrBar(IrLevel(Channel(buffer, i)))
    ensures forall j :: 0 <= j < sensors.Length && j != i ==> sensors[j] == old(sensors[j])
    ensures forall j :: 0 <= j < bars.Length && j != i ==> bars[j] == old(bars[j])
  {
    var v := ToShort(Le16(buffer[2 * i], buffer[2 * i + 1]));
    sensors[i] := v;
    bars[i] := IrBar(IrLevel(v));
  }
}
