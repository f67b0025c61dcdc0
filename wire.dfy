/**
 * The wire encodings of the PowerMate Bluetooth knob: the one-byte knob
 * notification, the one-byte battery notification, and the one-byte LED
 * brightness write.
 */
module Wire {
  import opened Results

  /** One octet of a notification or write payload. */
  type byte = x: int | 0 <= x < 256

  // ---------------------------------------------------------------------------
  // Knob notifications

  /** What the knob reports: turns, presses, and a press held for some seconds. */
  datatype KnobEvent =
    | Press
    | Right
    | Left
    | DownRight
    | DownLeft
    | LongPress
    | Hold(seconds: int)

  /** The hold codes are 114..119; the duration is the code minus this offset. */
  const HOLD_OFFSET := 113
  const HOLD_FIRST: byte := 114
  const HOLD_LAST: byte := 119

  /** An event the knob can actually send: holds last one to six seconds. */
  predicate IsWireEvent(e: KnobEvent)
  {
    e.Hold? ==> 1 <= e.seconds <= 6
  }

  /** The codes that carry an event; every other byte is ignored. */
  predicate IsKnobCode(raw: byte)
  {
    raw in {101, 102, 103, 104, 105, 112} || HOLD_FIRST <= raw <= HOLD_LAST
  }

  /** Decode one knob byte into at most one event, in the order the driver tests the codes. */
  function DecodeKnob(raw: byte): (r: Option<KnobEvent>)
    ensures r.Some? ==> IsWireEvent(r.value)
  {
    if raw == 101 then Some(Press)
    else if raw == 104 then Some(Right)
    else if raw == 103 then Some(Left)
    else if HOLD_FIRST <= raw <= HOLD_LAST then Some(Hold(raw - HOLD_OFFSET))
    else if raw == 112 then Some(DownRight)
    else if raw == 105 then Some(DownLeft)
    else if raw == 102 then Some(LongPress)
    else None
  }

  /** Reference table: the byte the knob sends for each event. */
  function WireCode(e: KnobEvent): (raw: byte)
    requires IsWireEvent(e)
    ensures IsKnobCode(raw)
  {
    match e
    case Press => 101
    case LongPress => 102
    case Left => 103
    case Right => 104
    case DownLeft => 105
    case DownRight => 112
    case Hold(n) => n + HOLD_OFFSET
  }

  /** Decoding the wire code of an event gives that event back. */
  lemma DecodeWireCode(e: KnobEvent)
    requires IsWireEvent(e)
    ensures DecodeKnob(WireCode(e)) == Some(e)
  {
  }

  /** Every decoded byte is the wire code of its event: the decoder is one-to-one. */
  lemma WireCodeOfDecoded(raw: byte)
    requires DecodeKnob(raw).Some?
    ensures WireCode(DecodeKnob(raw).value) == raw
  {
  }

  /** A byte yields an event exactly when it is one of the listed codes. */
  lemma DecodeKnobDefinedOn(raw: byte)
    ensures DecodeKnob(raw).Some? <==> IsKnobCode(raw)
  {
  }

  /** The six fixed codes. */
  lemma FixedKnobCodes()
    ensures DecodeKnob(101) == Some(Press)
    ensures DecodeKnob(104) == Some(Right)
    ensures DecodeKnob(103) == Some(Left)
    ensures DecodeKnob(112) == Some(DownRight)
    ensures DecodeKnob(105) == Some(DownLeft)
    ensures DecodeKnob(102) == Some(LongPress)
  {
  }

  /** Codes 114..119 report a hold of code - 113 seconds, so one to six seconds. */
  lemma HoldCodes(raw: byte)
    requires HOLD_FIRST <= raw <= HOLD_LAST
    ensures DecodeKnob(raw) == Some(Hold(raw - 113))
    ensures 1 <= DecodeKnob(raw).value.seconds <= 6
  {
  }

  // ---------------------------------------------------------------------------
  // Battery notifications

  /** `Buffer.readUInt8(0)`: the first byte, or nothing (a RangeError) for an empty buffer. */
  function ReadUInt8(data: seq<byte>): (r: Option<byte>)
    ensures r.None? <==> |data| == 0
    ensures r.Some? ==> r.value == data[0]
  {
    if |data| == 0 then None else Some(data[0])
  }

  // ---------------------------------------------------------------------------
  // LED brightness

  const LED_BRIGHTNESS_MIN := 161
  const LED_BRIGHTNESS_MAX := 191
  /** The byte that puts the LED into its breathing ("pulse") mode. */
  const LED_PULSE := 160

  /** The bounds of the linear map, for an increasing input range and an ordered output range. */
  lemma MapRangeBounds(x: real, inMin: real, inMax: real, outMin: real, outMax: real)
    requires inMin < inMax && outMin <= outMax
    ensures inMin <= x ==> outMin <= (x - inMin) * (outMax - outMin) / (inMax - inMin) + outMin
    ensures x <= inMax ==> (x - inMin) * (outMax - outMin) / (inMax - inMin) + outMin <= outMax
  {
    var w := inMax - inMin;
    var k := (outMax - outMin) / w;
    assert w * k == outMax - outMin;
    assert 0.0 <= k;
    assert (x - inMin) * (outMax - outMin) / w == (x - inMin) * k;
    if inMin <= x {
      assert 0.0 <= x - inMin;
      assert 0.0 <= (x - inMin) * k;
    }
    if x <= inMax {
      assert x - inMin <= w;
      assert (x - inMin) * k <= w * k;
    }
  }

  /** The driver's `map`: the linear map taking [inMin, inMax] onto [outMin, outMax]. */
  function MapRange(x: real, inMin: real, inMax: real, outMin: real, outMax: real): (r: real)
    requires inMin != inMax
    ensures inMin < inMax && outMin <= outMax && inMin <= x ==> outMin <= r
    ensures inMin < inMax && outMin <= outMax && x <= inMax ==> r <= outMax
  {
    if inMin < inMax && outMin <= outMax then
      MapRangeBounds(x, inMin, inMax, outMin, outMax);
      (x - inMin) * (outMax - outMin) / (inMax - inMin) + outMin
    else
      (x - inMin) * (outMax - outMin) / (inMax - inMin) + outMin
  }

  /** `map` sends the ends of its domain to the ends of its range. */
  lemma MapRangeEnds(inMin: real, inMax: real, outMin: real, outMax: real)
    requires inMin != inMax
    ensures MapRange(inMin, inMin, inMax, outMin, outMax) == outMin
    ensures MapRange(inMax, inMin, inMax, outMin, outMax) == outMax
  {
  }

  /** `map` with an increasing domain and a non-decreasing range is non-decreasing. */
  lemma MapRangeMonotone(x: real, y: real, inMin: real, inMax: real, outMin: real, outMax: real)
    requires inMin < inMax && outMin <= outMax && x <= y
    ensures MapRange(x, inMin, inMax, outMin, outMax) <= MapRange(y, inMin, inMax, outMin, outMax)
  {
    var k := (outMax - outMin) / (inMax - inMin);
    assert k >= 0.0;
    assert MapRange(x, inMin, inMax, outMin, outMax) == (x - inMin) * k + outMin;
    assert MapRange(y, inMin, inMax, outMin, outMax) == (y - inMin) * k + outMin;
    assert (y - inMin) * k - (x - inMin) * k == (y - x) * k;
  }

  /** `Math.round`: the nearest integer, halves rounded up. */
  function Round(x: real): (r: int)
    ensures x - 0.5 < r as real <= x + 0.5
  {
    (x + 0.5).Floor
  }

  /** The brightness value the driver computes for a requested level. */
  function MappedLevel(level: int): (r: int)
    ensures level < 0 ==> r == LED_PULSE
    ensures level >= 0 ==> LED_BRIGHTNESS_MIN <= r
    ensures 0 <= level <= 100 ==> r <= LED_BRIGHTNESS_MAX
  {
    if level >= 0 then
      Round(MapRange(level as real, 0.0, 100.0, LED_BRIGHTNESS_MIN as real, LED_BRIGHTNESS_MAX as real))
    else
      LED_PULSE
  }

  /** The byte actually written: `new Buffer([v])` keeps the low eight bits of `v`. */
  function LedByte(level: int): (r: byte)
    ensures level < 0 ==> r == LED_PULSE
    ensures 0 <= level <= 100 ==> r == MappedLevel(level) && LED_BRIGHTNESS_MIN <= r <= LED_BRIGHTNESS_MAX
  {
    MappedLevel(level) % 256
  }

  /** Floor of a tenth, in reals, is integer division by ten. */
  lemma FloorOfTenth(n: int)
    ensures ((n as real) / 10.0).Floor == n / 10
  {
    var q, r := n / 10, n % 10;
    assert n == 10 * q + r && 0 <= r < 10;
    assert (n as real) / 10.0 == q as real + (r as real) / 10.0;
  }

  /** For levels of 0 or more the rounded map is 161 + (3 * level + 5) / 10 in integers. */
  lemma {:induction false} MappedLevelFormula(level: int)
    requires level >= 0
    ensures MappedLevel(level) == LED_BRIGHTNESS_MIN + (3 * level + 5) / 10
  {
    var x := level as real;
    assert MapRange(x, 0.0, 100.0, 161.0, 191.0) + 0.5 == 161.0 + ((3 * level + 5) as real) / 10.0;
    FloorOfTenth(3 * level + 5);
  }

  /** Sample values: 0 gives 161, 50 gives 176, 100 gives 191. */
  lemma LedByteSamples()
    ensures LedByte(0) == 161 && LedByte(50) == 176 && LedByte(100) == 191
  {
    MappedLevelFormula(0);
    MappedLevelFormula(50);
    MappedLevelFormula(100);
  }

  /** Any negative level selects pulse mode, whatever its magnitude. */
  lemma LedBytePulse(level: int)
    requires level < 0
    ensures LedByte(level) == LED_PULSE
  {
  }

  /** Up to level 314 the mapped value fits in a byte and is written unchanged. */
  lemma LedByteNoTruncation(level: int)
    requires 0 <= level <= 314
    ensures LedByte(level) == MappedLevel(level) == LED_BRIGHTNESS_MIN + (3 * level + 5) / 10
  {
    MappedLevelFormula(level);
  }

  /** A percentage lands in the hardware range [161, 191]. */
  lemma LedByteInRange(level: int)
    requires 0 <= level <= 100
    ensures LED_BRIGHTNESS_MIN <= LedByte(level) <= LED_BRIGHTNESS_MAX
  {
    LedByteNoTruncation(level);
  }

  /** The written byte never decreases as the level grows, up to level 314. */
  lemma LedByteMonotone(a: int, b: int)
    requires 0 <= a <= b <= 314
    ensures LedByte(a) <= LedByte(b)
  {
    LedByteNoTruncation(a);
    LedByteNoTruncation(b);
  }

  /** Levels above 100 are not clamped: from 102 on the byte lies above 191. */
  lemma LedByteNotClamped(level: int)
    requires 102 <= level <= 314
    ensures LedByte(level) > LED_BRIGHTNESS_MAX
  {
    LedByteNoTruncation(level);
  }

  /** From level 315 the mapped value no longer fits and wraps: 315 writes 0. */
  lemma LedByteWraps()
    ensures MappedLevel(315) == 256 && LedByte(315) == 0
  {
    MappedLevelFormula(315);
  }
}
