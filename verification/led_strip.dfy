/** An addressable LED strip (LEDStrip): a buffer of LED colours written by
    index, range fills in RGB or HSV, and three animations that advance a
    counter on every call: a whole-strip rainbow, a rainbow band spread over
    the strip, and a band of nodes of one colour. Sending the buffer to the
    hardware is not modelled; the buffer is the state. */
module LedStrip {
  import opened JavaMath
  import opened Exceptions

  /** WPILib's Color: three channels. */
  datatype Color = Color(red: real, green: real, blue: real)

  /** What an LED was last set to: an RGB colour, or the HSV triple handed to
      the buffer (the buffer's HSV-to-RGB conversion is not modelled). */
  datatype Led = Rgb(color: Color) | Hsv(h: int, s: int, v: int)

  const Off: Led := Rgb(Color(0.0, 0.0, 0.0))

  /** The frame after writing led at every index of [start, end) that the
      loop reaches: a negative start throws before any write, and an end
      past the strip throws after the last LED has been written. */
  function FillFrame(frame: seq<Led>, start: int, end: int, led: Led): (r: seq<Led>)
    ensures |r| == |frame|
  {
    seq(|frame|, k requires 0 <= k < |frame| => if 0 <= start <= k < end then led else frame[k])
  }

  /** Filling the whole strip forgets the old frame; filling a range twice
      is filling it once with the second value. */
  lemma FillFrameProperties(frame: seq<Led>, start: int, end: int, a: Led, b: Led)
    ensures FillFrame(frame, 0, |frame|, a) == seq(|frame|, _ => a)
    ensures FillFrame(FillFrame(frame, start, end, a), start, end, b) == FillFrame(frame, start, end, b)
    ensures forall k :: 0 <= k < |frame| && !(start <= k < end) ==> FillFrame(frame, start, end, a)[k] == frame[k]
  {
  }

  /** The hue after `hue += increment; hue %= 180` with an int hue: the sum
      is cast back to int (truncation) and the remainder keeps its sign. */
  function NextHue(hue: int, increment: real): (r: int)
    ensures -180 < r < 180
    ensures hue as real + increment >= 0.0 ==> 0 <= r
  {
    JavaRem(ToInt(hue as real + increment), 180)
  }

  /** From a non-negative hue a non-negative increment lands in [0, 180); an
      increment below one LED step of hue is truncated away, so a slow
      rainbow never moves; a whole increment turns the wheel by that much. */
  lemma NextHueProperties(hue: int, increment: real)
    ensures hue >= 0 && increment >= 0.0 ==> 0 <= NextHue(hue, increment) < 180
    ensures 0 <= hue < 180 && 0.0 <= increment < 1.0 ==> NextHue(hue, increment) == hue
    ensures 0 <= hue && 0.0 <= increment && hue as real + increment < INT_MAX as real ==>
              NextHue(hue, increment) == (hue + increment.Floor) % 180
  {
    var x := hue as real + increment;
    if 0 <= hue && 0.0 <= increment && x < INT_MAX as real {
      var t := ToInt(x);
      assert t == x.Floor;
      assert x.Floor == hue + increment.Floor;
    }
  }

  /** A negative increment can turn the hue negative. */
  lemma NextHueCanGoNegative()
    ensures NextHue(0, -1.0) == -1
    ensures NextHue(5, -20.5) == -15
  {
    assert ToInt(-1.0) == -1;
    assert ToInt(-15.5) == -15;
  }

  /** The hue of LED k in a rainbow band: the base hue plus k/len of the
      wheel, in int arithmetic. */
  function BandHue(hue: int, k: int, len: int): (r: int)
    requires len > 0
    ensures -180 < r < 180
    ensures hue >= 0 && k >= 0 ==> 0 <= r
  {
    JavaRem(hue + JavaDiv(k * 180, len), 180)
  }

  /** The rainbow band written over a strip of len LEDs. */
  function RainbowFrame(hue: int, len: nat, s: int, v: int): (r: seq<Led>)
    ensures |r| == len
  {
    seq(len, k requires 0 <= k < len => Hsv(BandHue(hue, k, len), s, v))
  }

  /** The offsets k*180/len grow with k and stay below a full wheel. */
  lemma RainbowOffsets(len: int, j: int, k: int)
    requires 0 <= j <= k < len
    ensures 0 <= JavaDiv(j * 180, len) <= JavaDiv(k * 180, len) < 180
  {
    MulMonoInt(j, k, 180);
    MulMonoInt(k + 1, len, 180);
    DivMonotone(j * 180, k * 180, len);
    DivBelow(k * 180, len, 180);
  }

  lemma MulMonoInt(a: int, b: int, c: int)
    requires a <= b && 0 <= c
    ensures a * c <= b * c
  {
    assert b * c - a * c == (b - a) * c;
  }

  lemma DivMonotone(x: int, y: int, n: int)
    requires 0 <= x <= y && n > 0
    ensures x / n <= y / n
  {
    if x / n > y / n {
      MulMonoInt(y / n + 1, x / n, n);
    }
  }

  lemma DivBelow(a: int, n: int, c: int)
    requires n > 0 && 0 <= a < c * n
    ensures a / n < c
  {
    if a / n >= c {
      MulMonoInt(c, a / n, n);
    }
  }

  /** From a hue in [0, 180) every LED of the band gets a hue in [0, 180),
      the first LED gets the base hue, and the offsets grow along the strip. */
  lemma RainbowFrameHues(hue: int, len: nat, s: int, v: int)
    requires 0 <= hue < 180
    ensures forall k :: 0 <= k < len ==> 0 <= RainbowFrame(hue, len, s, v)[k].h < 180
    ensures len > 0 ==> RainbowFrame(hue, len, s, v)[0] == Hsv(hue, s, v)
  {
    forall k | 0 <= k < len
      ensures 0 <= RainbowFrame(hue, len, s, v)[k].h < 180
    {
      RainbowOffsets(len, k, k);
    }
  }

  /** Multiplies each channel by an int brightness. */
  function Scale(color: Color, brightness: int): Color
  {
    Color(color.red * brightness as real, color.green * brightness as real, color.blue * brightness as real)
  }

  /** len / (2 * nodes), with 2 * nodes in int arithmetic. */
  function HalfWavelength(len: int, nodes: int): (r: int)
    requires Wrap32(2 * nodes) != 0
    ensures IntAbs(r) == IntAbs(len) / IntAbs(Wrap32(2 * nodes))
    ensures 0 <= len && 0 < nodes <= INT_MAX / 2 ==> r == len / (2 * nodes)
  {
    JavaDiv(len, Wrap32(2 * nodes))
  }

  /** Whether the band's two int divisions are defined: 2 * nodes and the
      half wavelength must both be non-zero. */
  predicate BandDivides(len: int, nodes: int)
  {
    Wrap32(2 * nodes) != 0 && HalfWavelength(len, nodes) != 0
  }

  /** More nodes than half the strip leave a half wavelength of 0, and the
      band's remainder by it throws. */
  lemma TooManyNodesDivideByZero(len: int, nodes: int)
    requires 0 < len < 2 * nodes && nodes <= INT_MAX / 2
    ensures !BandDivides(len, nodes)
  {
    assert Wrap32(2 * nodes) == 2 * nodes;
  }

  /** The int brightness of the LED at index idx. */
  function BandBrightness(idx: int, hw: int): (r: int)
    requires hw != 0
    ensures hw > 0 ==> -1 <= r <= 1
  {
    var d := IntAbs(JavaRem(idx, 2 * hw) - hw);
    QuotientBelowTwo(IntAbs(hw - d), hw);
    JavaDiv(hw - d, hw)
  }

  lemma QuotientBelowTwo(a: int, n: int)
    ensures 0 < n && 0 <= a < 2 * n ==> a / n < 2
  {
    if 0 < n && 0 <= a < 2 * n {
      DivBelow(a, n, 2);
    }
  }

  /** With a positive half wavelength the int brightness is 0 or 1, and it
      is 1 exactly at the crest of each wave. */
  lemma BandBrightnessIsZeroOrOne(idx: int, hw: int)
    requires hw > 0 && idx >= 0
    ensures BandBrightness(idx, hw) == 0 || BandBrightness(idx, hw) == 1
    ensures BandBrightness(idx, hw) == 1 <==> idx % (2 * hw) == hw
  {
    var m := JavaRem(idx, 2 * hw);
    assert m == idx % (2 * hw);
    var d := IntAbs(m - hw);
    assert 0 <= hw - d <= hw;
    var q := JavaDiv(hw - d, hw);
    assert q == (hw - d) / hw;
    if d == 0 {
      assert q == 1;
    } else {
      assert hw - d < hw;
      assert q == 0;
    }
  }

  /** The LED index written in iteration i of band: (i + bandIndex) % len in
      int arithmetic. */
  function BandIndex(i: int, bandIndex: int, len: int): (r: int)
    requires len > 0
    ensures -len < r < len
    ensures 0 <= i + bandIndex <= INT_MAX ==> r == (i + bandIndex) % len
  {
    JavaRem(Wrap32(i + bandIndex), len)
  }

  /** Where the band loop stands after some iterations. */
  datatype BandState = BandState(outcome: Outcome, frame: seq<Led>)

  /** The first n iterations of band's loop as written: iteration i writes
      the LED at BandIndex(i) with the brightness of that same index, and a
      negative index throws and ends the loop. */
  function BandRun(frame: seq<Led>, bandIndex: int, hw: int, color: Color, n: nat): (r: BandState)
    requires |frame| > 0 && hw != 0
    ensures |r.frame| == |frame|
    ensures r.outcome == Done || r.outcome == Thrown(IndexOutOfBounds)
  {
    if n == 0 then BandState(Done, frame)
    else
      var prev := BandRun(frame, bandIndex, hw, color, n - 1);
      var idx := BandIndex(n - 1, bandIndex, |frame|);
      if prev.outcome.Thrown? then prev
      else if idx < 0 then BandState(Thrown(IndexOutOfBounds), prev.frame)
      else BandState(Done, prev.frame[idx := Rgb(Scale(color, BandBrightness(idx, hw)))])
  }

  /** One more iteration from a state that has not thrown: a negative index
      ends the run with the frame as it is, any other index is written. */
  lemma {:induction false} BandStep(frame: seq<Led>, bandIndex: int, hw: int, color: Color, i: nat, current: seq<Led>)
    requires |frame| > 0 && hw != 0 && i < |frame|
    requires BandRun(frame, bandIndex, hw, color, i) == BandState(Done, current)
    ensures var idx := BandIndex(i, bandIndex, |frame|);
            if idx < 0 then BandRun(frame, bandIndex, hw, color, |frame|) == BandState(Thrown(IndexOutOfBounds), current)
            else BandRun(frame, bandIndex, hw, color, i + 1) == BandState(Done, current[idx := Rgb(Scale(color, BandBrightness(idx, hw)))])
  {
    if BandIndex(i, bandIndex, |frame|) < 0 {
      BandRunStaysThrown(frame, bandIndex, hw, color, i + 1, |frame|);
    }
  }

  /** Once an iteration has thrown, later iterations change nothing. */
  lemma {:induction false} BandRunStaysThrown(frame: seq<Led>, bandIndex: int, hw: int, color: Color, k: nat, n: nat)
    requires |frame| > 0 && hw != 0 && k <= n
    requires BandRun(frame, bandIndex, hw, color, k).outcome.Thrown?
    ensures BandRun(frame, bandIndex, hw, color, n) == BandRun(frame, bandIndex, hw, color, k)
    decreases n - k
  {
    if k < n {
      BandRunStaysThrown(frame, bandIndex, hw, color, k, n - 1);
    }
  }

  /** What a whole call of band leaves: nothing for an empty strip, an
      ArithmeticException before any write when a division by zero comes up,
      otherwise the loop over every index. */
  function BandOutcome(frame: seq<Led>, bandIndex: int, nodes: int, color: Color): (r: BandState)
    ensures |r.frame| == |frame|
    ensures r.outcome == Done || r.outcome == Thrown(Arithmetic) || r.outcome == Thrown(IndexOutOfBounds)
    ensures r.outcome == Thrown(Arithmetic) ==> r.frame == frame
  {
    if |frame| == 0 then BandState(Done, frame)
    else if !BandDivides(|frame|, nodes) then BandState(Thrown(Arithmetic), frame)
    else BandRun(frame, bandIndex, HalfWavelength(|frame|, nodes), color, |frame|)
  }

  /** Euclidean remainders are unique. */
  lemma ModUnique(a: int, n: int, q: int, r: int)
    requires n > 0 && a == q * n + r && 0 <= r < n
    ensures a % n == r
  {
    var q0, r0 := a / n, a % n;
    assert q * n - q0 * n == (q - q0) * n;
    if q > q0 {
      MulMonoInt(1, q - q0, n);
    } else if q < q0 {
      MulMonoInt(1, q0 - q, n);
    }
  }

  /** For a non-negative band index the loop's index (i + b) % len visits
      each LED exactly once: LED k is written in iteration (k - b) mod len. */
  lemma BandIndexIsBijection(k: int, i: int, b: int, len: int)
    requires 0 <= k < len && 0 <= i < len && 0 <= b && i + b <= INT_MAX
    ensures BandIndex(i, b, len) == k <==> (k - b) % len == i
  {
    BandIndexNoWrap(i, b, len);
    if k == (i + b) % len {
      IndexToIteration(k, i, b, len);
    }
    if (k - b) % len == i {
      IterationToIndex(k, i, b, len);
    }
  }

  lemma IndexToIteration(k: int, i: int, b: int, len: int)
    requires 0 <= i < len && k == (i + b) % len
    ensures (k - b) % len == i
  {
    var q := (i + b) / len;
    assert i + b == q * len + k;
    assert k - b == (-q) * len + i;
    ModUnique(k - b, len, -q, i);
  }

  lemma IterationToIndex(k: int, i: int, b: int, len: int)
    requires 0 <= k < len && (k - b) % len == i
    ensures (i + b) % len == k
  {
    var p := (k - b) / len;
    assert k - b == p * len + i;
    assert i + b == (-p) * len + k;
    ModUnique(i + b, len, -p, k);
  }

  /** Without overflow the loop's index is the plain remainder. */
  lemma BandIndexNoWrap(i: int, b: int, len: int)
    requires 0 <= i && 0 <= b && i + b <= INT_MAX && len > 0
    ensures BandIndex(i, b, len) == (i + b) % len
  {
    assert Wrap32(i + b) == i + b;
  }

  /** After n iterations from a band index b with no int overflow, exactly
      the LEDs k with (k - b) mod len < n have been written, each with the
      brightness of its own index. */
  lemma {:induction false} BandRunWrites(frame: seq<Led>, b: int, hw: int, color: Color, n: nat)
    requires |frame| > 0 && hw != 0 && n <= |frame|
    requires 0 <= b && b + |frame| - 1 <= INT_MAX
    ensures BandRun(frame, b, hw, color, n).outcome == Done
    ensures forall k :: 0 <= k < |frame| ==>
              BandRun(frame, b, hw, color, n).frame[k] ==
              if (k - b) % |frame| < n then Rgb(Scale(color, BandBrightness(k, hw))) else frame[k]
  {
    if n > 0 {
      BandRunWrites(frame, b, hw, color, n - 1);
      var prev := BandRun(frame, b, hw, color, n - 1);
      BandRunWritesStep(frame, b, hw, color, n, prev.frame);
    }
  }

  /** The inductive step of BandRunWrites: iteration n - 1 writes the one LED
      whose turn it is. */
  lemma BandRunWritesStep(frame: seq<Led>, b: int, hw: int, color: Color, n: nat, prev: seq<Led>)
    requires |frame| > 0 && hw != 0 && 0 < n <= |frame|
    requires 0 <= b && b + |frame| - 1 <= INT_MAX
    requires BandRun(frame, b, hw, color, n - 1) == BandState(Done, prev)
    requires forall k :: 0 <= k < |frame| ==>
               prev[k] == if (k - b) % |frame| < n - 1 then Rgb(Scale(color, BandBrightness(k, hw))) else frame[k]
    ensures BandRun(frame, b, hw, color, n).outcome == Done
    ensures forall k :: 0 <= k < |frame| ==>
              BandRun(frame, b, hw, color, n).frame[k] ==
              if (k - b) % |frame| < n then Rgb(Scale(color, BandBrightness(k, hw))) else frame[k]
  {
    var len := |frame|;
    BandIndexNoWrap(n - 1, b, len);
    var idx := BandIndex(n - 1, b, len);
    assert 0 <= idx < len;
    BandStep(frame, b, hw, color, n - 1, prev);
    var cur := prev[idx := Rgb(Scale(color, BandBrightness(idx, hw)))];
    assert BandRun(frame, b, hw, color, n) == BandState(Done, cur);
    forall k | 0 <= k < len
      ensures cur[k] == if (k - b) % len < n then Rgb(Scale(color, BandBrightness(k, hw))) else frame[k]
    {
      BandWriteLed(frame, prev, b, hw, color, n, idx, k);
    }
  }

  /** Iteration n - 1 of the loop writes LED k exactly when k is the LED
      whose turn it is, and leaves every other LED as it was. */
  lemma BandWriteLed(frame: seq<Led>, prev: seq<Led>, b: int, hw: int, color: Color, n: nat, idx: int, k: int)
    requires |prev| == |frame| > 0 && hw != 0 && 0 < n <= |frame|
    requires 0 <= b && b + |frame| - 1 <= INT_MAX && 0 <= k < |frame|
    requires idx == BandIndex(n - 1, b, |frame|) && 0 <= idx < |frame|
    requires prev[k] == if (k - b) % |frame| < n - 1 then Rgb(Scale(color, BandBrightness(k, hw))) else frame[k]
    ensures prev[idx := Rgb(Scale(color, BandBrightness(idx, hw)))][k] ==
            if (k - b) % |frame| < n then Rgb(Scale(color, BandBrightness(k, hw))) else frame[k]
  {
    BandIndexIsBijection(k, n - 1, b, |frame|);
  }

  /** The pattern every completed band call leaves: LED k lit by the
      brightness of k itself. */
  function BandFrame(len: nat, hw: int, color: Color): (r: seq<Led>)
    requires hw != 0
    ensures |r| == len
  {
    seq(len, k requires 0 <= k < len => Rgb(Scale(color, BandBrightness(k, hw))))
  }

  /** As written, band writes every LED with the brightness of its own index,
      so the frame it leaves is the same for every band index: the band
      never moves, whatever the increment. */
  lemma BandIgnoresBandIndex(frame: seq<Led>, b1: int, b2: int, nodes: int, color: Color)
    requires |frame| > 0 && BandDivides(|frame|, nodes)
    requires 0 <= b1 && b1 + |frame| - 1 <= INT_MAX
    requires 0 <= b2 && b2 + |frame| - 1 <= INT_MAX
    ensures BandOutcome(frame, b1, nodes, color) == BandState(Done, BandFrame(|frame|, HalfWavelength(|frame|, nodes), color))
    ensures BandOutcome(frame, b1, nodes, color) == BandOutcome(frame, b2, nodes, color)
  {
    var hw := HalfWavelength(|frame|, nodes);
    BandRunWrites(frame, b1, hw, color, |frame|);
    BandRunWrites(frame, b2, hw, color, |frame|);
    assert BandRun(frame, b1, hw, color, |frame|).frame == BandFrame(|frame|, hw, color);
    assert BandRun(frame, b2, hw, color, |frame|).frame == BandFrame(|frame|, hw, color);
  }

  /** A negative band index of less than one strip length throws on the first
      iteration, before any LED is written. */
  lemma NegativeBandIndexThrows(frame: seq<Led>, b: int, nodes: int, color: Color)
    requires |frame| > 0 && BandDivides(|frame|, nodes) && -|frame| < b < 0 && INT_MIN <= b
    ensures BandOutcome(frame, b, nodes, color) == BandState(Thrown(IndexOutOfBounds), frame)
  {
    var hw := HalfWavelength(|frame|, nodes);
    ModUnique(-b, |frame|, 0, -b);
    assert BandIndex(0, b, |frame|) == b;
    BandRunStaysThrown(frame, b, hw, color, 1, |frame|);
  }

  /** The evidently intended band: LED k shows the brightness of position
      (k + bandIndex) mod len, so advancing the band index moves the pattern. */
  function RotatingBandFrame(len: nat, b: int, hw: int, color: Color): (r: seq<Led>)
    requires hw != 0
    ensures |r| == len
  {
    seq(len, k requires 0 <= k < len => Rgb(Scale(color, BandBrightness((k + b) % len, hw))))
  }

  /** Adding a multiple of n leaves a Euclidean remainder unchanged. */
  lemma ModAddMultiple(x: int, n: int, q: int)
    requires n > 0
    ensures (x + q * n) % n == x % n
  {
    var p := x / n;
    assert x + q * n == (p + q) * n + x % n;
    ModUnique(x + q * n, n, p + q, x % n);
  }

  /** In the rotating band, one more step of the band index shows at LED k
      what LED k + 1 showed before: the pattern moves one LED per step. */
  lemma RotatingBandShifts(len: nat, b: int, hw: int, color: Color, k: int)
    requires hw != 0 && 0 <= k < len
    ensures RotatingBandFrame(len, b + 1, hw, color)[k] == RotatingBandFrame(len, b, hw, color)[(k + 1) % len]
  {
    var j := (k + 1) % len;
    var q := (k + 1) / len;
    assert j + b == (k + b + 1) + (-q) * len;
    ModAddMultiple(k + b + 1, len, -q);
  }

  /** With a half wavelength of 2, only index 2 of the first wave is lit. */
  lemma HalfWavelengthTwo()
    ensures BandBrightness(0, 2) == 0 && BandBrightness(1, 2) == 0
    ensures BandBrightness(2, 2) == 1 && BandBrightness(3, 2) == 0
  {
    BandBrightnessIsZeroOrOne(0, 2);
    BandBrightnessIsZeroOrOne(1, 2);
    BandBrightnessIsZeroOrOne(2, 2);
    BandBrightnessIsZeroOrOne(3, 2);
  }

  /** On four LEDs with one node (half wavelength 2) the band as written
      lights LED 2 only, for every band index. */
  lemma BandFindingAsWritten(color: Color)
    ensures BandFrame(4, 2, color) == [Off, Off, Rgb(color), Off]
  {
    HalfWavelengthTwo();
    assert Scale(color, 1) == color;
    assert Scale(color, 0) == Color(0.0, 0.0, 0.0);
  }

  /** The rotating band on the same strip lights LED 2 at band index 0 ... */
  lemma RotatingBandAtZero(color: Color)
    ensures var f := RotatingBandFrame(4, 0, 2, color);
            f[0] == Off && f[1] == Off && f[2] == Rgb(color) && f[3] == Off
  {
    HalfWavelengthTwo();
    RotatingBandLed(4, 0, 2, color, 0);
    RotatingBandLed(4, 0, 2, color, 1);
    RotatingBandLed(4, 0, 2, color, 2);
    RotatingBandLed(4, 0, 2, color, 3);
  }

  /** ... and LED 1 at band index 1: the lit LED moves. */
  lemma RotatingBandAtOne(color: Color)
    ensures var f := RotatingBandFrame(4, 1, 2, color);
            f[0] == Off && f[1] == Rgb(color) && f[2] == Off && f[3] == Off
  {
    HalfWavelengthTwo();
    RotatingBandLed(4, 1, 2, color, 0);
    RotatingBandLed(4, 1, 2, color, 1);
    RotatingBandLed(4, 1, 2, color, 2);
    RotatingBandLed(4, 1, 2, color, 3);
  }

  /** An LED of the rotating band is lit or dark as its rotated index says. */
  lemma RotatingBandLed(len: nat, b: int, hw: int, color: Color, k: int)
    requires hw != 0 && 0 <= k < len
    ensures BandBrightness((k + b) % len, hw) == 1 ==> RotatingBandFrame(len, b, hw, color)[k] == Rgb(color)
    ensures BandBrightness((k + b) % len, hw) == 0 ==> RotatingBandFrame(len, b, hw, color)[k] == Off
  {
    assert Scale(color, 1) == color;
    assert Scale(color, 0) == Color(0.0, 0.0, 0.0);
  }

  class LEDStrip {
    const buffer: array<Led>
    var hue: int
    var bandIndex: int

    /** A strip of length LEDs, all off; hue and band index start at 0. */
    constructor (port: int, length: int)
      requires 0 <= length
      ensures buffer.Length == length && fresh(buffer)
      ensures forall k :: 0 <= k < length ==> buffer[k] == Off
      ensures hue == 0 && bandIndex == 0
    {
      buffer := new Led[length](_ => Off);
      hue := 0;
      bandIndex := 0;
    }

    /** Writes led over [start, end), stopping with an
        IndexOutOfBoundsException at the first index outside the strip. */
    method Fill(start: int, end: int, led: Led) returns (r: Outcome)
      modifies buffer
      ensures r == if start < end && (start < 0 || end > buffer.Length) then Thrown(IndexOutOfBounds) else Done
      ensures buffer[..] == FillFrame(old(buffer[..]), start, end, led)
    {
      var i := start;
      while i < end
        invariant start < end ==> start <= i <= end
        invariant start >= end ==> i == start
        invariant start < 0 ==> i == start
        invariant i <= buffer.Length || i == start
        invariant forall k :: 0 <= k < buffer.Length ==> buffer[k] == if start <= k < i then led else old(buffer[k])
      {
        if i < 0 || i >= buffer.Length {
          assert buffer[..] == FillFrame(old(buffer[..]), start, end, led);
          return Thrown(IndexOutOfBounds);
        }
        buffer[i] := led;
        i := i + 1;
      }
      assert buffer[..] == FillFrame(old(buffer[..]), start, end, led);
      return Done;
    }

    /** set(color): the whole strip in one colour. */
    method Set(color: Color)
      modifies buffer
      ensures forall k :: 0 <= k < buffer.Length ==> buffer[k] == Rgb(color)
    {
      var _ := SetRange(0, buffer.Length, color);
    }

    /** set(index, color): one LED; an index outside the strip throws and
        changes nothing. */
    method SetLed(index: int, color: Color) returns (r: Outcome)
      modifies buffer
      ensures r == if 0 <= index < buffer.Length then Done else Thrown(IndexOutOfBounds)
      ensures buffer[..] == if r == Done then old(buffer[..])[index := Rgb(color)] else old(buffer[..])
    {
      if index < 0 || index >= buffer.Length {
        return Thrown(IndexOutOfBounds);
      }
      buffer[index] := Rgb(color);
      return Done;
    }

    /** set(start, end, color): the LEDs of [start, end) in one colour. */
    method SetRange(start: int, end: int, color: Color) returns (r: Outcome)
      modifies buffer
      ensures r == if start < end && (start < 0 || end > buffer.Length) then Thrown(IndexOutOfBounds) else Done
      ensures buffer[..] == FillFrame(old(buffer[..]), start, end, Rgb(color))
    {
      r := Fill(start, end, Rgb(color));
    }

    /** setHSV(h, s, v): the whole strip in one HSV colour. */
    method SetHSV(h: int, s: int, v: int)
      modifies buffer
      ensures forall k :: 0 <= k < buffer.Length ==> buffer[k] == Hsv(h, s, v)
    {
      var _ := SetHSVRange(0, buffer.Length, h, s, v);
    }

    /** setHSV(index, h, s, v): one LED in an HSV colour. */
    method SetHSVLed(index: int, h: int, s: int, v: int) returns (r: Outcome)
      modifies buffer
      ensures r == if 0 <= index < buffer.Length then Done else Thrown(IndexOutOfBounds)
      ensures buffer[..] == if r == Done then old(buffer[..])[index := Hsv(h, s, v)] else old(buffer[..])
    {
      if index < 0 || index >= buffer.Length {
        return Thrown(IndexOutOfBounds);
      }
      buffer[index] := Hsv(h, s, v);
      return Done;
    }

    /** setHSV(start, end, h, s, v): the LEDs of [start, end) in one HSV colour. */
    method SetHSVRange(start: int, end: int, h: int, s: int, v: int) returns (r: Outcome)
      modifies buffer
      ensures r == if start < end && (start < 0 || end > buffer.Length) then Thrown(IndexOutOfBounds) else Done
      ensures buffer[..] == FillFrame(old(buffer[..]), start, end, Hsv(h, s, v))
    {
      r := Fill(start, end, Hsv(h, s, v));
    }

    method GetLength() returns (n: int)
      ensures n == buffer.Length
    {
      n := buffer.Length;
    }

    /** getColor(index): the LED's setting; an index outside the strip throws. */
    method GetColor(index: int) returns (r: Result<Led>)
      ensures 0 <= index < buffer.Length ==> r == Ok(buffer[index])
      ensures !(0 <= index < buffer.Length) ==> r == Err(IndexOutOfBounds)
    {
      if index < 0 || index >= buffer.Length {
        return Err(IndexOutOfBounds);
      }
      return Ok(buffer[index]);
    }

    /** rainbow(increment, s, v): advance the hue and paint the whole strip
        with it. */
    method Rainbow(increment: real, s: int, v: int)
      modifies this, buffer
      ensures hue == NextHue(old(hue), increment) && bandIndex == old(bandIndex)
      ensures forall k :: 0 <= k < buffer.Length ==> buffer[k] == Hsv(hue, s, v)
    {
      hue := NextHue(hue, increment);
      SetHSV(hue, s, v);
    }

    /** rainbow(increment): full saturation and value. */
    method RainbowDefault(increment: real)
      modifies this, buffer
      ensures hue == NextHue(old(hue), increment) && bandIndex == old(bandIndex)
      ensures forall k :: 0 <= k < buffer.Length ==> buffer[k] == Hsv(hue, 255, 255)
    {
      Rainbow(increment, 255, 255);
    }

    /** rainbowBand(increment, s, v): advance the hue and spread one turn of
        the colour wheel over the strip, starting at the hue. */
    method RainbowBand(increment: real, s: int, v: int)
      modifies this, buffer
      ensures hue == NextHue(old(hue), increment) && bandIndex == old(bandIndex)
      ensures buffer[..] == RainbowFrame(hue, buffer.Length, s, v)
    {
      hue := NextHue(hue, increment);
      var len := buffer.Length;
      for i := 0 to len
        modifies buffer
        invariant forall k :: 0 <= k < i ==> buffer[k] == Hsv(BandHue(hue, k, len), s, v)
      {
        var newHue := JavaRem(hue + JavaDiv(i * 180, len), 180);
        buffer[i] := Hsv(newHue, s, v);
      }
      assert buffer[..] == RainbowFrame(hue, len, s, v);
    }

    /** rainbowBand(increment): full saturation and value. */
    method RainbowBandDefault(increment: real)
      modifies this, buffer
      ensures hue == NextHue(old(hue), increment) && bandIndex == old(bandIndex)
      ensures buffer[..] == RainbowFrame(hue, buffer.Length, 255, 255)
    {
      RainbowBand(increment, 255, 255);
    }

    /** band(increment, color, nodes): advance the band index, then for each
        i write LED (i + bandIndex) % len with the brightness of that index. */
    method Band(increment: real, color: Color, nodes: int) returns (r: Outcome)
      modifies this, buffer
      ensures bandIndex == ToInt(old(bandIndex) as real + increment) && hue == old(hue)
      ensures BandState(r, buffer[..]) == BandOutcome(old(buffer[..]), bandIndex, nodes, color)
    {
      bandIndex := ToInt(bandIndex as real + increment);
      var len := buffer.Length;
      ghost var start := buffer[..];
      var i := 0;
      while i < len
        modifies buffer
        invariant 0 <= i <= len
        invariant i == 0 ==> buffer[..] == start
        invariant i > 0 ==> BandDivides(len, nodes) &&
                            BandRun(start, bandIndex, HalfWavelength(len, nodes), color, i) == BandState(Done, buffer[..])
      {
        var twoNodes := Wrap32(2 * nodes);
        if twoNodes == 0 {
          return Thrown(Arithmetic);
        }
        var halfWavelength := HalfWavelength(len, nodes);
        var index := BandIndex(i, bandIndex, len);
        if halfWavelength == 0 {
          return Thrown(Arithmetic);
        }
        var brightness := BandBrightness(index, halfWavelength);
        BandStep(start, bandIndex, halfWavelength, color, i, buffer[..]);
        if index < 0 {
          return Thrown(IndexOutOfBounds);
        }
        buffer[index] := Rgb(Scale(color, brightness));
        i := i + 1;
      }
      return Done;
    }

    /** band(increment, color): a single node. */
    method BandSingleNode(increment: real, color: Color) returns (r: Outcome)
      modifies this, buffer
      ensures bandIndex == ToInt(old(bandIndex) as real + increment) && hue == old(hue)
      ensures BandState(r, buffer[..]) == BandOutcome(old(buffer[..]), bandIndex, 1, color)
    {
      r := Band(increment, color, 1);
    }
  }
}
