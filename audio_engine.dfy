/** What the sound generator decides before it hands a patch to the Web
    Audio renderer (domain/audioEngine.ts): the waveshaper curve, the
    reverb impulse response, the noise buffer, the render length, the
    effect gains, the filter settings, the frequency and gain automation
    and the wiring of the node graph. The rendering itself is foreign. */
module AudioEngine {
  import opened Wrappers
  import opened Types
  import opened JsMath

  // ---------------------------------------------------------------------
  // Distortion curve
  // ---------------------------------------------------------------------

  /** Number of entries in the waveshaper curve. */
  const CurveLength: nat := 44100

  /** `Math.PI`, as the decimal the double prints as. */
  const Pi: real := 3.141592653589793

  /** The input level entry `i` of the curve stands for. */
  function CurveX(i: int): (r: real)
    ensures (r + 1.0) * 22050.0 == i as real
  {
    (i * 2) as real / 44100.0 - 1.0
  }

  lemma CurveXRange(i: int)
    requires 0 <= i < CurveLength
    ensures -1.0 <= CurveX(i) < 1.0
    ensures CurveX(i) < 0.0 <==> i < 22050
    ensures CurveX(i) == 0.0 <==> i == 22050
  {
  }

  /** The shaping function: a soft clipper whose hardness grows with
      `amount` (the curve's `k` is `amount * 100`). */
  function Shaped(amount: real, x: real): real
    requires amount >= 0.0
  {
    var k := amount * 100.0;
    var deg := Pi / 180.0;
    ((3.0 + k) * x * 20.0 * deg) / (Pi + k * Abs(x))
  }

  /** `Shaped(amount, x)` is `x` times a positive slope over a positive
      denominator. */
  lemma ShapedFactors(amount: real, x: real)
    requires amount >= 0.0
    ensures var k := amount * 100.0;
      var c := (3.0 + k) * 20.0 * (Pi / 180.0);
      c > 0.0 && Pi + k * Abs(x) > 0.0 && Shaped(amount, x) == (c * x) / (Pi + k * Abs(x))
  {
  }

  /** Every curve entry has the sign of its input level. */
  lemma ShapedSign(amount: real, x: real)
    requires amount >= 0.0
    ensures Shaped(amount, x) < 0.0 <==> x < 0.0
    ensures Shaped(amount, x) == 0.0 <==> x == 0.0
    ensures Shaped(amount, x) > 0.0 <==> x > 0.0
  {
    ShapedFactors(amount, x);
    var k := amount * 100.0;
    var c := (3.0 + k) * 20.0 * (Pi / 180.0);
    var d := Pi + k * Abs(x);
    SignOfQuotient(c * x, d);
    SignOfProduct(c, x);
  }

  lemma SignOfProduct(c: real, x: real)
    requires c > 0.0
    ensures c * x < 0.0 <==> x < 0.0
    ensures c * x == 0.0 <==> x == 0.0
  {
  }

  lemma SignOfQuotient(n: real, d: real)
    requires d > 0.0
    ensures n / d < 0.0 <==> n < 0.0
    ensures n / d == 0.0 <==> n == 0.0
  {
    assert n / d * d == n;
  }

  /** With no distortion the curve is the straight line of slope 1/3. */
  lemma ShapedLinearAtZero(x: real)
    ensures Shaped(0.0, x) == x / 3.0
  {
    assert Pi + 0.0 * Abs(x) == Pi;
  }

  /** The curve is odd: mirrored inputs give negated outputs. */
  lemma ShapedOdd(amount: real, x: real)
    requires amount >= 0.0
    ensures Shaped(amount, -x) == -Shaped(amount, x)
  {
    ShapedFactors(amount, x);
    ShapedFactors(amount, -x);
    var k := amount * 100.0;
    var c := (3.0 + k) * 20.0 * (Pi / 180.0);
    var d := Pi + k * Abs(x);
    assert Abs(-x) == Abs(x);
    assert (c * -x) / d == -((c * x) / d);
  }

  /** Between -1 and 1 the curve stays strictly inside (-1, 1): the
      waveshaper never amplifies a full-scale signal past full scale. */
  lemma ShapedBounded(amount: real, x: real)
    requires amount >= 0.0
    requires -1.0 <= x <= 1.0
    ensures -1.0 < Shaped(amount, x) < 1.0
  {
    ShapedFactors(amount, x);
    var k := amount * 100.0;
    var c := (3.0 + k) * 20.0 * (Pi / 180.0);
    var a := Abs(x);
    var d := Pi + k * a;
    assert c * a == (Pi / 3.0) * a + (k * Pi / 9.0) * a;
    assert (Pi / 3.0) * a < Pi;
    assert (k * Pi / 9.0) * a <= k * a by {
      assert k * a >= 0.0;
    }
    assert c * a < d;
    QuotientBelowOne(c * a, d);
    if x >= 0.0 {
      assert Shaped(amount, x) == (c * a) / d;
    } else {
      assert Shaped(amount, x) == -((c * a) / d);
    }
  }

  lemma QuotientBelowOne(n: real, d: real)
    requires 0.0 <= n < d
    ensures 0.0 <= n / d < 1.0
  {
    assert n / d * d == n;
  }

  lemma QuotientAtMostOne(n: real, d: real)
    requires 0.0 <= n <= d && d > 0.0
    ensures 0.0 <= n / d <= 1.0
  {
    assert n / d * d == n;
  }

  /** On non-negative inputs the curve rises. */
  lemma ShapedRisingOnPositives(amount: real, x: real, y: real)
    requires amount >= 0.0
    requires 0.0 <= x <= y
    ensures Shaped(amount, x) <= Shaped(amount, y)
  {
    ShapedFactors(amount, x);
    ShapedFactors(amount, y);
    var k := amount * 100.0;
    var c := (3.0 + k) * 20.0 * (Pi / 180.0);
    var dx := Pi + k * x;
    var dy := Pi + k * y;
    assert x * dy <= y * dx by {
      assert x * dy == Pi * x + k * x * y;
      assert y * dx == Pi * y + k * x * y;
    }
    CrossMultiply(c * x, dx, c * y, dy);
  }

  lemma CrossMultiply(a: real, b: real, c: real, d: real)
    requires b > 0.0 && d > 0.0
    requires a * d <= c * b
    ensures a / b <= c / d
  {
    assert a / b == (a * d) / (b * d);
    assert c / d == (c * b) / (b * d);
  }

  /** The curve is monotone over all inputs, so the waveshaper keeps the
      order of sample values. */
  lemma ShapedMonotone(amount: real, x: real, y: real)
    requires amount >= 0.0
    requires x <= y
    ensures Shaped(amount, x) <= Shaped(amount, y)
  {
    if 0.0 <= x {
      ShapedRisingOnPositives(amount, x, y);
    } else if y <= 0.0 {
      ShapedRisingOnPositives(amount, -y, -x);
      ShapedOdd(amount, x);
      ShapedOdd(amount, y);
    } else {
      ShapedSign(amount, x);
      ShapedSign(amount, y);
    }
  }

  /** `curve` holds the waveshaper curve for `amount`. */
  ghost predicate IsDistortionCurve(curve: array<real>, amount: real)
    reads curve
  {
    amount >= 0.0 && curve.Length == CurveLength &&
    forall i :: 0 <= i < CurveLength ==> curve[i] == Shaped(amount, CurveX(i))
  }

  /** `createDistortionCurve`: fills a fresh 44100-entry curve. */
  method CreateDistortionCurve(amount: real) returns (curve: array<real>)
    requires amount >= 0.0
    ensures fresh(curve)
    ensures IsDistortionCurve(curve, amount)
  {
    curve := new real[CurveLength];
    for i := 0 to CurveLength
      invariant forall j :: 0 <= j < i ==> curve[j] == Shaped(amount, CurveX(j))
    {
      var x := CurveX(i);
      curve[i] := Shaped(amount, x);
    }
  }

  /** What the filled curve looks like: negative on the first half, zero in
      the middle entry, positive after it, inside (-1, 1), and
      non-decreasing. */
  lemma DistortionCurveShape(curve: array<real>, amount: real, i: int, j: int)
    requires IsDistortionCurve(curve, amount)
    requires 0 <= i <= j < CurveLength
    ensures curve[i] < 0.0 <==> i < 22050
    ensures curve[i] == 0.0 <==> i == 22050
    ensures -1.0 < curve[i] < 1.0
    ensures curve[i] <= curve[j]
  {
    CurveXRange(i);
    CurveXRange(j);
    ShapedSign(amount, CurveX(i));
    ShapedBounded(amount, CurveX(i));
    ShapedMonotone(amount, CurveX(i), CurveX(j));
  }

  // ---------------------------------------------------------------------
  // Reverb impulse response
  // ---------------------------------------------------------------------

  /** How many random draws one channel's fill loop makes: the loop runs
      while `j < length`, which is `ceil(length)` times. */
  function ImpulseDraws(length: real): (r: nat)
    requires length > 0.0
    ensures length <= r as real < length + 1.0
  {
    Ceil(length)
  }

  /** The loop test `j < length` on a counter is `j < ImpulseDraws(length)`. */
  lemma BelowLength(length: real, j: int)
    requires length > 0.0
    ensures (j as real) < length <==> j < ImpulseDraws(length)
  {
  }

  /** Sample `j` of an impulse channel: the draw mapped to [-1, 1), faded by
      `(1 - j/length)^decay`. */
  function ImpulseSample(draw: real, j: nat, length: real, decay: nat): (r: real)
    requires length > 0.0
    ensures j == 0 ==> r == draw * 2.0 - 1.0
    ensures draw == 0.5 ==> r == 0.0
  {
    (draw * 2.0 - 1.0) * Pow(1.0 - j as real / length, decay)
  }

  /** The fade factor of sample `j`, in [0, 1]. */
  function Fade(j: nat, length: real, decay: nat): (r: real)
    requires 0.0 < length && (j as real) <= length
    ensures 0.0 <= r <= 1.0
  {
    var base := 1.0 - j as real / length;
    assert 0.0 <= base <= 1.0 by {
      QuotientAtMostOne(j as real, length);
    }
    PowUnit(base, decay);
    Pow(base, decay)
  }

  /** Each impulse sample lies within its fade factor, which is at most 1. */
  lemma ImpulseBounded(draw: real, j: nat, length: real, decay: nat)
    requires 0.0 <= draw < 1.0
    requires 0.0 < length && (j as real) < length
    ensures -Fade(j, length, decay) <= ImpulseSample(draw, j, length, decay) <= Fade(j, length, decay)
    ensures Fade(j, length, decay) <= 1.0
  {
    FadedImpulse(draw, j, length, decay);
    BoundedScale(draw * 2.0 - 1.0, Fade(j, length, decay), ImpulseSample(draw, j, length, decay));
  }

  /** An impulse sample is its mapped draw scaled by the fade factor. */
  lemma FadedImpulse(draw: real, j: nat, length: real, decay: nat)
    requires 0.0 < length && (j as real) <= length
    ensures ImpulseSample(draw, j, length, decay) == (draw * 2.0 - 1.0) * Fade(j, length, decay)
  {
  }

  /** Scaling by a factor in [-1, 1] keeps a product within `f` of zero. */
  lemma BoundedScale(u: real, f: real, x: real)
    requires -1.0 <= u <= 1.0 && 0.0 <= f && x == u * f
    ensures -f <= x <= f
  {
    var p, q := (u + 1.0) * f, (1.0 - u) * f;
    assert p >= 0.0 && q >= 0.0;
    assert x + f == p && f - x == q;
  }

  /** The fade never grows along the channel: later samples are allowed
      no more amplitude than earlier ones. */
  lemma FadeDecreasing(i: nat, j: nat, length: real, decay: nat)
    requires 0.0 < length
    requires i <= j && (j as real) <= length
    ensures Fade(j, length, decay) <= Fade(i, length, decay)
  {
    var bi := 1.0 - i as real / length;
    var bj := 1.0 - j as real / length;
    assert i as real / length <= j as real / length by {
      CrossMultiply(i as real, length, j as real, length);
    }
    QuotientAtMostOne(j as real, length);
    PowMonotone(bj, bi, decay);
  }

  /** `impulse` holds the stereo impulse response of `length` samples drawn
      from `random[offset..]`, channel 0's draws first. */
  ghost predicate IsImpulseResponse(impulse: array2<real>, length: real, decay: nat, random: seq<real>, offset: nat)
    reads impulse
  {
    length > 0.0 &&
    offset + 2 * ImpulseDraws(length) <= |random| &&
    impulse.Length0 == 2 && impulse.Length1 == length.Floor &&
    forall c, j :: 0 <= c < 2 && 0 <= j < impulse.Length1 ==>
      impulse[c, j] == ImpulseSample(random[offset + c * ImpulseDraws(length) + j], j, length, decay)
  }

  /** `createImpulseResponse`: a two-channel buffer of
      `floor(sampleRate * duration)` frames (the buffer length is truncated
      to an integer), each channel filled from its own run of draws. When
      the length is not a whole number the last draw of a channel lands past
      the buffer's end and is dropped. */
  method CreateImpulseResponse(sampleRate: nat, duration: real, decay: nat, random: seq<real>, offset: nat)
    returns (impulse: array2<real>)
    requires sampleRate as real * duration >= 1.0
    requires offset + 2 * ImpulseDraws(sampleRate as real * duration) <= |random|
    ensures fresh(impulse)
    ensures IsImpulseResponse(impulse, sampleRate as real * duration, decay, random, offset)
  {
    var length := sampleRate as real * duration;
    impulse := new real[2, length.Floor];
    var draws := ImpulseDraws(length);
    for i := 0 to 2
      invariant forall c, j :: 0 <= c < i && 0 <= j < impulse.Length1 ==>
        impulse[c, j] == ImpulseSample(random[offset + c * draws + j], j, length, decay)
    {
      assert i * draws + draws <= 2 * draws by {
        assert i == 0 || i == 1;
      }
      FillChannel(impulse, i, length, decay, random, offset + i * draws);
    }
  }

  /** One turn of the outer loop: channel `c` gets one sample per draw
      while `j < length`; draws past the buffer's end are taken from the
      stream but not stored. */
  method FillChannel(impulse: array2<real>, c: nat, length: real, decay: nat, random: seq<real>, start: nat)
    requires c < impulse.Length0 && length > 0.0 && impulse.Length1 == length.Floor
    requires start + ImpulseDraws(length) <= |random|
    modifies impulse
    ensures forall j :: 0 <= j < impulse.Length1 ==>
      impulse[c, j] == ImpulseSample(random[start + j], j, length, decay)
    ensures forall k, j :: 0 <= k < impulse.Length0 && k != c && 0 <= j < impulse.Length1 ==>
      impulse[k, j] == old(impulse[k, j])
  {
    var draws := ImpulseDraws(length);
    var next := start;
    var j := 0;
    BelowLength(length, j);
    while (j as real) < length
      invariant 0 <= j <= draws
      invariant (j as real) < length <==> j < draws
      invariant next == start + j
      invariant forall k, jj :: 0 <= k < impulse.Length0 && k != c && 0 <= jj < impulse.Length1 ==>
        impulse[k, jj] == old(impulse[k, jj])
      invariant forall jj :: 0 <= jj < j && jj < impulse.Length1 ==>
        impulse[c, jj] == ImpulseSample(random[start + jj], jj, length, decay)
      decreases draws - j
    {
      var sample := (random[next] * 2.0 - 1.0) * Pow(1.0 - j as real / length, decay);
      if j < impulse.Length1 {
        impulse[c, j] := sample;
      }
      next := next + 1;
      j := j + 1;
      BelowLength(length, j);
    }
  }

  /** Every filled impulse sample is within its fade factor, and so within
      [-1, 1], when the draws lie in [0, 1). */
  lemma ImpulseResponseBounded(impulse: array2<real>, length: real, decay: nat, random: seq<real>, offset: nat, c: int, j: int)
    requires IsImpulseResponse(impulse, length, decay, random, offset)
    requires forall k :: 0 <= k < |random| ==> 0.0 <= random[k] < 1.0
    requires 0 <= c < 2 && 0 <= j < impulse.Length1
    ensures -Fade(j, length, decay) <= impulse[c, j] <= Fade(j, length, decay) <= 1.0
  {
    assert (j as real) < length by {
      assert j < length.Floor;
    }
    ImpulseBounded(random[offset + c * ImpulseDraws(length) + j], j, length, decay);
  }

  // ---------------------------------------------------------------------
  // Noise buffer
  // ---------------------------------------------------------------------

  /** The noise buffer's length: `ceil(sampleRate * (duration + release))`,
      with the unclamped release. */
  function NoiseBufferSize(sampleRate: nat, p: SynthParams): (r: int)
    ensures sampleRate as real * (p.duration + p.release) <= r as real
    ensures (r as real) < sampleRate as real * (p.duration + p.release) + 1.0
  {
    Ceil(sampleRate as real * (p.duration + p.release))
  }

  /** A noise sample: a draw in [0, 1) becomes a sample in [-1, 1). */
  function NoiseSample(draw: real): (r: real)
    ensures 0.0 <= draw < 1.0 ==> -1.0 <= r < 1.0
    ensures (r + 1.0) / 2.0 == draw
  {
    draw * 2.0 - 1.0
  }

  ghost predicate IsNoise(data: array<real>, size: int, random: seq<real>, offset: nat)
    reads data
  {
    data.Length == size && offset + size <= |random| &&
    forall i :: 0 <= i < data.Length ==> data[i] == NoiseSample(random[offset + i])
  }

  /** The noise fill: `size` samples, one draw each, from `random[offset..]`. */
  method FillNoise(size: int, random: seq<real>, offset: nat) returns (data: array<real>)
    requires size >= 1 && offset + size <= |random|
    ensures fresh(data)
    ensures IsNoise(data, size, random, offset)
  {
    data := new real[size];
    for i := 0 to size
      invariant forall k :: 0 <= k < i ==> data[k] == NoiseSample(random[offset + k])
    {
      data[i] := random[offset + i] * 2.0 - 1.0;
    }
  }

  lemma NoiseBounded(data: array<real>, size: int, random: seq<real>, offset: nat, i: int)
    requires IsNoise(data, size, random, offset)
    requires forall k :: 0 <= k < |random| ==> 0.0 <= random[k] < 1.0
    requires 0 <= i < data.Length
    ensures -1.0 <= data[i] < 1.0
  {
    assert 0.0 <= random[offset + i] < 1.0;
  }

  // ---------------------------------------------------------------------
  // Render length and effect gains
  // ---------------------------------------------------------------------

  /** Extra time for the delay's echoes to die away: five delay periods. */
  function DelayTail(p: SynthParams): (r: real)
    ensures r >= 0.0 && (r > 0.0 <==> p.delayTime > 0.0)
  {
    if p.delayTime > 0.0 then p.delayTime * 5.0 else 0.0
  }

  /** Extra time for the reverb's tail: two seconds. */
  function ReverbTail(p: SynthParams): (r: real)
    ensures r >= 0.0 && (r > 0.0 <==> p.reverb > 0.0)
  {
    if p.reverb > 0.0 then 2.0 else 0.0
  }

  /** The time the source and the gain envelope stop: the note's duration
      plus its release, a negative release counting as none. */
  function StopTime(p: SynthParams): (r: real)
    ensures r >= p.duration && r >= p.duration + p.release
  {
    p.duration + Max(0.0, p.release)
  }

  /** The rendered length in seconds: never under 0.1 s, and otherwise the
      note plus its release plus the effect tails. */
  function TotalDuration(p: SynthParams): (r: real)
    ensures r >= 0.1
    ensures r >= p.duration + p.release + DelayTail(p) + ReverbTail(p)
    ensures r == 0.1 || r == p.duration + p.release + DelayTail(p) + ReverbTail(p)
  {
    Max(0.1, p.duration + p.release + DelayTail(p) + ReverbTail(p))
  }

  /** The offline context's frame count, `ceil(sampleRate * total)`. */
  function FrameCount(sampleRate: nat, p: SynthParams): (r: int)
    requires sampleRate > 0
    ensures r >= 1
    ensures sampleRate as real * TotalDuration(p) <= r as real < sampleRate as real * TotalDuration(p) + 1.0
  {
    assert sampleRate as real * TotalDuration(p) > 0.0;
    Ceil(sampleRate as real * TotalDuration(p))
  }

  /** With a non-negative release, the render covers the whole time the
      source plays, so nothing of the scheduled note is cut off. */
  lemma RenderCoversNote(sampleRate: nat, p: SynthParams)
    requires sampleRate > 0
    requires p.release >= 0.0
    ensures TotalDuration(p) >= StopTime(p)
    ensures FrameCount(sampleRate, p) as real >= sampleRate as real * StopTime(p)
  {
    assert TotalDuration(p) >= StopTime(p);
    ScaledBelow(sampleRate as real, StopTime(p), TotalDuration(p), FrameCount(sampleRate, p) as real);
  }

  /** A non-negative scale keeps `a <= b`, so `s * b <= f` bounds `s * a`. */
  lemma ScaledBelow(s: real, a: real, b: real, f: real)
    requires s >= 0.0 && a <= b && s * b <= f
    ensures s * a <= f
  {
    assert s * (b - a) >= 0.0;
  }

  /** The maximum delay of the delay line, in seconds. */
  const MaxDelayTime: real := 1.0

  /** Gain of the delay's wet path. */
  const DelayWetGain: real := 0.3

  /** The feedback gain of the delay loop, capped at 0.9. */
  function FeedbackGain(p: SynthParams): (r: real)
    ensures r <= 0.9 && r <= p.delayFeedback
    ensures r == 0.9 || r == p.delayFeedback
  {
    Min(0.9, p.delayFeedback)
  }

  /** After `n` trips round the loop an echo is scaled by the feedback gain
      to the `n`th power, which is at most 0.9^n: the echoes die out. */
  lemma EchoesDecay(p: SynthParams, n: nat)
    requires p.delayFeedback >= 0.0
    ensures 0.0 <= Pow(FeedbackGain(p), n) <= Pow(0.9, n)
  {
    PowMonotone(FeedbackGain(p), 0.9, n);
    PowUnit(FeedbackGain(p), n);
  }

  /** Gain of the reverb's wet path: half the reverb amount. */
  function ReverbWetGain(p: SynthParams): (r: real)
    ensures 0.0 <= p.reverb <= 1.0 ==> 0.0 <= r <= 0.5
    ensures r * 2.0 == p.reverb
  {
    p.reverb * 0.5
  }

  // ---------------------------------------------------------------------
  // Filter
  // ---------------------------------------------------------------------

  datatype BiquadSettings = BiquadSettings(kind: FilterType, frequency: real, q: real)

  /** The filter settings: a missing type is lowpass, and a zero frequency
      or Q (falsy in JavaScript) is replaced by 2000 Hz or 1. */
  function FilterSettings(p: SynthParams): (r: BiquadSettings)
    ensures r.frequency != 0.0 && r.q != 0.0
    ensures p.filterType.Some? ==> r.kind == p.filterType.value
    ensures p.filterType.None? ==> r.kind == Lowpass
    ensures p.filterFreq != 0.0 ==> r.frequency == p.filterFreq
    ensures p.filterFreq == 0.0 ==> r.frequency == 2000.0
    ensures p.qFactor != 0.0 ==> r.q == p.qFactor
    ensures p.qFactor == 0.0 ==> r.q == 1.0
  {
    BiquadSettings(
      p.filterType.GetOr(Lowpass),
      if p.filterFreq != 0.0 then p.filterFreq else 2000.0,
      if p.qFactor != 0.0 then p.qFactor else 1.0)
  }

  /** Writing the chosen settings back into the record and choosing again
      changes nothing: the defaults are a fixed point. */
  lemma FilterSettingsIdempotent(p: SynthParams)
    ensures var r := FilterSettings(p);
      FilterSettings(p.(filterType := Some(r.kind), filterFreq := r.frequency, qFactor := r.q)) == r
  {
  }

  // ---------------------------------------------------------------------
  // Automation schedules
  // ---------------------------------------------------------------------

  /** One call on an `AudioParam`'s automation timeline. */
  datatype Automation =
    | SetValueAtTime(value: real, time: real)
    | LinearRampToValueAtTime(value: real, time: real)
    | ExponentialRampToValueAtTime(value: real, time: real)

  /** The times of a schedule never go backwards and lie in [start, stop]. */
  ghost predicate WellTimed(events: seq<Automation>, start: real, stop: real)
  {
    (forall i :: 0 <= i < |events| ==> start <= events[i].time <= stop) &&
    (forall i, j :: 0 <= i < j < |events| ==> events[i].time <= events[j].time)
  }

  /** The oscillator's target frequency, clamped to at least 0.001 Hz (an
      exponential ramp cannot reach zero). */
  function EndFrequency(p: SynthParams): (r: real)
    ensures r >= 0.001
    ensures p.frequencyEnd >= 0.001 ==> r == p.frequencyEnd
    ensures p.frequencyEnd < 0.001 ==> r == 0.001
  {
    Max(0.001, p.frequencyEnd)
  }

  /** The oscillator's frequency timeline: start at `frequencyStart`, then
      reach the end frequency at `duration` by an exponential sweep when the
      two differ by more than 1 Hz, otherwise by a step. */
  function FrequencySchedule(p: SynthParams): (r: seq<Automation>)
    ensures |r| == 2 && r[0] == SetValueAtTime(p.frequencyStart, 0.0)
    ensures r[1].value == EndFrequency(p) && r[1].time == p.duration
    ensures r[1].ExponentialRampToValueAtTime? <==> Abs(p.frequencyStart - EndFrequency(p)) > 1.0
    ensures r[1].SetValueAtTime? <==> Abs(p.frequencyStart - EndFrequency(p)) <= 1.0
  {
    var endFreq := Max(0.001, p.frequencyEnd);
    [SetValueAtTime(p.frequencyStart, 0.0)] +
    if Abs(p.frequencyStart - endFreq) > 1.0 then [ExponentialRampToValueAtTime(endFreq, p.duration)]
    else [SetValueAtTime(endFreq, p.duration)]
  }

  /** With a non-negative duration the frequency timeline is well timed
      within the time the source plays. */
  lemma FrequencyWellTimed(p: SynthParams)
    requires p.duration >= 0.0
    ensures WellTimed(FrequencySchedule(p), 0.0, StopTime(p))
  {
  }

  /** The master gain level: the volume, or 0.5 when it is missing. */
  function Volume(p: SynthParams): (r: real)
    ensures p.volume.Some? ==> r == p.volume.value
    ensures p.volume.None? ==> r == 0.5
  {
    p.volume.GetOr(0.5)
  }

  /** The ADSR gain timeline: silence at 0, a linear attack to the volume, a
      linear decay to the sustain level, the sustain held to `duration`,
      then a linear release to silence at the stop time. Attack, decay,
      sustain and release are clamped at zero first. */
  function Envelope(p: SynthParams): (r: seq<Automation>)
    ensures |r| == 5
    ensures r[0] == SetValueAtTime(0.0, 0.0)
    ensures r[1].LinearRampToValueAtTime? && r[1].value == Volume(p) && r[1].time == Max(0.0, p.attack)
    ensures r[2] == LinearRampToValueAtTime(r[3].value, Max(0.0, p.attack) + Max(0.0, p.decay))
    ensures r[2].value == r[3].value == Max(0.0, p.sustain) * Volume(p)
    ensures r[3] == SetValueAtTime(r[2].value, p.duration)
    ensures r[4] == LinearRampToValueAtTime(0.0, StopTime(p))
  {
    var vol := p.volume.GetOr(0.5);
    var attack := Max(0.0, p.attack);
    var decay := Max(0.0, p.decay);
    var sustain := Max(0.0, p.sustain);
    var release := Max(0.0, p.release);
    [ SetValueAtTime(0.0, 0.0),
      LinearRampToValueAtTime(vol, attack),
      LinearRampToValueAtTime(sustain * vol, attack + decay),
      SetValueAtTime(sustain * vol, p.duration),
      LinearRampToValueAtTime(0.0, p.duration + release) ]
  }

  /** When attack and decay fit inside the note, the envelope's breakpoints
      are in time order, from 0 to the stop time. */
  lemma EnvelopeWellTimed(p: SynthParams)
    requires Max(0.0, p.attack) + Max(0.0, p.decay) <= p.duration
    ensures WellTimed(Envelope(p), 0.0, StopTime(p))
  {
    var e := Envelope(p);
    assert e[2].time == Max(0.0, p.attack) + Max(0.0, p.decay);
  }

  /** With a non-negative volume and a sustain level of at most 1, the
      gain never leaves [0, volume]. */
  lemma EnvelopeBounded(p: SynthParams)
    requires Volume(p) >= 0.0 && p.sustain <= 1.0
    ensures forall i :: 0 <= i < 5 ==> 0.0 <= Envelope(p)[i].value <= Volume(p)
  {
    var s := Max(0.0, p.sustain);
    var e := Envelope(p);
    assert 0.0 <= s * Volume(p) <= Volume(p) by {
      ProductMonotone(s, Volume(p), 1.0, Volume(p));
    }
    assert e[0].value == 0.0 && e[4].value == 0.0;
    assert e[1].value == Volume(p);
    assert e[2].value == s * Volume(p) && e[3].value == s * Volume(p);
  }

  // ---------------------------------------------------------------------
  // Node graph
  // ---------------------------------------------------------------------

  datatype Node =
    | SourceNode | FilterNode | ShaperNode
    | DelayNode | FeedbackNode | DelayWetNode
    | ConvolverNode | ReverbWetNode
    | MasterNode | DestinationNode

  /** `from.connect(to)`. */
  datatype Edge = Edge(from: Node, to: Node)

  /** The node that carries the dry signal out of the filter stage: the
      waveshaper when distortion is on, the filter otherwise. */
  function SourceOut(p: SynthParams): (r: Node)
    ensures r == ShaperNode <==> p.distortion > 0.0
    ensures r == FilterNode <==> p.distortion <= 0.0
  {
    if p.distortion > 0.0 then ShaperNode else FilterNode
  }

  /** The reverb's return: wet gain into the master, convolver into the
      wet gain. */
  function ReverbReturn(p: SynthParams): seq<Edge>
  {
    if p.reverb > 0.0 then [Edge(ReverbWetNode, MasterNode), Edge(ConvolverNode, ReverbWetNode)] else []
  }

  /** The delay's loop through the feedback gain and its return through the
      wet gain. */
  function DelayLoop(p: SynthParams): seq<Edge>
  {
    if p.delayTime > 0.0
    then [Edge(DelayNode, FeedbackNode), Edge(FeedbackNode, DelayNode), Edge(DelayNode, DelayWetNode), Edge(DelayWetNode, MasterNode)]
    else []
  }

  function ShaperInput(p: SynthParams): seq<Edge>
  {
    if p.distortion > 0.0 then [Edge(FilterNode, ShaperNode)] else []
  }

  function DelayTap(p: SynthParams): seq<Edge>
  {
    if p.delayTime > 0.0 then [Edge(SourceOut(p), DelayNode)] else []
  }

  function ReverbTap(p: SynthParams): seq<Edge>
  {
    if p.reverb > 0.0 then [Edge(SourceOut(p), ConvolverNode)] else []
  }

  /** The connections `generateSoundBuffer` makes, in the order it makes
      them. */
  function Topology(p: SynthParams): (r: seq<Edge>)
    ensures |r| >= 3
    ensures r[0] == Edge(MasterNode, DestinationNode) && r[|r| - 1] == Edge(SourceNode, FilterNode)
  {
    [Edge(MasterNode, DestinationNode)] + ReverbReturn(p) + DelayLoop(p) + ShaperInput(p)
    + [Edge(SourceOut(p), MasterNode)] + DelayTap(p) + ReverbTap(p) + [Edge(SourceNode, FilterNode)]
  }

  /** Three connections always, three more for the reverb, five for the
      delay and one for the waveshaper. */
  lemma TopologySize(p: SynthParams)
    ensures |Topology(p)| == 3 + (if p.reverb > 0.0 then 3 else 0) + (if p.delayTime > 0.0 then 5 else 0)
                             + (if p.distortion > 0.0 then 1 else 0)
  {
  }

  /** Membership in the topology, connection by connection. */
  ghost predicate Connected(p: SynthParams, e: Edge)
  {
    e == Edge(MasterNode, DestinationNode) ||
    (p.reverb > 0.0 && (e == Edge(ReverbWetNode, MasterNode) || e == Edge(ConvolverNode, ReverbWetNode))) ||
    (p.delayTime > 0.0 && (e == Edge(DelayNode, FeedbackNode) || e == Edge(FeedbackNode, DelayNode) ||
                           e == Edge(DelayNode, DelayWetNode) || e == Edge(DelayWetNode, MasterNode))) ||
    (p.distortion > 0.0 && e == Edge(FilterNode, ShaperNode)) ||
    e == Edge(SourceOut(p), MasterNode) ||
    (p.delayTime > 0.0 && e == Edge(SourceOut(p), DelayNode)) ||
    (p.reverb > 0.0 && e == Edge(SourceOut(p), ConvolverNode)) ||
    e == Edge(SourceNode, FilterNode)
  }

  lemma TopologyMembers(p: SynthParams, e: Edge)
    ensures e in Topology(p) <==> Connected(p, e)
  {
    var a := [Edge(MasterNode, DestinationNode)] + ReverbReturn(p) + DelayLoop(p) + ShaperInput(p);
    var b := [Edge(SourceOut(p), MasterNode)] + DelayTap(p) + ReverbTap(p) + [Edge(SourceNode, FilterNode)];
    assert Topology(p) == a + b;
    assert e in a <==>
      e == Edge(MasterNode, DestinationNode) || e in ReverbReturn(p) || e in DelayLoop(p) || e in ShaperInput(p);
    assert e in b <==>
      e == Edge(SourceOut(p), MasterNode) || e in DelayTap(p) || e in ReverbTap(p) || e == Edge(SourceNode, FilterNode);
    assert e in ReverbReturn(p) <==>
      p.reverb > 0.0 && (e == Edge(ReverbWetNode, MasterNode) || e == Edge(ConvolverNode, ReverbWetNode));
    assert e in DelayLoop(p) <==>
      p.delayTime > 0.0 && (e == Edge(DelayNode, FeedbackNode) || e == Edge(FeedbackNode, DelayNode) ||
                            e == Edge(DelayNode, DelayWetNode) || e == Edge(DelayWetNode, MasterNode));
    assert e in a + b <==> e in a || e in b;
  }

  /** The dry path: the source feeds the filter, the filter feeds the
      waveshaper exactly when distortion is on, and whichever comes last
      feeds the master gain, which feeds the output. */
  lemma DryPath(p: SynthParams)
    ensures Edge(SourceNode, FilterNode) in Topology(p)
    ensures Edge(MasterNode, DestinationNode) in Topology(p)
    ensures Edge(FilterNode, ShaperNode) in Topology(p) <==> p.distortion > 0.0
    ensures Edge(ShaperNode, MasterNode) in Topology(p) <==> p.distortion > 0.0
    ensures Edge(FilterNode, MasterNode) in Topology(p) <==> p.distortion <= 0.0
  {
    TopologyMembers(p, Edge(SourceNode, FilterNode));
    TopologyMembers(p, Edge(MasterNode, DestinationNode));
    TopologyMembers(p, Edge(FilterNode, ShaperNode));
    TopologyMembers(p, Edge(ShaperNode, MasterNode));
    TopologyMembers(p, Edge(FilterNode, MasterNode));
  }

  /** The dry output also feeds the delay exactly when the delay time is
      positive, and the convolver exactly when reverb is positive; the wet
      gains feed the master exactly when their effect is on. */
  lemma EffectTaps(p: SynthParams)
    ensures Edge(SourceOut(p), DelayNode) in Topology(p) <==> p.delayTime > 0.0
    ensures Edge(SourceOut(p), ConvolverNode) in Topology(p) <==> p.reverb > 0.0
    ensures Edge(DelayWetNode, MasterNode) in Topology(p) <==> p.delayTime > 0.0
    ensures Edge(ReverbWetNode, MasterNode) in Topology(p) <==> p.reverb > 0.0
    ensures Edge(DelayNode, FeedbackNode) in Topology(p) && Edge(FeedbackNode, DelayNode) in Topology(p)
      <==> p.delayTime > 0.0
  {
    TopologyMembers(p, Edge(SourceOut(p), DelayNode));
    TopologyMembers(p, Edge(SourceOut(p), ConvolverNode));
    TopologyMembers(p, Edge(DelayWetNode, MasterNode));
    TopologyMembers(p, Edge(ReverbWetNode, MasterNode));
    TopologyMembers(p, Edge(DelayNode, FeedbackNode));
    TopologyMembers(p, Edge(FeedbackNode, DelayNode));
  }

  /** A position of each node along the signal flow. */
  function Rank(n: Node): nat
  {
    match n
    case SourceNode => 0
    case FilterNode => 1
    case ShaperNode => 2
    case DelayNode => 3
    case ConvolverNode => 3
    case FeedbackNode => 4
    case ReverbWetNode => 4
    case DelayWetNode => 5
    case MasterNode => 6
    case DestinationNode => 7
  }

  /** Every connection except feedback-to-delay runs forward along the
      signal flow, so the delay loop is the graph's only cycle. */
  lemma OnlyFeedbackLoops(p: SynthParams)
    ensures forall e :: e in Topology(p) ==>
      e == Edge(FeedbackNode, DelayNode) || Rank(e.from) < Rank(e.to)
  {
    forall e | e in Topology(p)
      ensures e == Edge(FeedbackNode, DelayNode) || Rank(e.from) < Rank(e.to)
    {
      TopologyMembers(p, e);
    }
  }

  /** A chain of connections. */
  ghost predicate IsPath(edges: seq<Edge>, path: seq<Node>)
  {
    |path| >= 1 && forall i :: 0 <= i < |path| - 1 ==> Edge(path[i], path[i + 1]) in edges
  }

  /** The route from a node to the output. */
  function RouteToOutput(p: SynthParams, n: Node): (r: seq<Node>)
    ensures |r| >= 1 && r[0] == n && r[|r| - 1] == DestinationNode
  {
    match n
    case DestinationNode => [DestinationNode]
    case MasterNode => [MasterNode, DestinationNode]
    case ReverbWetNode => [ReverbWetNode, MasterNode, DestinationNode]
    case DelayWetNode => [DelayWetNode, MasterNode, DestinationNode]
    case ConvolverNode => [ConvolverNode, ReverbWetNode, MasterNode, DestinationNode]
    case DelayNode => [DelayNode, DelayWetNode, MasterNode, DestinationNode]
    case FeedbackNode => [FeedbackNode, DelayNode, DelayWetNode, MasterNode, DestinationNode]
    case ShaperNode => [ShaperNode, MasterNode, DestinationNode]
    case FilterNode =>
      if p.distortion > 0.0 then [FilterNode, ShaperNode, MasterNode, DestinationNode]
      else [FilterNode, MasterNode, DestinationNode]
    case SourceNode =>
      if p.distortion > 0.0 then [SourceNode, FilterNode, ShaperNode, MasterNode, DestinationNode]
      else [SourceNode, FilterNode, MasterNode, DestinationNode]
  }

  /** The nodes the graph uses: the effect nodes only when their effect is
      on. */
  predicate InGraph(p: SynthParams, n: Node)
  {
    match n
    case ShaperNode => p.distortion > 0.0
    case DelayNode => p.delayTime > 0.0
    case FeedbackNode => p.delayTime > 0.0
    case DelayWetNode => p.delayTime > 0.0
    case ConvolverNode => p.reverb > 0.0
    case ReverbWetNode => p.reverb > 0.0
    case _ => true
  }

  /** Both ends of every connection are nodes the graph uses. */
  lemma ConnectedInGraph(p: SynthParams, e: Edge)
    requires e in Topology(p)
    ensures InGraph(p, e.from) && InGraph(p, e.to)
  {
    TopologyMembers(p, e);
  }

  /** Each hop of a used node's route is a connection the code makes. */
  lemma RouteHops(p: SynthParams, n: Node)
    requires InGraph(p, n)
    ensures var r := RouteToOutput(p, n);
      forall i :: 0 <= i < |r| - 1 ==> Connected(p, Edge(r[i], r[i + 1]))
  {
  }

  /** Every node the graph uses reaches the output along connections that
      exist: nothing in the graph is a dead end. */
  lemma ReachesOutput(p: SynthParams, n: Node)
    requires InGraph(p, n)
    ensures IsPath(Topology(p), RouteToOutput(p, n))
  {
    var r := RouteToOutput(p, n);
    RouteHops(p, n);
    forall i | 0 <= i < |r| - 1
      ensures Edge(r[i], r[i + 1]) in Topology(p)
    {
      TopologyMembers(p, Edge(r[i], r[i + 1]));
    }
  }

  // ---------------------------------------------------------------------
  // The render job
  // ---------------------------------------------------------------------

  datatype DelaySettings = DelaySettings(maxDelay: real, delayTime: real, feedback: real, wet: real)

  datatype ReverbSettings = ReverbSettings(impulse: array2<real>, wet: real)

  datatype SourceSettings =
    | OscillatorSource(kind: WaveformType, frequency: seq<Automation>)
    | NoiseSource(samples: array<real>)

  /** Everything handed to the offline context before rendering starts. */
  datatype RenderJob = RenderJob(
    channels: nat,
    frameCount: int,
    sampleRate: nat,
    edges: seq<Edge>,
    filter: BiquadSettings,
    shaperCurve: Option<array<real>>,
    delay: Option<DelaySettings>,
    reverb: Option<ReverbSettings>,
    source: SourceSettings,
    gain: seq<Automation>,
    start: real,
    stop: real)

  /** The exceptions the Web Audio API raises on the calls made here: a
      buffer of fewer than one frame, and an automation or stop time
      before zero. */
  datatype RenderError = BufferSizeNotSupported(size: int) | NegativeTime(time: real)

  /** The draws the reverb impulse takes from the random stream. */
  function ReverbDraws(sampleRate: nat, p: SynthParams): nat
  {
    if p.reverb > 0.0 && sampleRate > 0 then 2 * ImpulseDraws(sampleRate as real * 2.5) else 0
  }

  /** The draws the noise fill takes, after the reverb's. */
  function NoiseDraws(sampleRate: nat, p: SynthParams): nat
  {
    var size := NoiseBufferSize(sampleRate, p);
    if p.waveform == Noise && size >= 1 then size else 0
  }

  /** `generateSoundBuffer` up to the call that starts rendering. The
      context's sample rate is a parameter and `Math.random` is the stream
      `random`, read in order. */
  method GenerateSoundBuffer(p: SynthParams, sampleRate: nat, random: seq<real>)
    returns (r: Result<RenderJob, RenderError>)
    requires sampleRate > 0
    requires ReverbDraws(sampleRate, p) + NoiseDraws(sampleRate, p) <= |random|
    ensures r.Err? <==> (p.waveform == Noise && NoiseBufferSize(sampleRate, p) < 1) || p.duration < 0.0
    ensures r.Err? && p.waveform == Noise && NoiseBufferSize(sampleRate, p) < 1 ==>
      r.error == BufferSizeNotSupported(NoiseBufferSize(sampleRate, p))
    ensures r.Err? && !(p.waveform == Noise && NoiseBufferSize(sampleRate, p) < 1) ==>
      r.error == NegativeTime(p.duration)
    ensures r.Ok? ==>
      var job := r.value;
      job.channels == 1 && job.sampleRate == sampleRate &&
      job.frameCount == FrameCount(sampleRate, p) &&
      job.edges == Topology(p) &&
      job.filter == FilterSettings(p) &&
      job.gain == Envelope(p) && job.start == 0.0 && job.stop == StopTime(p)
    ensures r.Ok? ==>
      (r.value.delay.Some? <==> p.delayTime > 0.0) &&
      (p.delayTime > 0.0 ==>
        r.value.delay.value == DelaySettings(MaxDelayTime, p.delayTime, FeedbackGain(p), DelayWetGain))
    ensures r.Ok? ==>
      (r.value.reverb.Some? <==> p.reverb > 0.0) &&
      (p.reverb > 0.0 ==>
        fresh(r.value.reverb.value.impulse) &&
        r.value.reverb.value.wet == ReverbWetGain(p) &&
        IsImpulseResponse(r.value.reverb.value.impulse, sampleRate as real * 2.5, 3, random, 0))
    ensures r.Ok? ==>
      (r.value.shaperCurve.Some? <==> p.distortion > 0.0) &&
      (p.distortion > 0.0 ==>
        fresh(r.value.shaperCurve.value) && IsDistortionCurve(r.value.shaperCurve.value, p.distortion))
    ensures r.Ok? ==>
      (r.value.source.NoiseSource? <==> p.waveform == Noise) &&
      (p.waveform == Noise ==>
        fresh(r.value.source.samples) &&
        IsNoise(r.value.source.samples, NoiseBufferSize(sampleRate, p), random, ReverbDraws(sampleRate, p))) &&
      (p.waveform != Noise ==> r.value.source == OscillatorSource(p.waveform, FrequencySchedule(p)))
  {
    var frameCount := FrameCount(sampleRate, p);

    var edges := [Edge(MasterNode, DestinationNode)];
    var reverb, reverbEdges := ReverbStage(p, sampleRate, random);
    edges := edges + reverbEdges;
    label AfterReverb:

    var delay, delayEdges := DelayStage(p);
    edges := edges + delayEdges;

    var shaperCurve := ShaperStage(p);
    label AfterShaper:

    var filter := FilterSettings(p);

    var sourceOut := FilterNode;
    if shaperCurve.Some? {
      edges := edges + [Edge(FilterNode, ShaperNode)];
      sourceOut := ShaperNode;
    }
    assert sourceOut == SourceOut(p);
    assert edges == [Edge(MasterNode, DestinationNode)] + ReverbReturn(p) + DelayLoop(p) + ShaperInput(p);
    edges := edges + [Edge(sourceOut, MasterNode)];
    if delay.Some? {
      edges := edges + [Edge(sourceOut, DelayNode)];
    }
    if reverb.Some? {
      edges := edges + [Edge(sourceOut, ConvolverNode)];
    }

    var source := SourceStage(p, sampleRate, random, ReverbDraws(sampleRate, p));
    if source.Err? {
      return Err(source.error);
    }
    assert edges == [Edge(MasterNode, DestinationNode)] + ReverbReturn(p) + DelayLoop(p) + ShaperInput(p)
      + [Edge(SourceOut(p), MasterNode)] + DelayTap(p) + ReverbTap(p);
    edges := edges + [Edge(SourceNode, FilterNode)];

    if p.duration < 0.0 {
      return Err(NegativeTime(p.duration));
    }
    var gain := Envelope(p);
    assert reverb.Some? ==> unchanged@AfterReverb(reverb.value.impulse);
    assert shaperCurve.Some? ==> unchanged@AfterShaper(shaperCurve.value);
    assert edges == Topology(p);

    r := Ok(RenderJob(1, frameCount, sampleRate, edges, filter, shaperCurve, delay, reverb, source.value,
                      gain, 0.0, StopTime(p)));
  }

  /** The reverb section: a convolver holding a fresh impulse response of
      2.5 seconds with decay 3, and a wet gain of half the reverb amount,
      wired back into the master gain. */
  method ReverbStage(p: SynthParams, sampleRate: nat, random: seq<real>)
    returns (reverb: Option<ReverbSettings>, edges: seq<Edge>)
    requires sampleRate > 0 && ReverbDraws(sampleRate, p) <= |random|
    ensures edges == ReverbReturn(p)
    ensures reverb.Some? <==> p.reverb > 0.0
    ensures reverb.Some? ==>
      fresh(reverb.value.impulse) && reverb.value.wet == ReverbWetGain(p) &&
      IsImpulseResponse(reverb.value.impulse, sampleRate as real * 2.5, 3, random, 0)
  {
    reverb := None;
    edges := [];
    if p.reverb > 0.0 {
      var impulse := CreateImpulseResponse(sampleRate, 2.5, 3, random, 0);
      reverb := Some(ReverbSettings(impulse, ReverbWetGain(p)));
      edges := [Edge(ReverbWetNode, MasterNode), Edge(ConvolverNode, ReverbWetNode)];
    }
  }

  /** The delay section: a delay line of at most one second looping through
      the feedback gain, and a wet gain of 0.3 into the master gain. */
  method DelayStage(p: SynthParams) returns (delay: Option<DelaySettings>, edges: seq<Edge>)
    ensures edges == DelayLoop(p)
    ensures delay.Some? <==> p.delayTime > 0.0
    ensures delay.Some? ==> delay.value == DelaySettings(MaxDelayTime, p.delayTime, FeedbackGain(p), DelayWetGain)
  {
    delay := None;
    edges := [];
    if p.delayTime > 0.0 {
      delay := Some(DelaySettings(MaxDelayTime, p.delayTime, FeedbackGain(p), DelayWetGain));
      edges := [Edge(DelayNode, FeedbackNode), Edge(FeedbackNode, DelayNode)];
      edges := edges + [Edge(DelayNode, DelayWetNode), Edge(DelayWetNode, MasterNode)];
    }
  }

  /** The distortion section: a wave shaper with a fresh curve when the
      amount is positive. */
  method ShaperStage(p: SynthParams) returns (shaperCurve: Option<array<real>>)
    ensures shaperCurve.Some? <==> p.distortion > 0.0
    ensures shaperCurve.Some? ==> fresh(shaperCurve.value) && IsDistortionCurve(shaperCurve.value, p.distortion)
  {
    shaperCurve := None;
    if p.distortion > 0.0 {
      var curve := CreateDistortionCurve(p.distortion);
      shaperCurve := Some(curve);
    }
  }

  /** The source: a noise buffer filled from the random stream starting at
      `next`, or an oscillator with its frequency schedule. Creating a
      buffer of no frames, or scheduling the oscillator's end frequency at
      a negative time, raises. */
  method SourceStage(p: SynthParams, sampleRate: nat, random: seq<real>, next: nat)
    returns (r: Result<SourceSettings, RenderError>)
    requires p.waveform == Noise ==> next + NoiseDraws(sampleRate, p) <= |random|
    ensures r.Err? <==> if p.waveform == Noise then NoiseBufferSize(sampleRate, p) < 1 else p.duration < 0.0
    ensures r.Err? ==>
      r.error == if p.waveform == Noise then BufferSizeNotSupported(NoiseBufferSize(sampleRate, p))
                 else NegativeTime(p.duration)
    ensures r.Ok? ==>
      (r.value.NoiseSource? <==> p.waveform == Noise) &&
      (p.waveform == Noise ==>
        fresh(r.value.samples) && IsNoise(r.value.samples, NoiseBufferSize(sampleRate, p), random, next)) &&
      (p.waveform != Noise ==> r.value == OscillatorSource(p.waveform, FrequencySchedule(p)))
  {
    if p.waveform == Noise {
      var bufferSize := NoiseBufferSize(sampleRate, p);
      if bufferSize < 1 {
        return Err(BufferSizeNotSupported(bufferSize));
      }
      var data := FillNoise(bufferSize, random, next);
      r := Ok(NoiseSource(data));
    } else {
      if p.duration < 0.0 {
        return Err(NegativeTime(p.duration));
      }
      r := Ok(OscillatorSource(p.waveform, FrequencySchedule(p)));
    }
  }
}
