/** The MIDI export of domain/midiEncoder.ts: a synthesis parameter record
    becomes a format-0 Standard MIDI File with a single track holding a
    note-on, a filter-cutoff controller, ten pitch-bend steps that follow the
    frequency slide, a note-off and the end-of-track meta-event.

    `Math.log2` is foreign to the model: it is passed in as `log2`, and the
    facts that need it ask only `log2(1.0) == 0.0`. */
module MidiEncoder {
  import opened Wrappers
  import opened Types
  import opened VariableLength
  import opened JsMath

  const TicksPerBeat: int := 480
  const TempoBpm: int := 120
  const PitchBendSteps: int := 10
  /** Pitch-bend range in semitones. */
  const PitchBendRange: real := 2.0
  /** Velocity of the note-on event. */
  const Velocity: int := 0x64
  /** Controller 74, the filter cutoff ("brightness"). */
  const CutoffController: int := 0x4A

  // ---------------------------------------------------------------------
  // Note, bend and controller values

  /** `freqToMidi`: the fractional note number of a frequency, A4 = 440 Hz
      being note 69. */
  function FreqToMidi(log2: real -> real, f: real): (r: real)
    ensures log2(f / 440.0) == (r - 69.0) / 12.0
    ensures log2(1.0) == 0.0 && f == 440.0 ==> r == 69.0
  {
    69.0 + 12.0 * log2(f / 440.0)
  }

  /** The note of the note-on and note-off events: `frequencyStart` rounded
      to the nearest note. It is NOT clamped to the MIDI data range. */
  function StartNote(log2: real -> real, p: SynthParams): (r: int)
    ensures r as real - 0.5 <= FreqToMidi(log2, p.frequencyStart) < r as real + 0.5
  {
    Round(FreqToMidi(log2, p.frequencyStart))
  }

  /** A frequency of 440 Hz is note 69 exactly. */
  lemma A4IsNote69(log2: real -> real, p: SynthParams)
    requires log2(1.0) == 0.0
    requires p.frequencyStart == 440.0
    ensures StartNote(log2, p) == 69
  {
    assert p.frequencyStart / 440.0 == 1.0;
  }

  /** `pitchBendValue`: a semitone offset, clamped to the +/-2 semitone bend
      range, scaled to the 14-bit bend value with 8191 as centre. */
  function PitchBendValue(diff: real): (r: int)
    ensures 0 <= r <= 16383
    ensures diff == 0.0 ==> r == 8191
    ensures diff >= PitchBendRange ==> r == 16383
    ensures diff <= -PitchBendRange ==> r == 0
  {
    var normalized := Max(-1.0, Min(1.0, diff / PitchBendRange));
    ((normalized + 1.0) * 8191.5).Floor
  }

  /** A larger pitch offset never gives a smaller bend value. */
  lemma PitchBendMonotone(d1: real, d2: real)
    requires d1 <= d2
    ensures PitchBendValue(d1) <= PitchBendValue(d2)
  {
    var n1 := Max(-1.0, Min(1.0, d1 / PitchBendRange));
    var n2 := Max(-1.0, Min(1.0, d2 / PitchBendRange));
    assert n1 <= n2;
    FloorMonotone((n1 + 1.0) * 8191.5, (n2 + 1.0) * 8191.5);
  }

  /** The CC 74 value: `filterFreq` scaled from 0..10000 Hz onto 0..127,
      clamped and rounded down. */
  function FilterValue(filterFreq: real): (r: int)
    ensures 0 <= r <= 127
    ensures filterFreq >= 10000.0 ==> r == 127
    ensures filterFreq <= 0.0 ==> r == 0
  {
    Max(0.0, Min(127.0, (filterFreq / 10000.0) * 127.0)).Floor
  }

  lemma FilterValueMonotone(f1: real, f2: real)
    requires f1 <= f2
    ensures FilterValue(f1) <= FilterValue(f2)
  {
    FloorMonotone(Max(0.0, Min(127.0, (f1 / 10000.0) * 127.0)),
                  Max(0.0, Min(127.0, (f2 / 10000.0) * 127.0)));
  }

  /** The duration in ticks at 120 beats per minute and 480 ticks per beat. */
  function TotalTicks(duration: real): (r: int)
    ensures r as real <= 960.0 * duration < r as real + 1.0
    ensures duration >= 0.0 ==> r >= 0
  {
    (duration * (TempoBpm as real / 60.0) * TicksPerBeat as real).Floor
  }

  /** The delta time of each pitch-bend step: the ten steps fit in the
      duration and leave less than ten ticks over. */
  function StepTicks(duration: real): (r: int)
    ensures PitchBendSteps * r <= TotalTicks(duration) < PitchBendSteps * r + PitchBendSteps
    ensures duration >= 0.0 ==> r >= 0
  {
    TotalTicks(duration) / PitchBendSteps
  }

  /** The frequency at step `i` of the ten pitch-bend steps: linear
      interpolation between start and end frequency at progress i/10. */
  function StepFrequency(p: SynthParams, i: int): (r: real)
    ensures i == 0 ==> r == p.frequencyStart
    ensures i == PitchBendSteps ==> r == p.frequencyEnd
    ensures 0 <= i <= PitchBendSteps ==>
      Min(p.frequencyStart, p.frequencyEnd) <= r <= Max(p.frequencyStart, p.frequencyEnd)
  {
    var progress := i as real / PitchBendSteps as real;
    p.frequencyStart + (p.frequencyEnd - p.frequencyStart) * progress
  }

  /** The bend value of step `i`: the pitch of the step's frequency relative
      to the start note. */
  function BendAt(log2: real -> real, p: SynthParams, i: int): (r: int)
    ensures 0 <= r <= 16383
  {
    PitchBendValue(FreqToMidi(log2, StepFrequency(p, i)) - StartNote(log2, p) as real)
  }

  // ---------------------------------------------------------------------
  // Track events

  datatype MidiMessage =
    | NoteOn(key: int, velocity: int)
    | NoteOff(key: int, velocity: int)
    | ControlChange(controller: int, value: int)
    | PitchBend(value: int)
    | EndOfTrack

  datatype TrackEvent = TrackEvent(delta: int, message: MidiMessage)

  /** The numbers pushed for a message on channel 0; the pitch-bend value is
      split into `bend & 0x7F` and `(bend >> 7) & 0x7F`. */
  function MessageNumbers(m: MidiMessage): (r: seq<int>)
    ensures |r| == 3
  {
    match m
    case NoteOn(k, v) => [0x90, k, v]
    case NoteOff(k, v) => [0x80, k, v]
    case ControlChange(c, v) => [0xB0, c, v]
    case PitchBend(b) => [0xE0, LowGroup(b), LowGroup(Shift7(b))]
    case EndOfTrack => [0xFF, 0x2F, 0x00]
  }

  function EventNumbers(e: TrackEvent): seq<int>
  {
    EncodedLength(e.delta) + MessageNumbers(e.message)
  }

  function TrackNumbers(es: seq<TrackEvent>): seq<int>
  {
    if es == [] then [] else EventNumbers(es[0]) + TrackNumbers(es[1..])
  }

  lemma {:induction false} TrackNumbersAppend(es: seq<TrackEvent>, fs: seq<TrackEvent>)
    ensures TrackNumbers(es + fs) == TrackNumbers(es) + TrackNumbers(fs)
  {
    if es == [] {
      assert es + fs == fs;
    } else {
      assert (es + fs)[0] == es[0];
      assert (es + fs)[1..] == es[1..] + fs;
      TrackNumbersAppend(es[1..], fs);
    }
  }

  /** The ten pitch-bend events, each one `StepTicks` after the previous. */
  function BendEvents(log2: real -> real, p: SynthParams, n: nat): (r: seq<TrackEvent>)
    ensures |r| == n
  {
    seq(n, k => TrackEvent(StepTicks(p.duration), PitchBend(BendAt(log2, p, k + 1))))
  }

  /** The two events before the bends. */
  function Opening(log2: real -> real, p: SynthParams): seq<TrackEvent>
  {
    [ TrackEvent(0, NoteOn(StartNote(log2, p), Velocity)),
      TrackEvent(0, ControlChange(CutoffController, FilterValue(p.filterFreq))) ]
  }

  /** The two events after the bends. */
  function Closing(log2: real -> real, p: SynthParams): seq<TrackEvent>
  {
    [ TrackEvent(0, NoteOff(StartNote(log2, p), 0)),
      TrackEvent(0, EndOfTrack) ]
  }

  /** The whole event list of the track, in order. */
  function Events(log2: real -> real, p: SynthParams): (r: seq<TrackEvent>)
    ensures |r| == 14
  {
    Opening(log2, p) + BendEvents(log2, p, 10) + Closing(log2, p)
  }

  // ---------------------------------------------------------------------
  // The file

  /** `Uint8Array` conversion of a number: modulo 256. */
  function ToUint8(x: int): (r: Byte)
    ensures 0 <= x < 256 ==> r == x
  {
    x % 256
  }

  function Uint8s(xs: seq<int>): (r: seq<Byte>)
    ensures |r| == |xs|
    ensures forall k :: 0 <= k < |xs| ==> r[k] == ToUint8(xs[k])
  {
    seq(|xs|, k requires 0 <= k < |xs| => ToUint8(xs[k]))
  }

  /** Big-endian value of a byte string. */
  function BigEndian(bs: seq<Byte>): nat
  {
    if bs == [] then 0 else BigEndian(bs[..|bs| - 1]) * 256 + bs[|bs| - 1]
  }

  lemma BigEndian2(b: seq<Byte>)
    requires |b| == 2
    ensures BigEndian(b) == b[0] as int * 256 + b[1] as int
  {
    var c := b[..1];
    assert c[..0] == [] && c[0] == b[0];
    assert BigEndian(c) == b[0];
  }

  lemma BigEndian4(b: seq<Byte>)
    requires |b| == 4
    ensures BigEndian(b) == ((b[0] as int * 256 + b[1] as int) * 256 + b[2] as int) * 256 + b[3] as int
  {
    assert b[..3][..2] == b[..2];
    BigEndian2(b[..2]);
  }

  /** `(x >> s) & 0xff` on a 32-bit value. */
  function ShiftedByte(x: int, s: nat): (r: Byte)
    ensures 0 <= x < 0x8000_0000 ==> r == x / Pow2(s) % 256
  {
    (ToInt32(x) / Pow2(s)) % 256
  }

  function Pow2(n: nat): (r: nat)
    ensures r >= 1
  {
    if n == 0 then 1 else 2 * Pow2(n - 1)
  }

  /** The `MThd` chunk: its 4-byte length says 6, and it declares format 0,
      one track and 480 ticks per quarter note. */
  function Header(): (r: seq<Byte>)
    ensures |r| == 14
    ensures r[..4] == [0x4D, 0x54, 0x68, 0x64]
    ensures BigEndian(r[4..8]) == 6
    ensures BigEndian(r[8..10]) == 0 && BigEndian(r[10..12]) == 1
    ensures BigEndian(r[12..14]) == TicksPerBeat
  {
    var h := [ 0x4D, 0x54, 0x68, 0x64,
               0x00, 0x00, 0x00, 0x06,
               0x00, 0x00,
               0x00, 0x01,
               ShiftedByte(TicksPerBeat, 8), ShiftedByte(TicksPerBeat, 0) ];
    assert Pow2(8) == 256;
    assert h[12..14] == [0x01, 0xE0];
    BigEndian2(h[12..14]);
    BigEndian2(h[8..10]);
    BigEndian2(h[10..12]);
    BigEndian4(h[4..8]);
    h
  }

  /** The `MTrk` chunk header for a track of `n` bytes: the length is written
      big-endian in four bytes. */
  function TrackHeader(n: nat): (r: seq<Byte>)
    ensures |r| == 8
    ensures r[..4] == [0x4D, 0x54, 0x72, 0x6B]
  {
    [ 0x4D, 0x54, 0x72, 0x6B,
      ShiftedByte(n, 24), ShiftedByte(n, 16), ShiftedByte(n, 8), ShiftedByte(n, 0) ]
  }

  lemma DivDiv256(n: nat)
    ensures n / 0x100 / 0x100 == n / 0x1_0000
    ensures n / 0x1_0000 / 0x100 == n / 0x100_0000
  {
  }

  /** Below 2^31 the length field holds the length exactly. */
  lemma TrackHeaderLength(n: nat)
    requires n < 0x8000_0000
    ensures BigEndian(TrackHeader(n)[4..8]) == n
  {
    TrackHeaderBytes(n);
    BigEndianBytes(n);
  }

  /** The four length bytes are the base-256 digits of `n`, most
      significant first. */
  lemma TrackHeaderBytes(n: nat)
    requires n < 0x8000_0000
    ensures TrackHeader(n)[4..8] == [n / 0x100_0000 % 0x100, n / 0x1_0000 % 0x100, n / 0x100 % 0x100, n % 0x100]
  {
    assert Pow2(8) == 0x100 && Pow2(16) == 0x1_0000 && Pow2(24) == 0x100_0000 by {
      assert Pow2(4) == 16;
    }
  }

  lemma BigEndianBytes(n: nat)
    requires n < 0x8000_0000
    ensures BigEndian([n / 0x100_0000 % 0x100, n / 0x1_0000 % 0x100, n / 0x100 % 0x100, n % 0x100]) == n
  {
    var b: seq<Byte> := [n / 0x100_0000 % 0x100, n / 0x1_0000 % 0x100, n / 0x100 % 0x100, n % 0x100];
    BigEndian4(b);
    var n1 := n / 0x100;
    var n2 := n1 / 0x100;
    var n3 := n2 / 0x100;
    DivDiv256(n);
    assert b[0] == n3 && b[1] == n2 % 0x100 && b[2] == n1 % 0x100 && b[3] == n % 0x100;
    assert n2 == n3 * 0x100 + n2 % 0x100;
    assert n1 == n2 * 0x100 + n1 % 0x100;
    assert n == n1 * 0x100 + n % 0x100;
  }

  /** The bytes of the file, as the source assembles them. */
  function MidiFile(log2: real -> real, p: SynthParams): (r: seq<Byte>)
    ensures |r| == 22 + |TrackNumbers(Events(log2, p))|
    ensures r[..14] == Header() && r[14..18] == [0x4D, 0x54, 0x72, 0x6B]
  {
    var te := TrackNumbers(Events(log2, p));
    Header() + TrackHeader(|te|) + Uint8s(te)
  }

  lemma OpeningNumbers(log2: real -> real, p: SynthParams)
    ensures TrackNumbers(Opening(log2, p))
         == [0x00, 0x90, StartNote(log2, p), Velocity, 0x00, 0xB0, CutoffController, FilterValue(p.filterFreq)]
  {
    EncodedZero();
    var o := Opening(log2, p);
    assert o[1..][1..] == [];
    assert TrackNumbers(o[1..]) == EventNumbers(o[1]) + TrackNumbers(o[1..][1..]);
  }

  lemma ClosingNumbers(log2: real -> real, p: SynthParams)
    ensures TrackNumbers(Closing(log2, p)) == [0x00, 0x80, StartNote(log2, p), 0x00, 0x00, 0xFF, 0x2F, 0x00]
  {
    EncodedZero();
    var c := Closing(log2, p);
    assert c[1..][1..] == [];
    assert TrackNumbers(c[1..]) == EventNumbers(c[1]) + TrackNumbers(c[1..][1..]);
  }

  /** One turn of the pitch-bend loop appends the next bend event. */
  lemma BendStep(log2: real -> real, p: SynthParams, i: nat, before: seq<int>, delta: seq<int>, bend: int)
    requires 1 <= i
    requires before == TrackNumbers(Opening(log2, p) + BendEvents(log2, p, i - 1))
    requires delta == EncodedLength(StepTicks(p.duration))
    requires bend == BendAt(log2, p, i)
    ensures before + delta + [0xE0, LowGroup(bend), LowGroup(Shift7(bend))]
         == TrackNumbers(Opening(log2, p) + BendEvents(log2, p, i))
  {
    var e := TrackEvent(StepTicks(p.duration), PitchBend(BendAt(log2, p, i)));
    BendEventsSnoc(log2, p, i);
    assert Opening(log2, p) + BendEvents(log2, p, i) == (Opening(log2, p) + BendEvents(log2, p, i - 1)) + [e];
    TrackNumbersAppend(Opening(log2, p) + BendEvents(log2, p, i - 1), [e]);
    assert [e][1..] == [];
  }

  /** The pushes after the loop complete the event list. */
  lemma ClosingStep(log2: real -> real, p: SynthParams, bends: seq<int>)
    requires bends == TrackNumbers(Opening(log2, p) + BendEvents(log2, p, 10))
    ensures bends + [0x00] + [0x80, StartNote(log2, p), 0x00] + [0x00, 0xFF, 0x2F, 0x00]
         == TrackNumbers(Events(log2, p))
  {
    ClosingNumbers(log2, p);
    TrackNumbersAppend(Opening(log2, p) + BendEvents(log2, p, 10), Closing(log2, p));
  }

  /** `synthParamsToMidi`: builds the track numbers by pushing the opening
      events, then ten pitch-bend steps in a loop, then the closing events,
      and prefixes the two chunk headers. */
  method SynthParamsToMidi(log2: real -> real, p: SynthParams) returns (midi: seq<Byte>)
    ensures midi == MidiFile(log2, p)
  {
    var header := Header();
    var startMidiNote := Round(FreqToMidi(log2, p.frequencyStart));
    var trackEvents: seq<int> := [];

    trackEvents := trackEvents + [0x00];
    trackEvents := trackEvents + [0x90, startMidiNote, Velocity];

    var filterVal := FilterValue(p.filterFreq);
    trackEvents := trackEvents + [0x00];
    trackEvents := trackEvents + [0xB0, CutoffController, filterVal];
    assert trackEvents == TrackNumbers(Opening(log2, p)) by {
      OpeningNumbers(log2, p);
    }

    var totalTicks := TotalTicks(p.duration);
    var stepTicks := totalTicks / PitchBendSteps;
    assert Opening(log2, p) + BendEvents(log2, p, 0) == Opening(log2, p);

    for i := 1 to PitchBendSteps + 1
      invariant trackEvents == TrackNumbers(Opening(log2, p) + BendEvents(log2, p, i - 1))
    {
      var currentFreq := StepFrequency(p, i);
      var currentMidi := FreqToMidi(log2, currentFreq);
      var diff := currentMidi - startMidiNote as real;
      var bend := PitchBendValue(diff);

      var delta := EncodeVariableLength(stepTicks);
      BendStep(log2, p, i, trackEvents, delta, bend);
      trackEvents := trackEvents + delta;
      trackEvents := trackEvents + [0xE0, LowGroup(bend), LowGroup(Shift7(bend))];
    }

    ClosingStep(log2, p, trackEvents);
    trackEvents := trackEvents + [0x00];
    trackEvents := trackEvents + [0x80, startMidiNote, 0x00];
    trackEvents := trackEvents + [0x00, 0xFF, 0x2F, 0x00];

    var trackHeader := TrackHeader(|trackEvents|);
    midi := header + trackHeader + Uint8s(trackEvents);
  }

  // ---------------------------------------------------------------------
  // Reading the file back: a reader for the messages this encoder writes
  // (channel-0 note-on, note-off, control change, pitch bend, and the
  // end-of-track meta-event), checking that data bytes are below 0x80.

  function ParseMessage(bs: seq<Byte>): (r: Option<(MidiMessage, nat)>)
    ensures r.Some? ==> r.value.1 == 3 <= |bs|
  {
    if |bs| < 3 then None
    else if bs[0] == 0xFF then
      (if bs[1] == 0x2F && bs[2] == 0x00 then Some((EndOfTrack, 3)) else None)
    else if bs[1] >= 0x80 || bs[2] >= 0x80 then None
    else if bs[0] == 0x90 then Some((NoteOn(bs[1], bs[2]), 3))
    else if bs[0] == 0x80 then Some((NoteOff(bs[1], bs[2]), 3))
    else if bs[0] == 0xB0 then Some((ControlChange(bs[1], bs[2]), 3))
    else if bs[0] == 0xE0 then Some((PitchBend(bs[1] as int + 0x80 * bs[2] as int), 3))
    else None
  }

  /** The events of a track body, each a delta time followed by a message. */
  function ParseEvents(bs: seq<Byte>): Option<seq<TrackEvent>>
    decreases |bs|
  {
    if bs == [] then Some([])
    else
      match ReadVlq(bs)
      case None => None
      case Some((delta, n)) =>
        match ParseMessage(bs[n..])
        case None => None
        case Some((m, k)) =>
          match ParseEvents(bs[n + k..])
          case None => None
          case Some(rest) => Some([TrackEvent(delta, m)] + rest)
  }

  /** Reads a format-0, single-track file: checks both chunk headers and that
      the track length field covers exactly the rest of the bytes; returns
      the division and the events. */
  function ReadMidiFile(bs: seq<Byte>): Option<(int, seq<TrackEvent>)>
  {
    if |bs| < 22 then None
    else if bs[..4] != [0x4D, 0x54, 0x68, 0x64] || BigEndian(bs[4..8]) != 6 then None
    else if BigEndian(bs[8..10]) != 0 || BigEndian(bs[10..12]) != 1 then None
    else if bs[14..18] != [0x4D, 0x54, 0x72, 0x6B] || BigEndian(bs[18..22]) != |bs| - 22 then None
    else
      match ParseEvents(bs[22..])
      case None => None
      case Some(es) => Some((BigEndian(bs[12..14]), es))
  }

  /** An event this reader reads back: a delta time the encoder writes
      exactly, and data bytes below 0x80. */
  predicate Encodable(e: TrackEvent)
  {
    && 0 <= e.delta < 0x8000_0000
    && match e.message
       case NoteOn(k, v) => 0 <= k < 0x80 && 0 <= v < 0x80
       case NoteOff(k, v) => 0 <= k < 0x80 && 0 <= v < 0x80
       case ControlChange(c, v) => 0 <= c < 0x80 && 0 <= v < 0x80
       case PitchBend(b) => 0 <= b < 0x4000
       case EndOfTrack => true
  }

  /** The two 7-bit halves of a 14-bit bend value are data bytes and
      recombine to the value. */
  lemma PitchBendBytes(b: int)
    requires 0 <= b < 0x4000
    ensures LowGroup(b) < 0x80 && LowGroup(Shift7(b)) < 0x80
    ensures LowGroup(b) + 0x80 * LowGroup(Shift7(b)) == b
  {
    assert Shift7(b) == b / 0x80 < 0x80;
    assert LowGroup(Shift7(b)) == b / 0x80;
  }

  lemma Uint8sAppend(a: seq<int>, b: seq<int>)
    ensures Uint8s(a + b) == Uint8s(a) + Uint8s(b)
  {
  }

  lemma Uint8sOfBytes(a: seq<int>)
    requires forall k :: 0 <= k < |a| ==> 0 <= a[k] < 256
    ensures Uint8s(a) == a
  {
  }

  lemma MessageRoundTrip(m: MidiMessage, rest: seq<Byte>)
    requires Encodable(TrackEvent(0, m))
    ensures forall k :: 0 <= k < 3 ==> 0 <= MessageNumbers(m)[k] < 256
    ensures Uint8s(MessageNumbers(m)) == MessageNumbers(m)
    ensures ParseMessage(Uint8s(MessageNumbers(m)) + rest) == Some((m, 3))
  {
    if m.PitchBend? {
      PitchBendBytes(m.value);
    }
    Uint8sOfBytes(MessageNumbers(m));
  }

  /** Reading one encoded event in front of further bytes. */
  lemma EventThenRest(e: TrackEvent, tail: seq<Byte>)
    requires Encodable(e)
    ensures ParseEvents(Uint8s(EventNumbers(e)) + tail)
         == match ParseEvents(tail)
            case None => None
            case Some(rest) => Some([e] + rest)
  {
    var vlq := EncodedLength(e.delta);
    var msg := MessageNumbers(e.message);
    EncodedIsVlq(e.delta);
    VlqShape(e.delta);
    Uint8sOfBytes(vlq);
    MessageRoundTrip(e.message, tail);
    Uint8sAppend(vlq, msg);
    var bs := Uint8s(EventNumbers(e)) + tail;
    assert bs == Vlq(e.delta) + (Uint8s(msg) + tail);
    VlqRoundTrip(e.delta, Uint8s(msg) + tail);
    var n := |Vlq(e.delta)|;
    assert bs[n..] == Uint8s(msg) + tail;
    assert bs[n..][3..] == tail;
    assert bs[n + 3..] == tail;
  }

  /** Round trip of the event stream: the reader recovers every list of
      readable events from the bytes the encoder writes for it. */
  lemma {:induction false} EventsRoundTrip(es: seq<TrackEvent>)
    requires forall k :: 0 <= k < |es| ==> Encodable(es[k])
    ensures ParseEvents(Uint8s(TrackNumbers(es))) == Some(es)
    decreases |es|
  {
    if es != [] {
      Uint8sAppend(EventNumbers(es[0]), TrackNumbers(es[1..]));
      EventThenRest(es[0], Uint8s(TrackNumbers(es[1..])));
      EventsRoundTrip(es[1..]);
      assert [es[0]] + es[1..] == es;
    }
  }

  /** When the start note is a MIDI data value and the step delta is
      within 2^31, every event of the track is readable. */
  lemma EventsEncodable(log2: real -> real, p: SynthParams)
    requires 0 <= StartNote(log2, p) < 0x80
    requires 0 <= StepTicks(p.duration) < 0x8000_0000
    ensures forall k :: 0 <= k < |Events(log2, p)| ==> Encodable(Events(log2, p)[k])
  {
  }

  /** The file's layout: the 14-byte header, the 8-byte track header whose
      length field is the track length, then the track bytes. */
  lemma MidiLayout(log2: real -> real, p: SynthParams)
    ensures var te := TrackNumbers(Events(log2, p));
            var midi := MidiFile(log2, p);
            && |te| == 16 + 10 * (|EncodedLength(StepTicks(p.duration))| + 3)
            && |midi| == 22 + |te|
            && midi[..14] == [0x4D, 0x54, 0x68, 0x64, 0, 0, 0, 6, 0, 0, 0, 1, 0x01, 0xE0]
            && midi[14..18] == [0x4D, 0x54, 0x72, 0x6B]
            && BigEndian(midi[18..22]) == |te|
            && midi[22..] == Uint8s(te)
  {
    var te := TrackNumbers(Events(log2, p));
    var midi := MidiFile(log2, p);
    var h := Header();
    assert h[..4] == [0x4D, 0x54, 0x68, 0x64];
    assert h[12..14] == [0x01, 0xE0] by {
      assert Pow2(8) == 256;
    }
    assert midi[..14] == h;
    assert midi[14..22] == TrackHeader(|te|);
    TrackLength(log2, p);
    EncodedLengthAtMost5(StepTicks(p.duration));
    TrackHeaderLength(|te|);
    assert midi[18..22] == TrackHeader(|te|)[4..8];
  }

  /** The numbers of `n` bend events: `n` times the step's quantity and
      three message bytes. */
  lemma {:induction false} BendNumbersLength(log2: real -> real, p: SynthParams, n: nat)
    ensures |TrackNumbers(BendEvents(log2, p, n))| == n * (|EncodedLength(StepTicks(p.duration))| + 3)
    decreases n
  {
    if n > 0 {
      var m := |EncodedLength(StepTicks(p.duration))| + 3;
      var before := BendEvents(log2, p, n - 1);
      assert |TrackNumbers(BendEvents(log2, p, n))| == |TrackNumbers(before)| + m by {
        var e := TrackEvent(StepTicks(p.duration), PitchBend(BendAt(log2, p, n)));
        BendEventsSnoc(log2, p, n);
        TrackNumbersAppend(before, [e]);
        assert [e][1..] == [];
        assert |EventNumbers(e)| == m;
      }
      BendNumbersLength(log2, p, n - 1);
      assert (n - 1) * m + m == n * m;
    }
  }

  lemma BendEventsSnoc(log2: real -> real, p: SynthParams, n: nat)
    requires n >= 1
    ensures BendEvents(log2, p, n)
         == BendEvents(log2, p, n - 1) + [TrackEvent(StepTicks(p.duration), PitchBend(BendAt(log2, p, n)))]
  {
  }

  lemma TrackLength(log2: real -> real, p: SynthParams)
    ensures |TrackNumbers(Events(log2, p))| == 16 + 10 * (|EncodedLength(StepTicks(p.duration))| + 3)
  {
    OpeningNumbers(log2, p);
    ClosingNumbers(log2, p);
    TrackNumbersAppend(Opening(log2, p), BendEvents(log2, p, 10));
    TrackNumbersAppend(Opening(log2, p) + BendEvents(log2, p, 10), Closing(log2, p));
    BendNumbersLength(log2, p, 10);
  }

  /** The track starts with the note-on and CC 74 events and ends with the
      note-off and end-of-track events; both note events carry the same
      note byte, the start note modulo 256. */
  lemma TrackEnds(log2: real -> real, p: SynthParams)
    ensures var te := TrackNumbers(Events(log2, p));
            var note := StartNote(log2, p);
            && |te| >= 16
            && te[..8] == [0x00, 0x90, note, 0x64, 0x00, 0xB0, 0x4A, FilterValue(p.filterFreq)]
            && te[|te| - 8..] == [0x00, 0x80, note, 0x00, 0x00, 0xFF, 0x2F, 0x00]
  {
    OpeningNumbers(log2, p);
    ClosingNumbers(log2, p);
    TrackNumbersAppend(Opening(log2, p), BendEvents(log2, p, 10));
    TrackNumbersAppend(Opening(log2, p) + BendEvents(log2, p, 10), Closing(log2, p));
    TrackLength(log2, p);
  }

  /** The note byte written to the file is the start note modulo 256: it is
      the note itself exactly when the note lies in 0..255, and a valid MIDI
      data byte only when the note lies in 0..127. */
  lemma NoteByte(log2: real -> real, p: SynthParams)
    ensures var midi := MidiFile(log2, p);
            var note := StartNote(log2, p);
            && |midi| >= 38
            && midi[24] == midi[|midi| - 6] == ToUint8(note)
            && (midi[24] == note <==> 0 <= note < 256)
  {
    var te := TrackNumbers(Events(log2, p));
    TrackEnds(log2, p);
    MidiLayout(log2, p);
    var midi := MidiFile(log2, p);
    assert midi[24] == Uint8s(te)[2];
    assert midi[|midi| - 6] == Uint8s(te)[|te| - 6];
  }

  /** The fixed header the encoder writes reads back as format 0, one
      track, 480 ticks per quarter note. */
  lemma ReadHeader(bs: seq<Byte>)
    requires |bs| >= 14
    requires bs[..14] == [0x4D, 0x54, 0x68, 0x64, 0, 0, 0, 6, 0, 0, 0, 1, 0x01, 0xE0]
    ensures bs[..4] == [0x4D, 0x54, 0x68, 0x64] && BigEndian(bs[4..8]) == 6
    ensures BigEndian(bs[8..10]) == 0 && BigEndian(bs[10..12]) == 1
    ensures BigEndian(bs[12..14]) == TicksPerBeat
  {
    var h := bs[..14];
    assert bs[4..8] == h[4..8] && bs[8..10] == h[8..10];
    assert bs[10..12] == h[10..12] && bs[12..14] == h[12..14];
    BigEndian4(bs[4..8]);
    BigEndian2(bs[8..10]);
    BigEndian2(bs[10..12]);
    BigEndian2(bs[12..14]);
  }

  /** Round trip of the whole file: when the note is a MIDI data value and
      the step delta is within 2^31, reading the file gives division 480 and
      exactly the event list: note-on, CC 74, ten pitch bends one step apart,
      note-off, end of track. */
  lemma MidiRoundTrip(log2: real -> real, p: SynthParams)
    requires 0 <= StartNote(log2, p) < 0x80
    requires 0 <= StepTicks(p.duration) < 0x8000_0000
    ensures ReadMidiFile(MidiFile(log2, p)) == Some((TicksPerBeat, Events(log2, p)))
  {
    MidiLayout(log2, p);
    ReadHeader(MidiFile(log2, p));
    EventsEncodable(log2, p);
    EventsRoundTrip(Events(log2, p));
  }
}
