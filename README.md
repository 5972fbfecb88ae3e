# SonicForgeAI core, modelled in Dafny

SonicForgeAI is a browser sound-effect generator. A prompt or a hand-edited
patch becomes a `SynthParams` record. The audio engine renders that record
with Web Audio, and the patch can be exported as a Standard MIDI File. This
project models the deterministic core of that pipeline and proves what it
promises:

- **MIDI export** (`domain/midiEncoder.ts`), in `variable_length.dfy` and
  `midi_encoder.dfy`. `EncodeVariableLength` is the variable-length quantity
  writer. Its `while` loop works on JavaScript 32-bit integers, and it is
  proved equal to the minimal base-128 encoding, which reads back to its
  input. `SynthParamsToMidi` builds the track with the source's ten-step
  `for` loop. It is proved to produce header ++ track header ++ events. A
  reader for the messages it writes recovers the division and every event
  from the output.
- **Render set-up** (`domain/audioEngine.ts`), in `audio_engine.dfy`:
  - the distortion curve, the impulse response and the noise buffer, filled
    in place into arrays;
  - the render length and frame count;
  - the filter defaults, the delay and reverb gains;
  - the oscillator's frequency automation and the gain envelope;
  - the node graph as the list of `connect` calls in source order.

  `GenerateSoundBuffer` returns the job it would hand to `startRendering`,
  or the Web Audio exception it would raise.
- **App state reducer** (`App.tsx`), in `app_reducer.dfy`: `initialState`
  and `reducer` as pure functions over `AppState` and `Action`.
- **Use cases** (`domain/useCases.ts`), in `use_cases.dfy`: the four use
  cases as record builders. The repository, the object-URL factory, the UUID
  and the clock are parameters. Each use case's call trace is recorded so
  that "render once, then export that buffer" can be stated.

`wrappers.dfy` holds `Option` and `Result`. `types.dfy` holds the entities
of `types.ts`. `js_math.dfy` models the `Math` functions the source uses:
`max`, `min`, `abs`, `round`, `ceil` and integer powers.

JavaScript numbers are modelled as `real`. `Math.log2` is a parameter
`log2: real -> real`, assumed only to satisfy `log2(1) == 0` where that is
needed. `Math.random` is a sequence `random` of draws read in order. The
reverb's impulse response takes its draws first, then the noise fill takes
its draws.

## Model

| member | source | states |
|---|---|---|
| Types.WaveformTag | types.ts:3-9 | every waveform's string value has at least four characters, so a three-character prefix always exists |
| JsMath.Round | domain/midiEncoder.ts:17 | `Math.round` gives the integer within half a unit of x, with halves rounded up |
| JsMath.Ceil | domain/audioEngine.ts:47 | `Math.ceil` gives the least integer not below x |
| JsMath.Max | domain/audioEngine.ts:44 | `Math.max` is an upper bound of both arguments and equals one of them |
| JsMath.Min | domain/audioEngine.ts:76 | `Math.min` is a lower bound of both arguments and equals one of them |
| JsMath.Abs | domain/audioEngine.ts:20 | `Math.abs` is non-negative and is x or -x |
| JsMath.Pow | domain/audioEngine.ts:32 | `Math.pow` with a whole exponent never goes negative for a non-negative base and is 1 for base 1 |
| JsMath.PowUnit | domain/audioEngine.ts:32 | a power of a base in [0, 1] stays in [0, 1] and does not grow with the exponent |
| JsMath.PowMonotone | domain/audioEngine.ts:32 | powers of non-negative bases are monotone in the base |
| VariableLength.ToInt32 | domain/midiEncoder.ts:86-89 | the int32 conversion applied before `&` and `>>` lands in [-2^31, 2^31), agrees with x modulo 2^32 and is x itself on [0, 2^31) |
| VariableLength.LowGroup | domain/midiEncoder.ts:86 | `value & 0x7F` is in [0, 128) and is `value % 128` on non-negative int32 values |
| VariableLength.Shift7 | domain/midiEncoder.ts:88 | `value >>= 7` is `value / 128` on non-negative int32 values and strictly decreases a positive value |
| VariableLength.Pushed | domain/midiEncoder.ts:87-91 | the loop pushes nothing exactly when value <= 127, and every byte it pushes carries the continuation bit |
| VariableLength.EncodedLength | domain/midiEncoder.ts:84-92 | the output is one byte longer than what the loop pushes, and its last byte is `value & 0x7F`, below 0x80 |
| VariableLength.ContinuedBytes | domain/midiEncoder.ts:89 | every byte pushed inside the loop has the continuation bit set, and the leading one is above 0x80 |
| VariableLength.VlqShape | domain/midiEncoder.ts:86-91 | the encoding is well formed (continuation bit on every byte but the last, last byte below 0x80), is one byte exactly when v <= 127, and never starts with 0x80 |
| VariableLength.VlqLength | domain/midiEncoder.ts:86-91 | a value below 128^n needs at most n continuation bytes |
| VariableLength.ReadContinued | domain/midiEncoder.ts:86-91 | reading the continuation bytes of w folds w into the accumulator and consumes exactly those bytes |
| VariableLength.VlqRoundTrip | domain/midiEncoder.ts:84-92 | a base-128 reader recovers v from its encoding followed by any bytes, and consumes exactly the encoding |
| VariableLength.VlqInjective | domain/midiEncoder.ts:84-92 | distinct values have distinct encodings |
| VariableLength.PushedIsContinued | domain/midiEncoder.ts:87-91 | reversing the bytes the loop pushes gives the continuation bytes of v / 128 |
| VariableLength.EncodedIsVlq | domain/midiEncoder.ts:84-92 | for 0 <= v < 2^31 the source's output is the minimal encoding |
| VariableLength.EncodedLengthAtMost5 | domain/midiEncoder.ts:84-92 | the output never exceeds five bytes, whatever the input |
| VariableLength.EncodedZero | domain/midiEncoder.ts:84-92 | zero encodes as the single byte 0x00 |
| VariableLength.EncodedWellFormed | domain/midiEncoder.ts:84-92 | the output is well formed for every input, negative ones included |
| VariableLength.EncodeVariableLength | domain/midiEncoder.ts:84-92 | the loop's output is well formed, is the minimal encoding and reads back to `value` for 0 <= value < 2^31, and is one byte for value <= 127 |
| MidiEncoder.FreqToMidi | domain/midiEncoder.ts:16 | the fractional note solves log2(f / 440) = (note - 69) / 12, so 440 Hz is note 69 |
| MidiEncoder.StartNote | domain/midiEncoder.ts:17 | the start note is the integer nearest the fractional note of the start frequency, within half a unit |
| MidiEncoder.A4IsNote69 | domain/midiEncoder.ts:16-17 | a start frequency of 440 Hz gives note 69 |
| MidiEncoder.PitchBendValue | domain/midiEncoder.ts:24-27 | the bend is in [0, 16383], is 8191 for a zero difference, and saturates at +/-2 semitones |
| MidiEncoder.PitchBendMonotone | domain/midiEncoder.ts:24-27 | a larger difference never gives a smaller bend |
| MidiEncoder.PitchBendBytes | domain/midiEncoder.ts:62 | `bend & 0x7F` and `(bend >> 7) & 0x7F` are data bytes and recombine to the bend |
| MidiEncoder.FilterValue | domain/midiEncoder.ts:45 | the CC 74 value is in [0, 127], 127 from 10 kHz up and 0 for non-positive frequencies |
| MidiEncoder.FilterValueMonotone | domain/midiEncoder.ts:45 | a higher cutoff never gives a smaller controller value |
| MidiEncoder.TotalTicks | domain/midiEncoder.ts:51 | the total is the greatest integer not above 960 ticks per second of duration (120 BPM, 480 per beat), non-negative for non-negative durations |
| MidiEncoder.StepTicks | domain/midiEncoder.ts:50-52 | ten steps never exceed the total ticks, which fall short of ten more steps; non-negative for non-negative durations |
| MidiEncoder.StepFrequency | domain/midiEncoder.ts:56 | step 0 is the start frequency, step 10 the end frequency, and every step in between lies between the two |
| MidiEncoder.BendAt | domain/midiEncoder.ts:54-59 | the bend of step i is a 14-bit value |
| MidiEncoder.Header | domain/midiEncoder.ts:29-35 | the header is 14 bytes: `MThd`, length 6, format 0, one track, division 480, all big-endian |
| MidiEncoder.TrackHeader | domain/midiEncoder.ts:72-78 | the track header is eight bytes starting with `MTrk` |
| MidiEncoder.ShiftedByte | domain/midiEncoder.ts:74-77 | `(length >> s) & 0xff` is the base-256 digit of a length below 2^31 at bit position s |
| MidiEncoder.TrackHeaderLength | domain/midiEncoder.ts:72-78 | the `MTrk` length field reads back big-endian as the track's length |
| MidiEncoder.TrackHeaderBytes | domain/midiEncoder.ts:74-77 | the four length bytes are the base-256 digits of the length, most significant first |
| MidiEncoder.OpeningNumbers | domain/midiEncoder.ts:39-47 | the track opens with `00 90 note 64 00 B0 4A val` |
| MidiEncoder.ClosingNumbers | domain/midiEncoder.ts:65-70 | the track closes with `00 80 note 00 00 FF 2F 00` |
| MidiEncoder.BendStep | domain/midiEncoder.ts:54-63 | one loop turn appends the delta time and the `E0 lsb msb` event of step i |
| MidiEncoder.ClosingStep | domain/midiEncoder.ts:65-70 | the note-off and end-of-track pushes complete the event list |
| MidiEncoder.SynthParamsToMidi | domain/midiEncoder.ts:10-82 | the bytes the method builds are exactly header ++ track header ++ events |
| MidiEncoder.Events | domain/midiEncoder.ts:39-70 | there are 14 events: note-on, CC 74, ten bends, note-off, end of track |
| MidiEncoder.ToUint8 | domain/midiEncoder.ts:80 | storing a number in a `Uint8Array` keeps it when it is in [0, 256) |
| MidiEncoder.Uint8s | domain/midiEncoder.ts:80 | `new Uint8Array` keeps the length and stores every number modulo 256 |
| MidiEncoder.MidiFile | domain/midiEncoder.ts:80 | the file is 22 bytes longer than the track, opening with the 14-byte header and then `MTrk` |
| MidiEncoder.MessageRoundTrip | domain/midiEncoder.ts:37-70 | each message the encoder writes parses back to itself from its three bytes |
| MidiEncoder.EventsRoundTrip | domain/midiEncoder.ts:39-70 | any list of encodable events parses back from its bytes |
| MidiEncoder.EventsEncodable | domain/midiEncoder.ts:39-70 | every event is encodable when the note is below 128 and the step fits in 31 bits |
| MidiEncoder.MidiLayout | domain/midiEncoder.ts:29-80 | the file is 22 + \|track\| bytes: the fixed header, `MTrk`, the big-endian length, then the track |
| MidiEncoder.TrackLength | domain/midiEncoder.ts:37-70 | the track is 16 + 10 * (\|VLQ(stepTicks)\| + 3) bytes long |
| MidiEncoder.TrackEnds | domain/midiEncoder.ts:39-70 | the track starts with the note-on and CC 74 bytes and ends with the note-off and end-of-track bytes |
| MidiEncoder.NoteByte | domain/midiEncoder.ts:37-80 | note-on and note-off carry the same byte, the note modulo 256, which equals the note exactly when it is in [0, 256) |
| MidiEncoder.ReadHeader | domain/midiEncoder.ts:29-35 | the fixed header reads back as format 0, one track, 480 ticks per quarter note |
| MidiEncoder.MidiRoundTrip | domain/midiEncoder.ts:10-82 | reading the file back gives division 480 and exactly the 14 events, when the note is a MIDI note |
| AudioEngine.CurveXRange | domain/audioEngine.ts:19 | sample i is taken at x in [-1, 1), negative below 22050 and zero exactly at 22050 |
| AudioEngine.CurveX | domain/audioEngine.ts:19 | entry i samples the level x with (x + 1) * 22050 = i, so the 44100 entries span [-1, 1) evenly |
| AudioEngine.ShapedFactors | domain/audioEngine.ts:20 | the curve is x times a positive slope over the positive denominator pi + k\|x\| |
| AudioEngine.ShapedLinearAtZero | domain/audioEngine.ts:20 | with no distortion the curve is the straight line x / 3 |
| AudioEngine.ShapedSign | domain/audioEngine.ts:20 | for a non-negative amount each curve value has the sign of x |
| AudioEngine.ShapedRisingOnPositives | domain/audioEngine.ts:20 | for a non-negative amount the curve rises on [0, infinity) |
| AudioEngine.ShapedOdd | domain/audioEngine.ts:20 | the curve is odd |
| AudioEngine.ShapedBounded | domain/audioEngine.ts:20 | on [-1, 1] every curve value is strictly between -1 and 1 |
| AudioEngine.ShapedMonotone | domain/audioEngine.ts:20 | the curve is non-decreasing in x |
| AudioEngine.CreateDistortionCurve | domain/audioEngine.ts:13-23 | the method fills a fresh array of 44100 entries, entry i being the curve at x = 2i/44100 - 1 |
| AudioEngine.DistortionCurveShape | domain/audioEngine.ts:13-23 | the filled curve is negative before entry 22050, zero at it, inside (-1, 1) and non-decreasing |
| AudioEngine.ImpulseDraws | domain/audioEngine.ts:31 | the inner loop runs ceil(length) times |
| AudioEngine.BelowLength | domain/audioEngine.ts:31 | `j < length` holds exactly for the first ceil(length) indices |
| AudioEngine.ImpulseSample | domain/audioEngine.ts:32 | the first sample of a channel is the draw mapped onto [-1, 1) unfaded, and a draw of 0.5 gives silence |
| AudioEngine.FadedImpulse | domain/audioEngine.ts:32 | every sample is the mapped draw times the fade factor of its index |
| AudioEngine.Fade | domain/audioEngine.ts:32 | the fade factor (1 - j/length)^decay is in [0, 1] |
| AudioEngine.ImpulseBounded | domain/audioEngine.ts:32 | a sample from a draw in [0, 1) is bounded by its fade factor |
| AudioEngine.FadeDecreasing | domain/audioEngine.ts:32 | the fade factor does not grow along the buffer |
| AudioEngine.CreateImpulseResponse | domain/audioEngine.ts:25-36 | the method fills a fresh 2-channel buffer of floor(sampleRate * duration) frames, sample (c, j) coming from draw c * ceil(length) + j |
| AudioEngine.FillChannel | domain/audioEngine.ts:30-33 | one outer turn fills channel c from consecutive draws and leaves the other channel as it was |
| AudioEngine.ImpulseResponseBounded | domain/audioEngine.ts:25-36 | every impulse sample lies within its fade factor, hence within [-1, 1] |
| AudioEngine.NoiseBufferSize | domain/audioEngine.ts:117 | the noise buffer holds ceil(sampleRate * (duration + release)) frames |
| AudioEngine.NoiseSample | domain/audioEngine.ts:121 | `random * 2 - 1` maps [0, 1) onto [-1, 1) and is invertible |
| AudioEngine.FillNoise | domain/audioEngine.ts:117-122 | the method fills a fresh buffer of the given size, sample i from draw offset + i |
| AudioEngine.NoiseBounded | domain/audioEngine.ts:117-122 | every noise sample is in [-1, 1) |
| AudioEngine.DelayTail | domain/audioEngine.ts:43 | the delay tail is non-negative and positive exactly when the delay is on |
| AudioEngine.ReverbTail | domain/audioEngine.ts:44 | the reverb tail is non-negative and positive exactly when the reverb is on |
| AudioEngine.StopTime | domain/audioEngine.ts:148-157 | the source stops at duration + max(0, release), never before duration or duration + release |
| AudioEngine.TotalDuration | domain/audioEngine.ts:43-44 | the render length is at least 0.1 s and at least the note plus both tails, and is one of the two |
| AudioEngine.FrameCount | domain/audioEngine.ts:45-47 | the frame count is ceil(sampleRate * total), at least one frame |
| AudioEngine.RenderCoversNote | domain/audioEngine.ts:43-157 | with a non-negative release the render is long enough to contain the stopped source |
| AudioEngine.FeedbackGain | domain/audioEngine.ts:76 | the feedback gain is min(0.9, delayFeedback) |
| AudioEngine.EchoesDecay | domain/audioEngine.ts:73-79 | the n-th echo is scaled by at most 0.9^n |
| AudioEngine.ReverbWetGain | domain/audioEngine.ts:61 | the reverb wet gain is half the reverb amount, within [0, 0.5] for amounts in [0, 1] |
| AudioEngine.FilterSettings | domain/audioEngine.ts:96-100 | a missing type gives lowpass, a zero frequency gives 2000 and a zero Q gives 1; otherwise the field is kept |
| AudioEngine.FilterSettingsIdempotent | domain/audioEngine.ts:96-100 | applying the defaults to the resolved settings changes nothing |
| AudioEngine.EndFrequency | domain/audioEngine.ts:132 | the end frequency is clamped to at least 0.001 |
| AudioEngine.FrequencySchedule | domain/audioEngine.ts:131-137 | the start frequency is set at 0, then an exponential ramp is scheduled exactly when the jump exceeds 1 Hz, otherwise a step; both target `duration` |
| AudioEngine.FrequencyWellTimed | domain/audioEngine.ts:131-137 | for a non-negative duration the frequency events are in time order within the render |
| AudioEngine.Volume | domain/audioEngine.ts:144 | a nullish volume defaults to 0.5 |
| AudioEngine.Envelope | domain/audioEngine.ts:144-154 | the five breakpoints are (0,0), (attack, vol), (attack+decay, sustain*vol), (duration, sustain*vol), (duration+release, 0), with the phases clamped at zero |
| AudioEngine.EnvelopeWellTimed | domain/audioEngine.ts:144-154 | when attack and decay fit inside the note the breakpoints are in time order |
| AudioEngine.EnvelopeBounded | domain/audioEngine.ts:144-154 | for sustain <= 1 every breakpoint's gain is within [0, vol] |
| AudioEngine.SourceOut | domain/audioEngine.ts:102-106 | the dry output is the shaper exactly when distortion is on, the filter otherwise |
| AudioEngine.Topology | domain/audioEngine.ts:51-140 | the graph always makes at least three connections, master to destination first and source to filter last |
| AudioEngine.TopologySize | domain/audioEngine.ts:51-140 | three connections always, three more for the reverb, five for the delay and one for the waveshaper |
| AudioEngine.TopologyMembers | domain/audioEngine.ts:51-140 | a connection is made exactly when its enable rule holds |
| AudioEngine.DryPath | domain/audioEngine.ts:51-140 | source to filter, filter to shaper to master or filter to master, and master to destination |
| AudioEngine.EffectTaps | domain/audioEngine.ts:56-110 | the dry output feeds the delay iff delayTime > 0 and the convolver iff reverb > 0; the wet gains and the feedback loop exist under the same conditions |
| AudioEngine.OnlyFeedbackLoops | domain/audioEngine.ts:51-140 | every connection but feedback to delay goes forward, so the delay loop is the only cycle |
| AudioEngine.RouteToOutput | domain/audioEngine.ts:51-140 | each node has a route that ends at the destination |
| AudioEngine.ConnectedInGraph | domain/audioEngine.ts:51-140 | both ends of every connection are nodes that exist for these parameters |
| AudioEngine.RouteHops | domain/audioEngine.ts:51-140 | every hop of a node's route is a connection that is made |
| AudioEngine.ReachesOutput | domain/audioEngine.ts:51-140 | every node in the graph reaches the destination |
| AudioEngine.ReverbStage | domain/audioEngine.ts:56-68 | the reverb is created iff reverb > 0, with a fresh impulse response and wet gain reverb/2, wired back into the master |
| AudioEngine.DelayStage | domain/audioEngine.ts:70-86 | the delay is created iff delayTime > 0, with a 1 s maximum, the capped feedback and wet gain 0.3 |
| AudioEngine.ShaperStage | domain/audioEngine.ts:88-94 | the shaper exists iff distortion > 0, with a fresh curve |
| AudioEngine.SourceStage | domain/audioEngine.ts:112-141 | noise gets a fresh buffer from the stream, or raises for fewer than one frame; the oscillator gets its schedule, or raises for a negative duration |
| AudioEngine.GenerateSoundBuffer | domain/audioEngine.ts:38-159 | it fails exactly for an empty noise buffer or a negative duration, with that exception; otherwise the job has one channel, the frame count, the wiring in source order, the filter defaults, each effect iff enabled, the right source and the envelope, playing from 0 to the stop time |
| AppReducer.InitialState | App.tsx:26-34 | the app starts with an empty prompt and history, nothing selected, not generating, not playing, no error |
| AppReducer.Reduce | App.tsx:37-69 | no action touches the custom presets; the history changes only by prepending a generated sound or by deleting an id; only success, select, play and delete change the selection |
| AppReducer.Without | App.tsx:63 | the filter keeps exactly the entries whose id differs and is no longer than the history |
| AppReducer.WithoutAppend | App.tsx:63 | filtering distributes over concatenation |
| AppReducer.WithoutIdempotent | App.tsx:63 | filtering twice by one id is filtering once |
| AppReducer.WithoutAbsent | App.tsx:63 | a history without the id is left as it is |
| AppReducer.WithoutCount | App.tsx:63 | the filter drops exactly the entries carrying the id |
| AppReducer.Matching | App.tsx:63 | the count of entries carrying an id is zero exactly when none does |
| AppReducer.GenerationSuccessPrepends | App.tsx:43-49 | success puts the sound at the head of the history, keeps the rest in order, selects it and clears generating |
| AppReducer.DeleteSoundEffect | App.tsx:60-65 | deletion removes every entry with the id, keeps the others, and clears the selection iff it was the deleted id |
| AppReducer.DeleteUndoesGeneration | App.tsx:43-65 | deleting a freshly generated sound whose id was new restores the history and leaves nothing selected |
| AppReducer.FlagIntents | App.tsx:41-57 | generate, failure, select, play and stop set and clear the flags, selection and error as written |
| AppReducer.NothingElseChanges | App.tsx:37-68 | every action leaves the fields it does not name unchanged, and none touches the custom presets |
| AppReducer.UnhandledIntents | App.tsx:66-67 | load-preset and the custom-preset actions return the state unchanged |
| AppReducer.IdempotentIntents | App.tsx:37-68 | applying any action but a successful generation twice equals applying it once |
| AppReducer.SuccessNotIdempotent | App.tsx:47 | a repeated success adds the sound to the history twice |
| UseCases.UpperChar | domain/useCases.ts:29 | the model's ASCII-only upper-casing of one character: a-z go to A-Z, every other character is kept (JavaScript also maps non-ASCII letters, see "## Left out") |
| UseCases.Upper | domain/useCases.ts:29 | the model's ASCII-only upper-casing keeps the length and maps each character by `UpperChar`; this matches `toUpperCase` on strings where a-z are the only characters it changes |
| UseCases.UpperIdempotent | domain/useCases.ts:29 | an upper-cased string has no lower-case letters and upper-casing it again changes nothing |
| UseCases.Take | domain/useCases.ts:29 | `slice(0, n)` is a prefix of length min(n, \|s\|), counted in characters (code units inside the Basic Multilingual Plane, see `UseCases.TakeInBmp`) |
| UseCases.Utf16Length | domain/useCases.ts:29 | JavaScript's length counts a character outside the Basic Multilingual Plane twice, so it is never below the character count |
| UseCases.BmpLength | domain/useCases.ts:29 | inside the Basic Multilingual Plane the UTF-16 length is the character count |
| UseCases.TakeInBmp | domain/useCases.ts:29 | inside the Basic Multilingual Plane `Take` keeps exactly the min(n, length) code units `slice(0, n)` keeps |
| UseCases.UpperInBmp | domain/useCases.ts:29 | the model's ASCII-only upper-casing keeps a string inside the Basic Multilingual Plane and keeps its UTF-16 length |
| UseCases.Last | domain/useCases.ts:51 | `slice(-n)` is the suffix of length min(n, \|s\|) |
| UseCases.DecimalIsDigits | domain/useCases.ts:51 | `toString()` of a non-negative integer is all digits |
| UseCases.DecimalRoundTrip | domain/useCases.ts:51 | reading the digits back gives the number |
| UseCases.DecimalLength | domain/useCases.ts:51 | a number below 10^k has at most k digits, one from 10^(k-1) up has at least k |
| UseCases.LowDigitsMod | domain/useCases.ts:51 | the value of the last k digits is n mod 10^k |
| UseCases.LastOfDigits | domain/useCases.ts:51 | the last k characters of any digit string spell the low k digits of its value |
| UseCases.LastDigitsValue | domain/useCases.ts:51 | the last k characters of the decimal string spell the last k digits |
| UseCases.GeneratedName | domain/useCases.ts:29 | the generated name has 1 to 20 characters and, for a non-empty prompt, is a prefix of the upper-cased prompt |
| UseCases.GeneratedNameShape | domain/useCases.ts:29 | an empty prompt gives `GEN_CORE`; otherwise the name is the upper-cased prompt cut to 20 characters (20 code units inside the Basic Multilingual Plane) |
| UseCases.WaveformCode | domain/useCases.ts:51 | the waveform code has three characters |
| UseCases.WaveformCodes | domain/useCases.ts:51 | the codes are SIN, SQU, SAW, TRI and NOI |
| UseCases.PatchName | domain/useCases.ts:51 | the name is `PATCH_`, the code, `_` and the digits, each readable back at a fixed position |
| UseCases.ManualName | domain/useCases.ts:51 | the manual name is 11 to 14 characters long |
| UseCases.ManualNameShape | domain/useCases.ts:51 | the manual name is `PATCH_`, the code, `_`, and digits whose value is the clock modulo 10000, fourteen characters once the clock reaches 1000 |
| UseCases.LastFourDigits | domain/useCases.ts:51 | the clock's last four characters are digits spelling the clock modulo 10000 |
| UseCases.GenerateSound | domain/useCases.ts:12-36 | the sound has the given id and time, the generated name, the prompt as description and the repository's params, which were asked for first |
| UseCases.RenderRecord | domain/useCases.ts:45-57 | render, export and URL steps build a record with the given id, name, description, params and time |
| UseCases.CompileManualSound | domain/useCases.ts:41-58 | the manual sound has the manual name, description `MANUAL_PATCH` and the input params |
| UseCases.LoadPreset | domain/useCases.ts:63-80 | the loaded sound has the upper-cased preset name, its description and its params |
| UseCases.PresetName | domain/useCases.ts:91 | an empty custom name falls back to the sound's name; otherwise the name has the custom name's length and no lower-case letter |
| UseCases.PresetDescription | domain/useCases.ts:92 | the description is `USR_PATCH_FROM_` followed by a prefix of the id of at most four characters |
| UseCases.CreateUserPreset | domain/useCases.ts:85-95 | the preset's name is the upper-cased custom name, or the sound's name when empty; its description is `USR_PATCH_FROM_` plus the first four characters of the sound's id; its params are the sound's |
| UseCases.GenerateSoundRendersOnce | domain/useCases.ts:18-25 | the params are rendered once, that buffer is exported, and the record carries the buffer and the URL of that export |
| UseCases.RenderRecordRendersOnce | domain/useCases.ts:45-47 | the shared steps render once and export that same buffer |
| UseCases.CompileManualSoundRendersOnce | domain/useCases.ts:45-47 | the manual use case renders once and exports that buffer |
| UseCases.LoadPresetRendersOnce | domain/useCases.ts:67-69 | the preset use case renders once and exports that buffer |

`AudioEngine.Shaped` is the curve formula of domain/audioEngine.ts:20. It has no contract of its own; its properties are the rows from `AudioEngine.ShapedFactors` to `AudioEngine.ShapedMonotone`.

## Left out

- Web Audio's own processing is not modelled: biquad filtering, wave shaping with 4x oversampling, convolution, the delay line and `startRendering`. These are foreign, float-based library code. The model stops at the job handed to them.
- `getAudioContext` and `playBuffer` are not modelled. They are a global singleton and real-time playback. The context's sample rate is a parameter.
- Float32 storage, float64 rounding, NaN and Infinity are not modelled. Numbers are exact reals.
- `Math.random` is the sequence `random`. Its draws are read in order: first the impulse response, then the noise fill.
- `Math.log2` is a parameter. Only `log2(1) == 0` is assumed, where a lemma needs it.
- UseCases.UpperChar: models `toUpperCase` for the ASCII letters a-z only. JavaScript also upper-cases other letters (`é` becomes `É`); the model keeps them.
- UseCases.Upper: keeps the length, which JavaScript's full Unicode case mapping does not (`ß` becomes `SS`). The two agree on strings where a-z are the only characters `toUpperCase` changes.
- UseCases.UpperInBmp: is proved of the ASCII-only `Upper`. JavaScript's `toUpperCase` can lengthen a string inside the Basic Multilingual Plane (`straße` becomes `STRASSE`).
- `wavEncoder` and `URL.createObjectURL` are not part of this model. They are the opaque parameters `exportWav` and `objectUrl`. A rejected repository promise is not modelled.
- `crypto.randomUUID` and `Date.now` are parameters. `compileManualSoundUseCase` reads the clock twice, so the name time and the timestamp are two parameters.
- `endMidiNote` and `semitoneDiff` (domain/midiEncoder.ts:18, 22) are computed by the source but never used. They are not modelled.
- The `initialState` literal (App.tsx:26-34) omits `customPresets`. `AppReducer.InitialState` sets it to the empty list.
- App.tsx event handlers, effects, refs, animation frames and JSX are not modelled. They are asynchronous UI code.
- Web Audio clamps a `delayTime` above the 1 s maximum. `AudioEngine.DelayStage` records the requested value and the maximum, and does not apply the clamp.
- `AudioEngine.CreateImpulseResponse`: the buffer length `sampleRate * 2.5` is truncated to whole frames, as WebIDL's `unsigned long` conversion does. A length below one frame, which would raise, is excluded by its precondition.
- `AudioEngine.GenerateSoundBuffer` requires a positive sample rate and enough draws in `random`. Both are assumptions on the environment, not demands of the source.
- `AudioEngine.SourceStage` reports every noise buffer below one frame as `BufferSizeNotSupported`. WebIDL converts a negative size modulo 2^32 first, so the browser's exact exception for a negative size is not modelled.
- `MidiEncoder.MidiRoundTrip` requires the start note to be in [0, 128) and the step to fit in 31 bits. The source clamps neither. `MidiEncoder.NoteByte` states what is written when the note is out of range.
- `VariableLength.EncodeVariableLength` is proved equal to the minimal encoding only for 0 <= value < 2^31. Outside that range it follows the source's int32 arithmetic and is proved well formed, with at most five bytes.
- `AudioEngine.EnvelopeWellTimed` requires attack + decay <= duration. The source does not enforce this order, and Web Audio then applies the events as scheduled.
- `AudioEngine.FrequencyWellTimed` requires a non-negative duration. For a negative one, `GenerateSoundBuffer` returns the exception instead.
- UseCases.Take: lengths are counted in Unicode characters, not UTF-16 code units. Inside the Basic Multilingual Plane the two agree (`UseCases.TakeInBmp`). Outside it, JavaScript's `slice` counts a surrogate pair as two units and can cut it in half, leaving a lone surrogate that a Dafny string cannot hold.
- UseCases.GeneratedNameShape: the 20-character cut is proved in characters, on the ASCII-only `Upper`. It matches `toUpperCase().slice(0, 20)` for prompts inside the Basic Multilingual Plane in which a-z are the only characters `toUpperCase` changes (`UseCases.TakeInBmp`, `UseCases.UpperInBmp`). It does not match for prompts holding surrogate pairs, nor for prompts with other cased letters (`straße`).
- UseCases.GeneratedName: the bound of 20 is in characters, for the same reason.
- UseCases.PresetDescription: the four-character prefix of the id is counted in characters. The ids come from `crypto.randomUUID`, which is ASCII, so characters and code units agree there.
