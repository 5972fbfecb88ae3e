/** The domain entities of the sound generator (types.ts). */
module Types {
  import opened Wrappers

  /** One element of a `Uint8Array`: the byte arrays this project builds and reads. */
  type Byte = b: int | 0 <= b < 256

  /** The five oscillator/noise sources the generator knows. */
  datatype WaveformType = Sine | Square | Sawtooth | Triangle | Noise

  /** The string tag each waveform carries in the parameter record. */
  function WaveformTag(w: WaveformType): (r: string)
    ensures |r| >= 4
  {
    match w
    case Sine => "sine"
    case Square => "square"
    case Sawtooth => "sawtooth"
    case Triangle => "triangle"
    case Noise => "noise"
  }

  datatype FilterType = Lowpass | Highpass | Bandpass | Allpass

  /** The synthesis parameter record. JavaScript numbers are modelled as
      exact reals. `volume` may be nullish and `filterType` falsy (both
      have run-time fallbacks in the audio engine), so both are optional. */
  datatype SynthParams = SynthParams(
    waveform: WaveformType,
    frequencyStart: real,
    frequencyEnd: real,
    duration: real,
    attack: real,
    decay: real,
    sustain: real,
    release: real,
    volume: Option<real>,
    filterType: Option<FilterType>,
    filterFreq: real,
    qFactor: real,
    distortion: real,
    delayTime: real,
    delayFeedback: real,
    reverb: real
  )

  /** A rendered buffer, seen from outside the audio engine: an opaque handle. */
  datatype AudioBuffer = AudioBuffer(handle: nat)

  /** A generated or compiled sound kept in the history. */
  datatype SoundEntity = SoundEntity(
    id: string,
    name: string,
    description: string,
    params: SynthParams,
    timestamp: int,
    audioBuffer: Option<AudioBuffer>,
    blobUrl: Option<string>
  )

  /** A named parameter set the user can load or save. */
  datatype SoundPreset = SoundPreset(
    id: string,
    name: string,
    description: string,
    params: SynthParams
  )
}
