/** Record types shared by the gesture-to-note pipeline of the air guitar:
    landmarks, zone bounds, tuning tables and the persistent configuration. */
module Types {

  /** Some/None, used for "possibly undefined" values of the source. */
  datatype Option<+T> = None | Some(value: T)

  /** A hand landmark in normalised camera coordinates. `x` and `y` lie in
      [0,1] for points on screen; `z` is a depth proxy, more negative meaning
      nearer to the camera. */
  datatype Landmark = Landmark(x: real, y: real, z: real)

  /** The play zone, a rectangle in normalised camera coordinates. */
  datatype ZoneBounds = ZoneBounds(left: real, right: real, top: real, bottom: real)

  /** Interaction mode: vertical "normal" or horizontal "pro". */
  datatype Mode = Normal | Pro

  datatype GuitarType = Acoustic | Electric | Classical | Bass

  /** Which default tuning table a guitar type uses. */
  datatype TuningType = StandardTuning | BassTuning

  /** One open string: its note name (pitch then octave digit) and frequency. */
  datatype TuningNote = TuningNote(note: string, freq: real)

  datatype TuningTables = TuningTables(standard: seq<TuningNote>, bass: seq<TuningNote>)
  {
    /** The table selected by a tuning type (`tuning[gc.tuning]`). */
    function Get(t: TuningType): seq<TuningNote>
    {
      match t
      case StandardTuning => standard
      case BassTuning => bass
    }
  }

  datatype OscillatorType = Triangle | Sawtooth | Sine

  datatype Envelope = Envelope(attack: real, decay: real, sustain: real, release: real)

  /** Per guitar type: synth settings, string count and tuning table. */
  datatype GuitarTypeConfig = GuitarTypeConfig(
    oscillator: OscillatorType,
    envelope: Envelope,
    filterFreq: real,
    strings: int,
    tuning: TuningType)

  /** The persistent application configuration. */
  datatype Config = Config(
    mode: Mode,
    guitarType: GuitarType,
    strings: int,
    frets: int,
    zoneSize: real,
    zoneXOffset: real,
    zoneYOffset: real,
    stringDetectionWidth: real,
    strumSensitivity: real,
    volume: real,
    reverb: real,
    distortion: bool,
    sustain: bool,
    mirrorCamera: bool,
    showGhostHands: bool,
    showDebug: bool,
    showTuner: bool,
    stringColors: seq<int>,
    tuning: TuningTables)
}
