/** The constant tables of the application: default configuration, guitar
    types, the twelve pitch names and the hand-landmark index tables. */
module Defaults {
  import opened Types

  /** Standard six-string tuning, index 0 = low E (thickest string). */
  const STANDARD_TUNING: seq<TuningNote> := [
    TuningNote("E2", 82.41),
    TuningNote("A2", 110.00),
    TuningNote("D3", 146.83),
    TuningNote("G3", 196.00),
    TuningNote("B3", 246.94),
    TuningNote("E4", 329.63)
  ]

  /** Four-string bass tuning, one octave below the lowest guitar strings. */
  const BASS_TUNING: seq<TuningNote> := [
    TuningNote("E1", 41.20),
    TuningNote("A1", 55.00),
    TuningNote("D2", 73.42),
    TuningNote("G2", 98.00)
  ]

  const DEFAULT_CONFIG: Config := Config(
    mode := Normal,
    guitarType := Acoustic,
    strings := 6,
    frets := 12,
    zoneSize := 0.70,
    zoneXOffset := 0.00,
    zoneYOffset := 0.10,
    stringDetectionWidth := 0.14,
    strumSensitivity := 0.012,
    volume := 0.8,
    reverb := 0.25,
    distortion := false,
    sustain := true,
    mirrorCamera := true,
    showGhostHands := true,
    showDebug := true,
    showTuner := false,
    stringColors := [0xaa00ff, 0x00ffff, 0x00ff88, 0xffff00, 0xff6600, 0xff0066],
    tuning := TuningTables(STANDARD_TUNING, BASS_TUNING))

  /** The per-type table `GUITAR_TYPES`. */
  function GuitarTypes(g: GuitarType): GuitarTypeConfig
  {
    match g
    case Acoustic =>
      GuitarTypeConfig(Triangle, Envelope(0.005, 0.4, 0.3, 1.5), 2000.0, 6, StandardTuning)
    case Electric =>
      GuitarTypeConfig(Sawtooth, Envelope(0.001, 0.2, 0.5, 0.8), 4000.0, 6, StandardTuning)
    case Classical =>
      GuitarTypeConfig(Sine, Envelope(0.01, 0.5, 0.4, 2.0), 1500.0, 6, StandardTuning)
    case Bass =>
      GuitarTypeConfig(Triangle, Envelope(0.01, 0.3, 0.6, 1.0), 800.0, 4, BassTuning)
  }

  /** The twelve pitch names of the chromatic scale, from C. */
  const NOTES: seq<string> := ["C", "C#", "D", "D#", "E", "F", "F#", "G", "G#", "A", "A#", "B"]

  /** Landmark indices of the five fingertips, thumb first. */
  const FINGER_TIPS: seq<int> := [4, 8, 12, 16, 20]

  /** Number of landmarks the estimator reports per hand. */
  const LANDMARK_COUNT: nat := 21

  /** Bones of the hand skeleton as pairs of landmark indices. */
  const HAND_CONNECTIONS: seq<(int, int)> := [
    (0, 1), (1, 2), (2, 3), (3, 4),
    (0, 5), (5, 6), (6, 7), (7, 8),
    (5, 9), (9, 10), (10, 11), (11, 12),
    (9, 13), (13, 14), (14, 15), (15, 16),
    (13, 17), (17, 18), (18, 19), (19, 20),
    (0, 17)
  ]

  /** `NOTES` names twelve distinct pitches. */
  lemma NotesDistinct()
    ensures |NOTES| == 12
    ensures forall i, j :: 0 <= i < j < |NOTES| ==> NOTES[i] != NOTES[j]
  {
  }

  /** The fingertip table holds five distinct landmark indices, thumb (4)
      first, so dropping the thumb leaves the four fretting fingertips. */
  lemma FingerTipsShape()
    ensures |FINGER_TIPS| == 5 && FINGER_TIPS[0] == 4
    ensures FINGER_TIPS[1..] == [8, 12, 16, 20]
    ensures forall i :: 0 <= i < |FINGER_TIPS| ==> 0 <= FINGER_TIPS[i] < LANDMARK_COUNT
    ensures forall i, j :: 0 <= i < j < |FINGER_TIPS| ==> FINGER_TIPS[i] != FINGER_TIPS[j]
  {
  }

  /** Every bone joins two landmarks that exist. */
  lemma HandConnectionsInRange()
    ensures forall k :: 0 <= k < |HAND_CONNECTIONS| ==>
      0 <= HAND_CONNECTIONS[k].0 < LANDMARK_COUNT && 0 <= HAND_CONNECTIONS[k].1 < LANDMARK_COUNT
  {
  }

  /** Each guitar type's tuning table has one entry per string. */
  lemma GuitarTypeTuningLengths(g: GuitarType)
    ensures |DEFAULT_CONFIG.tuning.Get(GuitarTypes(g).tuning)| == GuitarTypes(g).strings
    ensures GuitarTypes(g).strings == (if g == Bass then 4 else 6)
  {
  }

  /** The default configuration is self-consistent: one colour per string,
      a non-empty zone and positive detection thresholds. */
  lemma DefaultConfigSane()
    ensures DEFAULT_CONFIG.strings == |DEFAULT_CONFIG.stringColors| == 6
    ensures DEFAULT_CONFIG.strings == GuitarTypes(DEFAULT_CONFIG.guitarType).strings
    ensures DEFAULT_CONFIG.zoneSize > 0.0
    ensures DEFAULT_CONFIG.stringDetectionWidth > 0.0 && DEFAULT_CONFIG.strumSensitivity > 0.0
  {
  }
}
