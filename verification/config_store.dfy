/** The configuration store: the current configuration, the current tuning
    and the operations the settings UI calls on them. */
module ConfigStore {
  import opened Types
  import opened Defaults
  import opened Zone
  import opened NoteNames

  /** The state the store holds: the configuration and the tuning in use. */
  datatype Store = Store(config: Config, currentTuning: seq<TuningNote>)

  /** The keys of `Config`, one per field. */
  datatype ConfigKey =
    | ModeKey | GuitarTypeKey | StringsKey | FretsKey
    | ZoneSizeKey | ZoneXOffsetKey | ZoneYOffsetKey
    | StringDetectionWidthKey | StrumSensitivityKey
    | VolumeKey | ReverbKey | DistortionKey | SustainKey
    | MirrorCameraKey | ShowGhostHandsKey | ShowDebugKey | ShowTunerKey
    | StringColorsKey | TuningKey

  /** A value of some field of `Config`. */
  datatype ConfigValue =
    | ModeValue(m: Mode)
    | GuitarTypeValue(g: GuitarType)
    | IntValue(n: int)
    | RealValue(x: real)
    | BoolValue(b: bool)
    | ColorsValue(colors: seq<int>)
    | TablesValue(tables: TuningTables)

  /** The value has the type of field `k` (the `Config[K]` of the source). */
  predicate Fits(k: ConfigKey, v: ConfigValue)
  {
    match k
    case ModeKey => v.ModeValue?
    case GuitarTypeKey => v.GuitarTypeValue?
    case StringsKey | FretsKey => v.IntValue?
    case ZoneSizeKey | ZoneXOffsetKey | ZoneYOffsetKey
       | StringDetectionWidthKey | StrumSensitivityKey | VolumeKey | ReverbKey => v.RealValue?
    case DistortionKey | SustainKey | MirrorCameraKey
       | ShowGhostHandsKey | ShowDebugKey | ShowTunerKey => v.BoolValue?
    case StringColorsKey => v.ColorsValue?
    case TuningKey => v.TablesValue?
  }

  /** Reads field `k` of a configuration. */
  function Field(c: Config, k: ConfigKey): (v: ConfigValue)
    ensures Fits(k, v)
  {
    match k
    case ModeKey => ModeValue(c.mode)
    case GuitarTypeKey => GuitarTypeValue(c.guitarType)
    case StringsKey => IntValue(c.strings)
    case FretsKey => IntValue(c.frets)
    case ZoneSizeKey => RealValue(c.zoneSize)
    case ZoneXOffsetKey => RealValue(c.zoneXOffset)
    case ZoneYOffsetKey => RealValue(c.zoneYOffset)
    case StringDetectionWidthKey => RealValue(c.stringDetectionWidth)
    case StrumSensitivityKey => RealValue(c.strumSensitivity)
    case VolumeKey => RealValue(c.volume)
    case ReverbKey => RealValue(c.reverb)
    case DistortionKey => BoolValue(c.distortion)
    case SustainKey => BoolValue(c.sustain)
    case MirrorCameraKey => BoolValue(c.mirrorCamera)
    case ShowGhostHandsKey => BoolValue(c.showGhostHands)
    case ShowDebugKey => BoolValue(c.showDebug)
    case ShowTunerKey => BoolValue(c.showTuner)
    case StringColorsKey => ColorsValue(c.stringColors)
    case TuningKey => TablesValue(c.tuning)
  }

  /** Two configurations that agree on every key are the same configuration,
      so "field `k` is `v` and every other field is as before" pins a
      configuration down completely. */
  lemma FieldsDetermine(a: Config, b: Config)
    requires forall k :: Field(a, k) == Field(b, k)
    ensures a == b
  {
    assert Field(a, ModeKey) == Field(b, ModeKey);
    assert Field(a, GuitarTypeKey) == Field(b, GuitarTypeKey);
    assert Field(a, StringsKey) == Field(b, StringsKey);
    assert Field(a, FretsKey) == Field(b, FretsKey);
    assert Field(a, ZoneSizeKey) == Field(b, ZoneSizeKey);
    assert Field(a, ZoneXOffsetKey) == Field(b, ZoneXOffsetKey);
    assert Field(a, ZoneYOffsetKey) == Field(b, ZoneYOffsetKey);
    assert Field(a, StringDetectionWidthKey) == Field(b, StringDetectionWidthKey);
    assert Field(a, StrumSensitivityKey) == Field(b, StrumSensitivityKey);
    assert Field(a, VolumeKey) == Field(b, VolumeKey);
    assert Field(a, ReverbKey) == Field(b, ReverbKey);
    assert Field(a, DistortionKey) == Field(b, DistortionKey);
    assert Field(a, SustainKey) == Field(b, SustainKey);
    assert Field(a, MirrorCameraKey) == Field(b, MirrorCameraKey);
    assert Field(a, ShowGhostHandsKey) == Field(b, ShowGhostHandsKey);
    assert Field(a, ShowDebugKey) == Field(b, ShowDebugKey);
    assert Field(a, ShowTunerKey) == Field(b, ShowTunerKey);
    assert Field(a, StringColorsKey) == Field(b, StringColorsKey);
    assert Field(a, TuningKey) == Field(b, TuningKey);
  }

  /** `{ ...prev, [key]: value }`: the configuration with field `k` replaced. */
  function WithField(c: Config, k: ConfigKey, v: ConfigValue): (r: Config)
    requires Fits(k, v)
    ensures Field(r, k) == v
    ensures forall k' :: k' != k ==> Field(r, k') == Field(c, k')
  {
    match k
    case ModeKey => c.(mode := v.m)
    case GuitarTypeKey => c.(guitarType := v.g)
    case StringsKey => c.(strings := v.n)
    case FretsKey => c.(frets := v.n)
    case ZoneSizeKey => c.(zoneSize := v.x)
    case ZoneXOffsetKey => c.(zoneXOffset := v.x)
    case ZoneYOffsetKey => c.(zoneYOffset := v.x)
    case StringDetectionWidthKey => c.(stringDetectionWidth := v.x)
    case StrumSensitivityKey => c.(strumSensitivity := v.x)
    case VolumeKey => c.(volume := v.x)
    case ReverbKey => c.(reverb := v.x)
    case DistortionKey => c.(distortion := v.b)
    case SustainKey => c.(sustain := v.b)
    case MirrorCameraKey => c.(mirrorCamera := v.b)
    case ShowGhostHandsKey => c.(showGhostHands := v.b)
    case ShowDebugKey => c.(showDebug := v.b)
    case ShowTunerKey => c.(showTuner := v.b)
    case StringColorsKey => c.(stringColors := v.colors)
    case TuningKey => c.(tuning := v.tables)
  }

  /** Replacing a field with the value it already holds changes nothing. */
  lemma WithOwnField(c: Config, k: ConfigKey)
    ensures WithField(c, k, Field(c, k)) == c
  {
    FieldsDetermine(WithField(c, k, Field(c, k)), c);
  }

  /** The default tuning table a guitar type names (`DEFAULT_CONFIG.tuning[gc.tuning]`). */
  function DefaultTuningFor(g: GuitarType): (t: seq<TuningNote>)
    ensures |t| == GuitarTypes(g).strings
    ensures forall i :: 0 <= i < |t| ==> WellFormedNote(NOTES, t[i].note)
  {
    GuitarTypeTuningLengths(g);
    StandardTuningRises();
    BassTuningRises();
    DEFAULT_CONFIG.tuning.Get(GuitarTypes(g).tuning)
  }

  /** The store as the hook creates it: the default configuration and a
      copy of the standard tuning. */
  function Init(): (s: Store)
    ensures s.config == DEFAULT_CONFIG
    ensures TuningMatchesType(s)
  {
    Store(DEFAULT_CONFIG, DEFAULT_CONFIG.tuning.standard)
  }

  /** The current tuning has the note names of the default table of the
      current guitar type (frequencies may have been retuned). */
  predicate TuningMatchesType(s: Store)
  {
    var t := DefaultTuningFor(s.config.guitarType);
    |s.currentTuning| == |t| && forall i :: 0 <= i < |t| ==> s.currentTuning[i].note == t[i].note
  }

  /** Every note of the current tuning parses in the note lookup. */
  predicate NotesWellFormed(s: Store)
  {
    forall i :: 0 <= i < |s.currentTuning| ==> WellFormedNote(NOTES, s.currentTuning[i].note)
  }

  /** `updateConfig(key, value)`: replaces one field of the configuration. */
  function UpdateConfig(s: Store, k: ConfigKey, v: ConfigValue): (r: Store)
    requires Fits(k, v)
    ensures Field(r.config, k) == v
    ensures forall k' :: k' != k ==> Field(r.config, k') == Field(s.config, k')
    ensures r.currentTuning == s.currentTuning
  {
    s.(config := WithField(s.config, k, v))
  }

  /** `setMode(mode)`: sets the mode and nothing else. */
  function SetMode(s: Store, m: Mode): (r: Store)
    ensures r.config.mode == m
    ensures forall k :: k != ModeKey ==> Field(r.config, k) == Field(s.config, k)
    ensures r.currentTuning == s.currentTuning
  {
    UpdateConfig(s, ModeKey, ModeValue(m))
  }

  /** `setGuitarType(t)`: sets the guitar type and replaces the tuning with
      a fresh copy of the default table that type names. The `strings`
      field is not touched (the string count in use comes from the type). */
  function SetGuitarType(s: Store, g: GuitarType): (r: Store)
    ensures r.config.guitarType == g
    ensures forall k :: k != GuitarTypeKey ==> Field(r.config, k) == Field(s.config, k)
    ensures |r.currentTuning| == GuitarTypes(g).strings
    ensures TuningMatchesType(r) && NotesWellFormed(r)
    ensures forall i :: 0 <= i < |r.currentTuning| ==> r.currentTuning[i].freq == DefaultTuningFor(g)[i].freq
  {
    Store(WithField(s.config, GuitarTypeKey, GuitarTypeValue(g)), DefaultTuningFor(g))
  }

  /** `updateTuning(index, freq)`: retunes one string, keeping its note name. */
  function UpdateTuning(s: Store, index: int, freq: real): (r: Store)
    requires 0 <= index < |s.currentTuning|
    ensures r.config == s.config
    ensures |r.currentTuning| == |s.currentTuning|
    ensures r.currentTuning[index].freq == freq
    ensures r.currentTuning[index].note == s.currentTuning[index].note
    ensures forall j :: 0 <= j < |s.currentTuning| && j != index ==> r.currentTuning[j] == s.currentTuning[j]
  {
    s.(currentTuning := s.currentTuning[index := s.currentTuning[index].(freq := freq)])
  }

  /** `resetDefaults()`: back to the default configuration and the tuning
      its guitar type names. */
  function ResetDefaults(s: Store): (r: Store)
    ensures r.config == DEFAULT_CONFIG
    ensures r.currentTuning == DefaultTuningFor(DEFAULT_CONFIG.guitarType)
  {
    Store(DEFAULT_CONFIG, DEFAULT_CONFIG.tuning.Get(GuitarTypes(DEFAULT_CONFIG.guitarType).tuning))
  }

  /** Resetting forgets everything: it gives the initial store, whatever came before. */
  lemma ResetIsInit(s: Store)
    ensures ResetDefaults(s) == Init()
  {
  }

  /** `getZoneBounds()`: a square-sided zone of `zoneSize`, centred
      horizontally on `0.5 + zoneXOffset`, with its top at `zoneYOffset`. */
  function GetZoneBounds(c: Config): (b: ZoneBounds)
    ensures b.right - b.left == c.zoneSize && b.bottom - b.top == c.zoneSize
    ensures (b.left + b.right) / 2.0 == 0.5 + c.zoneXOffset
    ensures b.top == c.zoneYOffset
    ensures c.zoneSize > 0.0 ==> Valid(b)
    ensures c.zoneSize != 0.0 <==> NonDegenerate(b)
  {
    var margin := (1.0 - c.zoneSize) / 2.0;
    ZoneBounds(margin + c.zoneXOffset, 1.0 - margin + c.zoneXOffset, c.zoneYOffset, c.zoneYOffset + c.zoneSize)
  }

  /** The zone depends only on size and offsets: the three numbers pin it down. */
  lemma ZoneBoundsDetermined(c1: Config, c2: Config)
    requires GetZoneBounds(c1) == GetZoneBounds(c2)
    ensures c1.zoneSize == c2.zoneSize && c1.zoneXOffset == c2.zoneXOffset && c1.zoneYOffset == c2.zoneYOffset
  {
    var b := GetZoneBounds(c1);
    assert c1.zoneSize == b.bottom - b.top == c2.zoneSize;
  }

  /** With the default configuration the zone is [0.15, 0.85] x [0.10, 0.80]. */
  lemma DefaultZone()
    ensures GetZoneBounds(DEFAULT_CONFIG) == ZoneBounds(0.15, 0.85, 0.10, 0.80)
  {
  }

  /** The operations the settings UI can perform on the store. */
  datatype Action =
    | UpdateConfigAction(key: ConfigKey, value: ConfigValue)
    | SetModeAction(mode: Mode)
    | SetGuitarTypeAction(guitarType: GuitarType)
    | UpdateTuningAction(index: int, freq: real)
    | ResetDefaultsAction

  /** The action is within what the source handles: a value of the key's
      type, and a tuning index inside the current table. */
  predicate Applicable(s: Store, a: Action)
  {
    match a
    case UpdateConfigAction(k, v) => Fits(k, v)
    case UpdateTuningAction(i, _) => 0 <= i < |s.currentTuning|
    case _ => true
  }

  function Apply(s: Store, a: Action): (r: Store)
    requires Applicable(s, a)
    ensures |r.currentTuning| == |s.currentTuning| || a.SetGuitarTypeAction? || a.ResetDefaultsAction?
  {
    match a
    case UpdateConfigAction(k, v) => UpdateConfig(s, k, v)
    case SetModeAction(m) => SetMode(s, m)
    case SetGuitarTypeAction(g) => SetGuitarType(s, g)
    case UpdateTuningAction(i, f) => UpdateTuning(s, i, f)
    case ResetDefaultsAction => ResetDefaults(s)
  }

  /** Every action keeps the tuning parseable by the note lookup. */
  lemma ApplyKeepsNotesWellFormed(s: Store, a: Action)
    requires Applicable(s, a) && NotesWellFormed(s)
    ensures NotesWellFormed(Apply(s, a))
  {
    var r := Apply(s, a);
    match a
    case UpdateTuningAction(i, f) =>
      assert forall j :: 0 <= j < |r.currentTuning| ==> r.currentTuning[j].note == s.currentTuning[j].note;
    case ResetDefaultsAction =>
      assert r.currentTuning == DefaultTuningFor(Acoustic);
    case _ =>
  }

  /** The tuning's note names follow the guitar type under every action
      except a raw `updateConfig` of the guitar type, which leaves the
      tuning of the previous type in place. */
  lemma ApplyKeepsTuningMatchesType(s: Store, a: Action)
    requires Applicable(s, a) && TuningMatchesType(s)
    requires !(a.UpdateConfigAction? && a.key == GuitarTypeKey)
    ensures TuningMatchesType(Apply(s, a))
  {
    var r := Apply(s, a);
    match a
    case UpdateConfigAction(k, v) =>
      assert Field(r.config, GuitarTypeKey) == Field(s.config, GuitarTypeKey);
    case SetModeAction(m) =>
      assert Field(r.config, GuitarTypeKey) == Field(s.config, GuitarTypeKey);
    case UpdateTuningAction(i, f) =>
      assert forall j :: 0 <= j < |r.currentTuning| ==> r.currentTuning[j].note == s.currentTuning[j].note;
    case _ =>
  }

  /** The counterexample to dropping that exception: switching to the bass
      through `updateConfig` keeps six strings where the type names four. */
  lemma RawGuitarTypeUpdateBreaksMatch()
    ensures !TuningMatchesType(UpdateConfig(Init(), GuitarTypeKey, GuitarTypeValue(Bass)))
  {
    var r := UpdateConfig(Init(), GuitarTypeKey, GuitarTypeValue(Bass));
    assert Field(r.config, GuitarTypeKey) == GuitarTypeValue(Bass);
    assert |r.currentTuning| == 6 && |DefaultTuningFor(Bass)| == 4;
  }

  function ApplyAll(s: Store, actions: seq<Action>): Store
    decreases |actions|
  {
    if |actions| == 0 || !Applicable(s, actions[0]) then s
    else ApplyAll(Apply(s, actions[0]), actions[1..])
  }

  /** Starting from the initial store, no sequence of actions makes a
      tuning note unparseable (the run stops at the first inapplicable
      action). */
  lemma {:induction false} ApplyAllKeepsNotesWellFormed(s: Store, actions: seq<Action>)
    requires NotesWellFormed(s)
    ensures NotesWellFormed(ApplyAll(s, actions))
    decreases |actions|
  {
    if |actions| > 0 && Applicable(s, actions[0]) {
      ApplyKeepsNotesWellFormed(s, actions[0]);
      ApplyAllKeepsNotesWellFormed(Apply(s, actions[0]), actions[1..]);
    }
  }

  lemma InitNotesWellFormed()
    ensures NotesWellFormed(Init())
  {
    assert Init().currentTuning == DefaultTuningFor(Acoustic);
  }
}
