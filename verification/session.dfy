/** The application around the frame pipeline: the configuration store the
    settings UI edits, the audio start, and the hand-results callback
    registered with the tracker. */
module Session {
  import opened Types
  import opened Defaults
  import opened NoteNames
  import opened ConfigStore
  import opened Strumming
  import opened Frame

  /** What a render's callbacks close over: the store, and whether audio
      had started (`audioReady`, read by `playNote`). */
  datatype Captured = Captured(store: Store, audioReady: bool)

  /** The running application: the live store and audio flag, and what the
      render that registered `handleHandResults` with the tracker captured.
      The registration happens once, guarded by `initCompletedRef`, so the
      callback keeps that render's configuration, tuning and `playNote`. */
  datatype App = App(store: Store, audioReady: bool, registered: Captured)

  /** Registering the callback on mount with the store `s`, before the
      start click has started audio. */
  function Register(s: Store): (app: App)
    ensures app.store == s && app.registered.store == s
    ensures !app.audioReady && !app.registered.audioReady
  {
    App(s, false, Captured(s, false))
  }

  /** A settings action after registration: it reaches the live store only. */
  function Dispatch(app: App, a: Action): (r: App)
    requires Applicable(app.store, a)
    ensures r.store == Apply(app.store, a)
    ensures r.audioReady == app.audioReady && r.registered == app.registered
  {
    app.(store := Apply(app.store, a))
  }

  /** A run of settings actions, stopping at the first inapplicable one. */
  function DispatchAll(app: App, actions: seq<Action>): (r: App)
    ensures r.audioReady == app.audioReady && r.registered == app.registered
    decreases |actions|
  {
    if |actions| == 0 || !Applicable(app.store, actions[0]) then app
    else DispatchAll(Dispatch(app, actions[0]), actions[1..])
  }

  /** The live store after a run is the store's own run of the same actions. */
  lemma {:induction false} DispatchAllStore(app: App, actions: seq<Action>)
    ensures DispatchAll(app, actions).store == ApplyAll(app.store, actions)
    decreases |actions|
  {
    if |actions| > 0 && Applicable(app.store, actions[0]) {
      DispatchAllStore(Dispatch(app, actions[0]), actions[1..]);
    }
  }

  /** The start click (`initAudio`): audio is ready from then on, but the
      registered callback keeps the flag it captured. */
  function StartAudio(app: App): (r: App)
    ensures r.audioReady && r.store == app.store && r.registered == app.registered
  {
    app.(audioReady := true)
  }

  /** As written: a frame runs with the registered configuration. */
  function FrameAsWritten(app: App, t: Tracker, res: Results, n: int): (r: (Tracker, seq<Sound>))
    requires CompleteHands(res) && (|res.multiHandLandmarks| > 0 ==> app.registered.store.config.zoneSize != 0.0)
    ensures r.0.fretted == map[]
  {
    HandleHandResults(t, app.registered.store.config, res, n)
  }

  /** As written: `handleStrum` computes the note in the registered tuning. */
  function NoteAsWritten(app: App, e: StrumEvent): (note: string)
  {
    HandleStrum(app.registered.store.currentTuning, e)
  }

  /** As written: the note the synthesiser is asked to play, if any.
      `playNote` returns early unless the `audioReady` it captured holds. */
  function PlayedAsWritten(app: App, e: StrumEvent): (played: Option<string>)
    ensures played.Some? <==> app.registered.audioReady
  {
    if app.registered.audioReady then Some(NoteAsWritten(app, e)) else None
  }

  /** As written, no settings action changes what a frame does or which
      note it computes. */
  lemma AsWrittenIgnoresActions(app: App, actions: seq<Action>, t: Tracker, res: Results, n: int, e: StrumEvent)
    requires CompleteHands(res) && (|res.multiHandLandmarks| > 0 ==> app.registered.store.config.zoneSize != 0.0)
    ensures var later := DispatchAll(app, actions);
            && FrameAsWritten(later, t, res, n) == FrameAsWritten(app, t, res, n)
            && NoteAsWritten(later, e) == NoteAsWritten(app, e)
  {
  }

  /** The discrepancy in the note: after switching to the bass,
      `handleStrum` computes the guitar's E2 for the open lowest string
      where the live tuning names the bass's E1. */
  lemma StaleTuningAfterSwitch()
    ensures var app := Dispatch(Register(Init()), SetGuitarTypeAction(Bass));
            var e := StrumEvent(0, 0, 1.0);
            && NoteAsWritten(app, e) == "E2"
            && NoteIntended(app, e) == "E1"
  {
    var app := Dispatch(Register(Init()), SetGuitarTypeAction(Bass));
    InitNotesWellFormed();
    OpenStringUnchanged(app.registered.store.currentTuning, 0);
    OpenStringUnchanged(app.store.currentTuning, 0);
  }

  /** The discrepancy in the audio: whatever the settings actions, after the
      start click no strum is passed to the synthesiser. */
  lemma SilentAsWritten(s: Store, actions: seq<Action>, e: StrumEvent)
    ensures var app := StartAudio(DispatchAll(Register(s), actions));
            && app.audioReady
            && PlayedAsWritten(app, e) == None
  {
  }

  /** Corrected: a frame runs with the live configuration. */
  function FrameIntended(app: App, t: Tracker, res: Results, n: int): (r: (Tracker, seq<Sound>))
    requires CompleteHands(res) && (|res.multiHandLandmarks| > 0 ==> app.store.config.zoneSize != 0.0)
    ensures r.0.fretted == map[]
  {
    HandleHandResults(t, app.store.config, res, n)
  }

  /** Corrected: `handleStrum` computes the note in the live tuning. */
  function NoteIntended(app: App, e: StrumEvent): (note: string)
  {
    HandleStrum(app.store.currentTuning, e)
  }

  /** Corrected: the synthesiser is asked to play exactly when audio has
      started, as the live flag says. */
  function PlayedIntended(app: App, e: StrumEvent): (played: Option<string>)
    ensures played.Some? <==> app.audioReady
  {
    if app.audioReady then Some(NoteIntended(app, e)) else None
  }

  /** Corrected, after the start click every strum is passed to the
      synthesiser with the live tuning's note, whatever the settings
      actions before it. */
  lemma HeardAfterStart(s: Store, actions: seq<Action>, e: StrumEvent)
    ensures var app := StartAudio(DispatchAll(Register(s), actions));
            && app.store == ApplyAll(s, actions)
            && PlayedIntended(app, e) == Some(HandleStrum(ApplyAll(s, actions).currentTuning, e))
  {
    DispatchAllStore(Register(s), actions);
  }

  /** Corrected, after switching the guitar type each open string's note
      is the one the new type's default table names for it. */
  lemma SwitchRetunesOpenStrings(app: App, g: GuitarType, i: int)
    requires 0 <= i < GuitarTypes(g).strings
    ensures NoteIntended(Dispatch(app, SetGuitarTypeAction(g)), StrumEvent(i, 0, 1.0)) == DefaultTuningFor(g)[i].note
  {
    OpenStringUnchanged(Dispatch(app, SetGuitarTypeAction(g)).store.currentTuning, i);
  }

  /** Corrected, end to end: from a store with parseable notes, after any
      run of settings actions, every strum of a frame is on a string below
      `n`, at a fret not below 0, and its note is the live tuning's open
      note raised by the fret. */
  lemma LiveFrameIsTuned(app: App, actions: seq<Action>, t: Tracker, res: Results, n: int, p: nat)
    requires NotesWellFormed(app.store) && CompleteHands(res)
    requires forall s :: s in t.fretted ==> t.fretted[s] >= 0
    requires var later := DispatchAll(app, actions);
             && later.store.config.zoneSize != 0.0
             && n <= |later.store.currentTuning|
             && p < |FrameIntended(later, t, res, n).1|
    ensures var later := DispatchAll(app, actions);
            var e := FrameIntended(later, t, res, n).1[p].event;
            && 0 <= e.stringIdx < n && e.fret >= 0
            && NotesWellFormed(later.store)
            && NoteIntended(later, e) == NoteOfSemitone(NOTES, Semitone(NOTES, later.store.currentTuning[e.stringIdx].note) + e.fret)
  {
    var later := DispatchAll(app, actions);
    DispatchAllStore(app, actions);
    ApplyAllKeepsNotesWellFormed(app.store, actions);
    SoundIsTuned(t, later.store.config, later.store.currentTuning, res, n, p);
  }
}
