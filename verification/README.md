# Air guitar: the gesture-to-note pipeline in Dafny

This project models the core of an in-browser air guitar. A hand tracker
reports 21 landmarks per hand for every camera frame. The pipeline turns
them into strum events `(string, fret, velocity)` and then into note names.
It has five parts:

- **Zone** (`zone.dfy`, and `GetZoneBounds` in `config_store.dfy`): the
  play zone is derived from the configuration, and landmarks are rescaled
  so that the zone spans the unit square.
- **Fretting** (`fretting.dfy`): the four non-thumb fingertips of the
  fretting hand that pass the depth test rebuild a map from string index
  to the highest fret held on it. Normal mode is vertical and pro mode is
  horizontal.
- **Strumming** (`strumming.dfy`): a per-string state machine over the
  strumming hand's index fingertip. Each string keeps a last in-band
  position, which may be missing, and a cooldown flag. One call emits at
  most one event, with a clamped velocity.
- **Frame** (`frame.dfy`): handedness is resolved under camera mirroring.
  The user's left hand goes to fretting and the right hand to strumming,
  in list order. The fretted map is cleared when the frame ends. Each
  event's note is looked up in the tuning the registered callback
  captured.
- **Notes** (`notes.dfy`, `decimal.dfy`, `jsmath.dfy`): `getNoteAtFret`
  does pitch-class and octave arithmetic over the twelve pitch names. It
  keeps JavaScript's truncating `%`, its `parseInt` of the octave digit and
  its number-to-text conversion.

The other modules:

- `types.dfy` holds the records.
- `defaults.dfy` holds the constant tables: the default configuration, the
  guitar types, the pitch names, the fingertips and the hand skeleton.
- `config_store.dfy` holds the configuration store and its operations.
- `session.dfy` relates the store to the frame callback. The tracker is
  given `handleHandResults` once, so every frame keeps the configuration
  and tuning of the render that registered it.

Every operation is a pure function over immutable values:

- The fretted map is a `map<int, int>`.
- The strum memory is a `map<int, real>` of last positions, where a
  missing key is the source's `undefined`, plus a `set<int>` of strings
  cooling down.
- A frame is a function from the tracker state and the hand list to the
  new state and the list of sounds it makes. A sound is a strum event
  handed to `handleStrum`, which computes its note. Whether the
  synthesiser plays the note is decided by `playNote`, outside the frame
  (see `session.dfy`).

## Model

| member | source | states |
|---|---|---|
| Zone.NormalizeToZone | src/hooks/useHandTracking.ts:222-228 | depth passes through the zone mapping unchanged |
| Zone.NormalizeToZoneInverse | src/hooks/useHandTracking.ts:222-228 | the mapping is undone by the affine map from the unit square onto the zone. Nothing is clamped: a landmark lies in a proper zone exactly when its mapped point lies in [0,1] x [0,1] |
| Zone.NormalizeFromZone | src/hooks/useHandTracking.ts:222-228 | the other round trip: mapping the camera image of a zone point gives the point back, so the mapping is a bijection |
| Zone.NormalizeCorners | src/hooks/useHandTracking.ts:222-228 | the zone's top-left and bottom-right corners go to (0,0) and (1,1), and the other two corners to (1,0) and (0,1) |
| ConfigStore.GetZoneBounds | src/hooks/useConfig.ts:37-45 | both sides of the zone are `zoneSize` long, its horizontal centre is `0.5 + zoneXOffset` and its top is `zoneYOffset`. A positive size gives a proper rectangle, and the mapping is defined exactly when the size is non-zero |
| ConfigStore.ZoneBoundsDetermined | src/hooks/useConfig.ts:37-45 | the zone determines size and both offsets: two configurations with the same zone agree on all three |
| ConfigStore.DefaultZone | src/hooks/useConfig.ts:37-45 | with the default configuration the zone is [0.15, 0.85] x [0.10, 0.80] |
| ConfigStore.WithField | src/hooks/useConfig.ts:9-11 | `{ ...prev, [key]: value }` gives field `key` the new value, and every other field keeps its value |
| ConfigStore.FieldsDetermine | air-guitar-app/src/types/index.ts:25-53 | the keys cover every field of the configuration: two configurations that agree on every key are equal |
| ConfigStore.WithOwnField | src/hooks/useConfig.ts:9-11 | writing a field's own value back changes nothing |
| ConfigStore.UpdateConfig | src/hooks/useConfig.ts:9-11 | changes only the given key: every other field and the tuning are unchanged |
| ConfigStore.SetMode | src/hooks/useConfig.ts:13-15 | sets the mode and changes no other field, and the tuning is unchanged |
| ConfigStore.SetGuitarType | src/hooks/useConfig.ts:17-21 | sets the guitar type and changes no other field. The tuning becomes the default table that type names: one note per string of the type, note names and frequencies as in that table |
| ConfigStore.UpdateTuning | src/hooks/useConfig.ts:23-29 | retunes entry `index` to the new frequency. Its note name, every other entry, the length and the configuration are unchanged |
| ConfigStore.DefaultTuningFor | src/hooks/useConfig.ts:19-20 | the default table of a guitar type has one note per string of the type, and each note is one the note lookup can parse |
| ConfigStore.Init | src/hooks/useConfig.ts:6-7 | the store starts with the default configuration and a tuning that matches its guitar type |
| ConfigStore.ResetDefaults | src/hooks/useConfig.ts:31-35 | restores the default configuration and the tuning its guitar type names |
| ConfigStore.ResetIsInit | src/hooks/useConfig.ts:31-35 | resetting from any store gives the initial store |
| ConfigStore.InitNotesWellFormed | src/hooks/useConfig.ts:6-7 | every note of the initial tuning parses in the note lookup |
| ConfigStore.ApplyKeepsNotesWellFormed | src/hooks/useConfig.ts:9-35 | every store operation keeps every tuning note parseable |
| ConfigStore.ApplyAllKeepsNotesWellFormed | src/hooks/useConfig.ts:9-35 | no sequence of store operations makes a tuning note unparseable |
| ConfigStore.ApplyKeepsTuningMatchesType | src/hooks/useConfig.ts:9-35 | the tuning's note names stay those of the current guitar type under every operation except a raw `updateConfig` of the guitar type |
| ConfigStore.RawGuitarTypeUpdateBreaksMatch | src/hooks/useConfig.ts:9-21 | that exception is real: switching to the bass through `updateConfig` keeps six strings where the bass has four |
| Defaults.NotesDistinct | air-guitar-app/src/config/index.ts:85 | the pitch table holds twelve distinct names |
| Defaults.FingerTipsShape | air-guitar-app/src/config/index.ts:87 | five distinct fingertip indices below 21, the thumb (4) first, so dropping it leaves 8, 12, 16, 20 |
| Defaults.HandConnectionsInRange | air-guitar-app/src/config/index.ts:89-96 | every bone joins two landmark indices below 21 |
| Defaults.GuitarTypeTuningLengths | air-guitar-app/src/config/index.ts:36-83 | the tuning table each guitar type names has exactly its string count: 4 for the bass, 6 for the others |
| Defaults.DefaultConfigSane | air-guitar-app/src/config/index.ts:3-52 | the defaults have 6 strings and 6 string colours, as the default guitar type has. The zone size and both detection thresholds are positive |
| NoteNames.NotesTable | air-guitar-app/src/config/index.ts:85 | the pitch names are distinct and contain no digit, which the lookup's parse relies on |
| NoteNames.StandardTuningRises | air-guitar-app/src/config/index.ts:37-44 | every standard-tuning note is a pitch name followed by one octave digit. The notes rise strictly in absolute semitone from string 0 (low E) |
| NoteNames.BassTuningRises | air-guitar-app/src/config/index.ts:45-50 | the same for the bass tuning |
| NoteNames.SpelledNote | air-guitar-app/src/config/index.ts:37-50 | a pitch name followed by one digit parses, and its semitone is 12 times the digit plus the pitch index |
| NoteNames.IndexOfFirst | src/hooks/useAudio.ts:77 | `indexOf` finds the first occurrence, and it gives -1 exactly when the name is absent |
| NoteNames.GetNoteAtFret | src/hooks/useAudio.ts:72 | a string index with no tuning entry gives "C4" |
| NoteNames.NoteAtFretSemitone | src/hooks/useAudio.ts:74-82 | for a well-formed open note, the note at `fret` names the open note's semitone plus `fret`: pitch `(baseIdx + fret) mod 12` and octave `baseOctave + (baseIdx + fret) div 12` |
| NoteNames.NoteAboveSemitone | src/hooks/useAudio.ts:74-82 | the same statement for any table of twelve distinct digit-free names |
| NoteNames.TransposeSemitone | src/hooks/useAudio.ts:79-82 | the truncating remainder and the floored quotient together name the semitone `12 * octave + baseIdx + fret` |
| NoteNames.ParseNoteOfSemitone | src/hooks/useAudio.ts:82 | reading a printed note name back gives its semitone, so naming a semitone is injective |
| NoteNames.ParseNoteName | src/hooks/useAudio.ts:82 | reading back `pitch` followed by `octave` gives `12 * octave + pitch` |
| NoteNames.NoteNameSplit | src/hooks/useAudio.ts:82 | a note name splits at its first digit into the pitch name and the octave's decimal text |
| NoteNames.NoteAboveReadsBack | src/hooks/useAudio.ts:74-82 | the note `fret` above a well-formed base, read back, is the base semitone plus `fret` |
| NoteNames.NoteAtFretStrictlyRises | src/hooks/useAudio.ts:77-82 | two different non-negative frets on a well-formed string give different note names |
| NoteNames.NoteAboveRises | src/hooks/useAudio.ts:77-82 | the same for any pitch table |
| NoteNames.SemitoneNamesDiffer | src/hooks/useAudio.ts:82 | different semitones have different names |
| NoteNames.OpenStringUnchanged | src/hooks/useAudio.ts:74-82 | fret 0 gives back the open string's own note name |
| NoteNames.NoteAboveZero | src/hooks/useAudio.ts:74-82 | zero semitones above a well-formed note is the note itself |
| NoteNames.OctaveUp | src/hooks/useAudio.ts:79-82 | if fret `f` sounds pitch `p` in octave `o`, then fret `f + 12` sounds `p` in octave `o + 1` |
| NoteNames.NoteAboveOctave | src/hooks/useAudio.ts:79-82 | the same for any pitch table |
| NoteNames.NameOctaveUp | src/hooks/useAudio.ts:79-82 | the semitone twelve above the one named `p` `o` is named `p` `o + 1` |
| NoteNames.PitchAlwaysInNotes | src/hooks/useAudio.ts:79-82 | with a base pitch found in the table and a non-negative fret, the result starts with the name `(baseIdx + fret) mod 12`, whatever the octave character holds |
| NoteNames.TransposeBelowZero | src/hooks/useAudio.ts:79-82 | below pitch 0 the truncating remainder is negative and the name is NaN, except at negative multiples of 12, where the remainder is -0 and the name is the table's first, one octave lower per 12 |
| NoteNames.LowStringSixteenDown | src/hooks/useAudio.ts:74-82 | E2 of the standard tuning sixteen frets down is "C1" |
| NoteNames.TransposePrefix | src/hooks/useAudio.ts:79-82 | the same statement about the raw arithmetic |
| JsMath.RemSpec | src/hooks/useAudio.ts:79 | JavaScript's `%` agrees with the Euclidean remainder on non-negative numbers. On negative numbers it lies in (-12, 0] and differs from it by 0 or 12 |
| JsMath.FloorDivSpec | src/hooks/useAudio.ts:80 | `Math.floor(a / 12)` is the quotient bracketing `a` between consecutive multiples of 12 |
| JsMath.Round | src/hooks/useHandTracking.ts:245 | `Math.round` gives the integer within half a unit, halves rounded up |
| JsMath.Floor | src/hooks/useHandTracking.ts:248 | `Math.floor` gives the greatest integer not above its argument |
| Decimal.ParseDigit | src/hooks/useAudio.ts:76 | `parseInt` of one character is a value below 10 exactly for a decimal digit, and NaN otherwise |
| Decimal.ParseNatToString | src/hooks/useAudio.ts:82 | printing a natural number gives decimal digits that parse back to it |
| Decimal.NatToStringDigits | src/hooks/useAudio.ts:82 | the printed octave is a non-empty string of digits |
| Fretting.StringIndex | src/hooks/useHandTracking.ts:247-248 | the string index is clamped into `[0, n-1]`. Below the zone it is 0, beyond it `n - 1`, and inside it the band `floor(pos * n)` |
| Fretting.NormalTouch | src/hooks/useHandTracking.ts:307-317 | a normal-mode fingertip presses exactly when its raw depth is below 0.1. The string comes from the zone x, and the fret is `(1 - y) * frets` rounded |
| Fretting.ProTouch | src/hooks/useHandTracking.ts:238-250 | a pro-mode fingertip presses exactly when it lies in the left half of the zone and its raw depth is below 0.1. The string comes from the zone y, and the fret is `(1 - x / 0.5) * frets` rounded |
| Fretting.FarTipIgnored | src/hooks/useHandTracking.ts:250 | a fingertip at depth 0.1 or more frets nothing |
| Fretting.ProRightHalfIgnored | src/hooks/useHandTracking.ts:242 | pro mode ignores fingertips right of the zone's middle |
| Fretting.FrettingTips | src/hooks/useHandTracking.ts:238 | the fretting fingertips are 8, 12, 16 and 20 |
| Fretting.OnlyFrettingTipsMatter | src/hooks/useHandTracking.ts:236-253 | hands that agree on those four fingertips give the same map, whatever the thumb, knuckles and wrist do |
| Fretting.TouchesOfMembers | src/hooks/useHandTracking.ts:238-253 | the touches are exactly those of the fingertips that press |
| Fretting.Press | src/hooks/useHandTracking.ts:251 | one press adds its string to the map with the larger of the held fret (0 if none) and its own fret. Other strings are unchanged |
| Fretting.PressAllHeldFrets | src/hooks/useHandTracking.ts:236-253 | from the empty map, the presses give the held-frets map: exactly the touched strings, each holding the largest fret pressed on it, floored at 0 |
| Fretting.HeldFretsUnique | src/hooks/useHandTracking.ts:236-253 | the held-frets description determines the map, so it serves as a reference definition |
| Fretting.PressAllOrderFree | src/hooks/useHandTracking.ts:238-253 | the order in which fingertips press does not matter |
| Fretting.ProcessFrettingHeldFrets | src/hooks/useHandTracking.ts:299-321 | a fretting pass gives the held-frets map of its touches, and nothing of the previous map survives |
| Fretting.ProcessFrettingRange | src/hooks/useHandTracking.ts:299-321 | every held fret is 0 or more, and every held string exists |
| Fretting.TouchStrings | src/hooks/useHandTracking.ts:248 | every touch lands on a string that exists |
| Fretting.ProcessNormalFretting | src/hooks/useHandTracking.ts:299-321 | the normal-mode map holds frets not below 0 on strings that exist |
| Fretting.ProcessProFretting | src/hooks/useHandTracking.ts:230-254 | the pro-mode map holds frets not below 0 on strings that exist |
| Fretting.NormalFretInRange | src/hooks/useHandTracking.ts:314-317 | a pressing fingertip inside a proper zone frets between 0 and `frets` in normal mode |
| Fretting.ProFretInRange | src/hooks/useHandTracking.ts:242-250 | the same in pro mode, for the fretting half of the zone |
| Fretting.ResetFrettedNotes | src/hooks/useHandTracking.ts:364-366 | after the reset every string holds fret 0 |
| Strumming.Velocity | src/hooks/useHandTracking.ts:284 | `min(1, 25 * travel)` is at most 1, positive for positive travel, exactly 1 from a travel of 1/25 on, and exactly `25 * travel` up to there |
| Strumming.ScanSpec | src/hooks/useHandTracking.ts:268-296 | the string loop emits nothing exactly when no string fires. Otherwise it emits the event of the first string that fires, with that string's fret and clamped velocity. Every visited string records its position if in band and forgets it otherwise. Strings after the fired one keep their positions, and only the fired string enters cooldown |
| Strumming.FirstStringFires | src/hooks/useHandTracking.ts:333-351 | when string 0 fires, the call emits its event |
| Strumming.ArmOnly | src/hooks/useHandTracking.ts:337-358 | from a memory with no positions nothing fires, and every string records whether it is in band |
| Strumming.FirstSampleArms | src/hooks/useHandTracking.ts:273-275 | a string with no previous position does not fire: its first in-band sample only arms it |
| Strumming.LeavingBandDisarms | src/hooks/useHandTracking.ts:290-292 | after a sample out of its band a string has forgotten its position, so the next sample cannot fire it |
| Strumming.CooldownSuppresses | src/hooks/useHandTracking.ts:278 | a string cooling down does not fire, however fast the strum |
| Strumming.FiredStringCoolsDown | src/hooks/useHandTracking.ts:278-281 | a fired string enters cooldown, and the next call cannot fire it again |
| Strumming.ReleasedStringFiresAgain | src/hooks/useHandTracking.ts:276-284 | a sample that would fire a string but for its cooldown does not fire it before the 120 ms release, and fires it with its event after the release when no lower string fires first |
| Strumming.ReleaseScenario | src/hooks/useHandTracking.ts:270-292 | continuing the clean strum to 0.50: while cooling down string 0 does not fire, and after the release it fires at full velocity with the held fret |
| Strumming.ExpireCooldown | src/hooks/useHandTracking.ts:282 | the timer releases exactly its string from cooldown and leaves positions alone |
| Strumming.StrumCooldown | src/hooks/useHandTracking.ts:278-281 | one call adds exactly the fired string to the cooldown, and that string was not cooling down |
| Strumming.Replay | src/hooks/useHandTracking.ts:333-361 | a run of calls emits at most one event per call |
| Strumming.ReplayFiresOncePerString | src/hooks/useHandTracking.ts:343-347 | with no cooldown release in between, a run of calls fires each string at most once, never a string cooling down at the start. The cooldown grows by exactly the fired strings |
| Strumming.VelocityInRange | src/hooks/useHandTracking.ts:276-284 | an emitted velocity lies in (0, 1] when the sensitivity is not negative |
| Strumming.EventOnHeldFret | src/hooks/useHandTracking.ts:279-286 | an event names a string below `n` and carries the fret held on it (0 if none) |
| Strumming.NormalStrumBand | src/hooks/useHandTracking.ts:323-362 | `processNormalStrumming` (`Strumming.ProcessNormalStrumming`): the strummed string's band holds the fingertip's zone x. Its position was recorded, and the strum moved the zone y by more than the sensitivity |
| Strumming.ProcessProStrumming | src/hooks/useHandTracking.ts:266 | pro strumming left of the zone's middle changes nothing and emits nothing |
| Strumming.ProStrumBand | src/hooks/useHandTracking.ts:263-278 | in pro mode the strumming fingertip is right of the middle and the strummed string's band holds the zone y. The zone y also moved by more than the sensitivity |
| Strumming.NormalStrumScenario | src/hooks/useHandTracking.ts:333-351 | with the default width and sensitivity, a fingertip on string 0 moving from 0.40 to 0.45 first arms the string, then fires it at full velocity with its held fret |
| Frame.RoleOfLabel | src/hooks/useHandTracking.ts:94-95 | an unlabelled hand, or one with an unknown label, always strums. Toggling mirroring swaps the roles of the "Left" and "Right" labels |
| Frame.FretHand | src/App.tsx:138-142 | mode "pro" selects pro fretting and every other mode normal fretting |
| Frame.StrumHand | src/App.tsx:154-158 | the mode picks the strumming variant: normal mode is `processNormalStrumming` and pro mode `processProStrumming`, so in pro mode a fingertip left of the zone's middle emits nothing and changes nothing. The event is on a string below `n`, at the fret held on it, with a velocity in (0, 1] |
| Frame.HandStep | src/App.tsx:129-159 | the user's left hand only frets: it replaces the map, leaves the strum memory alone and emits nothing. The right hand only strums: it keeps the map and its event carries the fret held on its string. In pro mode a right hand left of the zone's middle changes nothing |
| Frame.FretStepIdempotent | src/hooks/useHandTracking.ts:236 | a fretting step forgets the previous map: it gives the same result whatever was held before, and repeating it changes nothing |
| Frame.PlayHand | src/hooks/useHandTracking.ts:93-112 | each hand adds at most one sound |
| Frame.ProcessPrefix | src/hooks/useHandTracking.ts:93-112 | `k` hands make at most `k` sounds |
| Frame.PlayHandFretted | src/App.tsx:129-159 | a fretting hand replaces the fretted map with its own map, and a strumming hand keeps it |
| Frame.PrefixFretted | src/App.tsx:129-159 | after `k` hands the fretted map is that of the last fretting hand among them, or the map the frame started with |
| Frame.PrefixStrummed | src/hooks/useHandTracking.ts:93-112 | every sound comes from a strumming hand and names a string below `n` |
| Frame.PrefixInHandOrder | src/hooks/useHandTracking.ts:93-112 | sounds come at most one per hand, in list order |
| Frame.SoundFrets | src/App.tsx:129-166 | each sound carries the fret held on its string by the last fretting hand listed before it |
| Frame.ProcessResults | src/hooks/useHandTracking.ts:89-91 | a frame without hands changes nothing and sounds nothing |
| Frame.HandleHandResults | src/App.tsx:116-166 | the fretted map is empty after every frame, including frames without hands. A frame without hands leaves the strum memory untouched and sounds nothing, whatever the zone size. There is at most one sound per hand |
| Frame.FrameSounds | src/App.tsx:116-166 | a frame's sounds come from strumming hands, at most one per hand, in list order, each on a string below `n` |
| Frame.OpenUnlessFrettedEarlier | src/App.tsx:129-166 | with a cleared map and no fretting hand listed before it, a strumming hand sees fret 0 on every string |
| Frame.FretNeedsEarlierLeftHand | src/App.tsx:129-166 | a sound with a non-zero fret always follows a fretting hand listed earlier in the same frame |
| Frame.FrettedNonNegative | src/hooks/useHandTracking.ts:251 | the fretted map a strumming hand sees never holds a negative fret |
| Frame.FrameFretsNonNegative | src/App.tsx:116-166 | a frame that starts with no negative fret held sounds no negative fret |
| Frame.SoundVelocities | src/hooks/useHandTracking.ts:284 | every velocity of a frame lies in (0, 1] when the sensitivity is not negative |
| Frame.AllFrettingPrefix | src/App.tsx:129-159 | hands that all fret leave the strum memory untouched and sound nothing |
| Frame.FrettingOnlyFrameIsSilent | src/App.tsx:116-166 | a frame whose hands all fret ends with an empty map and the strum memory it started with, and sounds nothing |
| Frame.TunedStrum | src/App.tsx:103-104 | `handleStrum` (`Frame.HandleStrum`): a strum on an existing string at a fret not below 0 computes the open string's semitone raised by the fret |
| Frame.SoundIsTuned | src/App.tsx:103-104 | end to end: from a fretted map with no negative fret, such as the empty map every frame leaves, every strum of a frame is on a string below `n`, at a fret not below 0, and `handleStrum` computes the open note's semitone raised by that fret |

| Session.DispatchAll | src/App.tsx:201-211 | a settings action after registration reaches the live store and leaves the callback's registered store as it was |
| Session.DispatchAllStore | src/hooks/useConfig.ts:9-35 | the live store after a run of actions is the store's own run of them |
| Session.AsWrittenIgnoresActions | src/App.tsx:201-211 | as registered, no settings action changes what a frame does or which note `handleStrum` computes |
| Session.StaleTuningAfterSwitch | src/App.tsx:103-104 | after switching to the bass, `handleStrum` still computes the guitar's E2 for the open lowest string, where the live tuning names E1 |
| Session.StartAudio | src/hooks/useAudio.ts:13-16 | the start click makes audio ready in the live state and leaves what the registered callback captured as it was |
| Session.PlayedAsWritten | src/hooks/useAudio.ts:66-69 | as registered, a note reaches the synthesiser exactly when the captured `audioReady` holds |
| Session.SilentAsWritten | src/App.tsx:103-113 | as registered on mount, no strum reaches the synthesiser, even after the start click and any settings actions |
| Session.PlayedIntended | src/hooks/useAudio.ts:66-69 | read live, a note reaches the synthesiser exactly when audio has started |
| Session.HeardAfterStart | src/App.tsx:237-241 | read live, after the start click every strum reaches the synthesiser with the note of the live tuning, whatever the settings actions before it |
| Session.SwitchRetunesOpenStrings | src/hooks/useConfig.ts:17-21 | read from the live store, after switching the guitar type each open string's note is the new type's default note |
| Session.LiveFrameIsTuned | src/App.tsx:103-104 | read from the live store, after any run of settings actions every strum of a frame gets the live tuning's open note raised by its fret |

## Left out

- Timers: the 120 ms `setTimeout` that releases a string's cooldown is the explicit operation `Strumming.ExpireCooldown`. The 200 ms reset of the active-string display is not modelled.
- Camera, hand tracker and rendering are not modelled: `initMediaPipe`, the debug canvas (`drawZones`, `drawHandLandmarks`), the ghost hands, the Three.js scene and the React state flags (`setLeftHandActive`, the raw hand data, the debug panel). Landmarks and handedness labels are inputs.
- Audio is not modelled: `playNote` and the synth set-up are wrappers over a synthesiser library. `Frame.HandleStrum` models only the note lookup of `handleStrum`, and `Session.PlayedAsWritten` only the `audioReady` guard of `playNote`. The auto-tuner and the UI components are not part of this model.
- The string count is a parameter `n` of a frame. The source reads it from the 3D guitar model, which is not part of this model.
- The configuration and tuning a frame uses are parameters. In the source they are those captured when `handleHandResults` was registered (src/App.tsx:201-211, src/hooks/useHandTracking.ts:58), so later store updates do not reach the pipeline, and `playNote` keeps the `audioReady` it saw before audio started. `Session` states both readings, and "## Findings" records the difference.
- A missing `multiHandLandmarks` is the empty hand list, and the handedness list may be shorter than the hand list.
- Malformed input is excluded by preconditions, because the source does not handle it. A hand with fewer than 21 landmarks would make the source read an undefined landmark. A zone size of 0 would make it divide by zero once a hand is mapped into the zone, so only frames with hands require a non-zero size.
- IEEE doubles are exact reals. Rounding error, infinities and NaN coordinates are not modelled. The operations used are affine maps, `abs`, `min`, `floor` and `round`, with `Math.round` as `floor(x + 0.5)`.
- `getNoteAtFret` can compute the number NaN where a note name is expected (a pitch index left of the table). The model returns the text "NaN" there.
- ConfigStore.UpdateTuning: requires an index inside the tuning. For an index outside it, the source writes an entry holding only a frequency, possibly beyond the end of the array. That case is not modelled.
- ConfigStore.SetGuitarType: leaves the `strings` field as it was, as the source does. The string count in use comes from the guitar model, not from this field.
- NoteNames.NoteAtFretStrictlyRises: states that different frets give different names rather than an order on names. The order is stated on absolute semitones by `NoteNames.NoteAtFretSemitone` together with `NoteNames.ParseNoteOfSemitone`.
- NoteNames.NoteAtFretSemitone: covers frets with `baseIdx + fret >= 0`. Below that, the source's truncating remainder gives a negative index, hence NaN, except at negative multiples of 12, where the index is -0 and the name is C (E2 at fret -16 gives "C1"). `NoteNames.TransposeBelowZero` states that case.
- NoteNames.GetNoteAtFret: its own contract covers only the missing-string case. The in-range case is stated by `NoteNames.NoteAtFretSemitone`, `NoteNames.OpenStringUnchanged`, `NoteNames.OctaveUp` and `NoteNames.PitchAlwaysInNotes`.
- Decimal.IntToString: has no contract of its own. It matters only through the octave text, which `Decimal.ParseNatToString` and `NoteNames.ParseNoteName` describe for non-negative octaves.

## Findings

| source | as written | input that shows it | evidently intended | confidence | as-written member | corrected member |
|---|---|---|---|---|---|---|
| src/App.tsx:201-211 | `handleHandResults` is registered with the tracker once, behind `initCompletedRef`, so every frame runs with the `config`, zone and `currentTuning` of the first render; the effect's dependency on `handleHandResults` (src/App.tsx:234) re-runs but returns at the guard | switch the guitar type to bass, then strum the lowest string open: `handleStrum` computes and displays E2, where the bass tuning names E1 | frames read the live configuration and tuning | medium; not executed | Session.StaleTuningAfterSwitch | Session.LiveFrameIsTuned |
| src/hooks/useAudio.ts:66-69 | the same once-only registration keeps the first render's `handleStrum`, whose `playNote` captured `audioReady` as false: audio starts only on the start click (src/App.tsx:237-241, src/hooks/useAudio.ts:13-16), so `playNote` returns at its guard on every strum | click start, then strum any string: the note is computed and displayed, but nothing is passed to the synthesiser | strums are heard once audio has started | medium; not executed | Session.SilentAsWritten | Session.HeardAfterStart |
