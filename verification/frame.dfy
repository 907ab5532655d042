/** One frame of hand tracking: each detected hand is given its role
    (fretting or strumming), the strumming hand's events become notes, and
    the fretted map is cleared when the frame ends. */
module Frame {
  import opened Types
  import opened Defaults
  import opened Zone
  import opened NoteNames
  import opened ConfigStore
  import opened Fretting
  import opened Strumming

  /** The state that survives between frames. */
  datatype Tracker = Tracker(fretted: map<int, int>, strum: StrumState)

  const INITIAL_TRACKER: Tracker := Tracker(map[], INITIAL_STRUM)

  /** The hand tracker's output for a frame: the landmarks of each hand and
      the handedness labels, which may be fewer than the hands. A missing
      landmark list is the empty one. */
  datatype Results = Results(multiHandLandmarks: seq<seq<Landmark>>, multiHandedness: seq<string>)

  /** A strum of the frame: the hand that strummed and its event, handed to
      `handleStrum`, which computes the note. */
  datatype Sound = Sound(hand: nat, event: StrumEvent)

  /** `results.multiHandedness?.[i]?.label`. */
  function Label(res: Results, i: nat): (l: Option<string>)
    ensures i >= |res.multiHandedness| ==> l == None
  {
    if i < |res.multiHandedness| then Some(res.multiHandedness[i]) else None
  }

  /** The hand plays the user's left (fretting) role. The camera image is
      mirrored by default, which swaps the tracker's labels. */
  predicate IsUserLeft(mirror: bool, tag: Option<string>)
  {
    if mirror then tag == Some("Right") else tag == Some("Left")
  }

  /** A hand without a label always strums; a labelled hand swaps roles
      when mirroring is toggled. */
  lemma RoleOfLabel(tag: Option<string>)
    ensures tag.None? ==> !IsUserLeft(true, tag) && !IsUserLeft(false, tag)
    ensures tag == Some("Left") || tag == Some("Right") ==> (IsUserLeft(true, tag) <==> !IsUserLeft(false, tag))
    ensures tag.Some? && tag.value != "Left" && tag.value != "Right" ==> !IsUserLeft(true, tag) && !IsUserLeft(false, tag)
  {
  }

  /** Every landmark list is complete enough for the fingertips read. */
  predicate CompleteHands(res: Results)
  {
    forall i :: 0 <= i < |res.multiHandLandmarks| ==> |res.multiHandLandmarks[i]| > 20
  }

  /** The left-hand callback: the mode picks the fretting variant. */
  function FretHand(landmarks: seq<Landmark>, b: ZoneBounds, n: int, cfg: Config): (m: map<int, int>)
    requires |landmarks| > 20 && NonDegenerate(b)
    ensures m == ProcessFretting(landmarks, b, n, cfg.frets, cfg.mode)
  {
    if cfg.mode == Pro then ProcessProFretting(landmarks, b, n, cfg.frets)
    else ProcessNormalFretting(landmarks, b, n, cfg.frets)
  }

  /** The right-hand callback: the mode picks the strumming variant, so in
      pro mode a fingertip left of the zone's middle strums nothing. */
  function StrumHand(s: StrumState, fretted: map<int, int>, landmarks: seq<Landmark>, b: ZoneBounds, n: int, cfg: Config): (r: StrumResult)
    requires |landmarks| > 20 && NonDegenerate(b)
    ensures r.event.Some? ==> 0 <= r.event.value.stringIdx < n
    ensures r.event.Some? ==> r.event.value.fret == FretAt(fretted, r.event.value.stringIdx)
    ensures r.event.Some? && cfg.strumSensitivity >= 0.0 ==> 0.0 < r.event.value.velocity <= 1.0
    ensures cfg.mode == Normal ==> r == ProcessNormalStrumming(s, fretted, landmarks, b, n, cfg)
    ensures cfg.mode == Pro ==> r == ProcessProStrumming(s, fretted, landmarks, b, n, cfg)
    ensures cfg.mode == Pro && NormalizeToZone(landmarks[INDEX_TIP], b).x < 0.5 ==> r == StrumResult(s, None)
  {
    var p := NormalizeToZone(landmarks[INDEX_TIP], b);
    if cfg.mode == Pro then
      VelocityInRange(s, fretted, Axes(p.y, p.y), n, cfg);
      EventOnHeldFret(s, fretted, Axes(p.y, p.y), n, cfg);
      ProcessProStrumming(s, fretted, landmarks, b, n, cfg)
    else
      VelocityInRange(s, fretted, Axes(p.x, p.y), n, cfg);
      EventOnHeldFret(s, fretted, Axes(p.x, p.y), n, cfg);
      ProcessNormalStrumming(s, fretted, landmarks, b, n, cfg)
  }

  /** One hand of the frame, in its role: a fretting hand replaces the
      fretted map and strums nothing; a strumming hand reads the fretted
      map and may emit one event. */
  function HandStep(t: Tracker, landmarks: seq<Landmark>, tag: Option<string>, b: ZoneBounds, n: int, cfg: Config): (r: (Tracker, Option<StrumEvent>))
    requires |landmarks| > 20 && NonDegenerate(b)
    ensures IsUserLeft(cfg.mirrorCamera, tag) ==>
      r.0 == Tracker(ProcessFretting(landmarks, b, n, cfg.frets, cfg.mode), t.strum) && r.1.None?
    ensures !IsUserLeft(cfg.mirrorCamera, tag) ==> r.0.fretted == t.fretted
    ensures r.1.Some? ==> 0 <= r.1.value.stringIdx < n && r.1.value.fret == FretAt(t.fretted, r.1.value.stringIdx)
    ensures r.1.Some? && cfg.strumSensitivity >= 0.0 ==> 0.0 < r.1.value.velocity <= 1.0
    ensures !IsUserLeft(cfg.mirrorCamera, tag) && cfg.mode == Pro && NormalizeToZone(landmarks[INDEX_TIP], b).x < 0.5 ==> r == (t, None)
  {
    if IsUserLeft(cfg.mirrorCamera, tag) then
      (t.(fretted := FretHand(landmarks, b, n, cfg)), None)
    else
      var sr := StrumHand(t.strum, t.fretted, landmarks, b, n, cfg);
      (t.(strum := sr.state), sr.event)
  }

  /** The fretted map a hand sees: that of the last fretting hand before
      it in the list, or the map the frame started with. */
  function FrettedBefore(start: map<int, int>, res: Results, b: ZoneBounds, n: int, cfg: Config, k: nat): map<int, int>
    requires k <= |res.multiHandLandmarks| && CompleteHands(res) && NonDegenerate(b)
  {
    if k == 0 then start
    else if IsUserLeft(cfg.mirrorCamera, Label(res, k - 1)) then
      ProcessFretting(res.multiHandLandmarks[k - 1], b, n, cfg.frets, cfg.mode)
    else FrettedBefore(start, res, b, n, cfg, k - 1)
  }

  /** No fretting hand among the first `k`. */
  predicate NoLeftBefore(res: Results, mirror: bool, k: nat)
  {
    forall h :: 0 <= h < k ==> !IsUserLeft(mirror, Label(res, h))
  }

  /** Hand `h` of the frame played after the earlier ones: its step runs on
      the tracker they left, and its event, if any, is appended. */
  function PlayHand(acc: (Tracker, seq<Sound>), res: Results, b: ZoneBounds, n: int, cfg: Config, h: nat): (r: (Tracker, seq<Sound>))
    requires h < |res.multiHandLandmarks| && CompleteHands(res) && NonDegenerate(b)
    ensures |acc.1| <= |r.1| <= |acc.1| + 1
  {
    var (t', event) := HandStep(acc.0, res.multiHandLandmarks[h], Label(res, h), b, n, cfg);
    match event
    case None => (t', acc.1)
    case Some(e) => (t', acc.1 + [Sound(h, e)])
  }

  /** The first `k` hands, in list order, with the sounds they make. */
  function ProcessPrefix(t: Tracker, res: Results, b: ZoneBounds, n: int, cfg: Config, k: nat): (r: (Tracker, seq<Sound>))
    requires k <= |res.multiHandLandmarks| && CompleteHands(res) && NonDegenerate(b)
    ensures |r.1| <= k
    decreases k
  {
    if k == 0 then (t, [])
    else PlayHand(ProcessPrefix(t, res, b, n, cfg, k - 1), res, b, n, cfg, k - 1)
  }

  /** The prefix of `k` hands is that of `k - 1` followed by hand `k - 1`. */
  lemma PrefixStep(t: Tracker, res: Results, b: ZoneBounds, n: int, cfg: Config, k: nat)
    requires 0 < k <= |res.multiHandLandmarks| && CompleteHands(res) && NonDegenerate(b)
    ensures ProcessPrefix(t, res, b, n, cfg, k) == PlayHand(ProcessPrefix(t, res, b, n, cfg, k - 1), res, b, n, cfg, k - 1)
  {
  }

  /** A fretting hand replaces the fretted map; a strumming hand keeps it. */
  lemma PlayHandFretted(acc: (Tracker, seq<Sound>), res: Results, b: ZoneBounds, n: int, cfg: Config, h: nat)
    requires h < |res.multiHandLandmarks| && CompleteHands(res) && NonDegenerate(b)
    ensures PlayHand(acc, res, b, n, cfg, h).0.fretted ==
      if IsUserLeft(cfg.mirrorCamera, Label(res, h)) then ProcessFretting(res.multiHandLandmarks[h], b, n, cfg.frets, cfg.mode)
      else acc.0.fretted
  {
  }

  /** After the first `k` hands the fretted map is the one `FrettedBefore`
      names: that of the last fretting hand among them, or the start map. */
  lemma {:induction false} PrefixFretted(t: Tracker, res: Results, b: ZoneBounds, n: int, cfg: Config, k: nat)
    requires k <= |res.multiHandLandmarks| && CompleteHands(res) && NonDegenerate(b)
    ensures ProcessPrefix(t, res, b, n, cfg, k).0.fretted == FrettedBefore(t.fretted, res, b, n, cfg, k)
  {
    if k > 0 {
      PrefixFretted(t, res, b, n, cfg, k - 1);
      PrefixStep(t, res, b, n, cfg, k);
      PlayHandFretted(ProcessPrefix(t, res, b, n, cfg, k - 1), res, b, n, cfg, k - 1);
    }
  }

  /** The sounds of the first `k` hands come from strumming hands, and each
      names a string below `n`. */
  predicate StrummedBy(res: Results, mirror: bool, n: int, k: nat, sounds: seq<Sound>)
  {
    forall p :: 0 <= p < |sounds| ==>
      && sounds[p].hand < k
      && !IsUserLeft(mirror, Label(res, sounds[p].hand))
      && 0 <= sounds[p].event.stringIdx < n
  }

  lemma StrummedByAppend(res: Results, mirror: bool, n: int, k: nat, sounds: seq<Sound>, x: Sound)
    requires StrummedBy(res, mirror, n, k, sounds)
    requires x.hand == k && !IsUserLeft(mirror, Label(res, k)) && 0 <= x.event.stringIdx < n
    ensures StrummedBy(res, mirror, n, k + 1, sounds + [x])
  {
    var all := sounds + [x];
    assert forall p :: 0 <= p < |sounds| ==> all[p] == sounds[p];
  }

  lemma PlayHandStrummed(acc: (Tracker, seq<Sound>), res: Results, b: ZoneBounds, n: int, cfg: Config, h: nat)
    requires h < |res.multiHandLandmarks| && CompleteHands(res) && NonDegenerate(b)
    requires StrummedBy(res, cfg.mirrorCamera, n, h, acc.1)
    ensures StrummedBy(res, cfg.mirrorCamera, n, h + 1, PlayHand(acc, res, b, n, cfg, h).1)
  {
    var step := HandStep(acc.0, res.multiHandLandmarks[h], Label(res, h), b, n, cfg);
    if step.1.Some? {
      var e := step.1.value;
      StrummedByAppend(res, cfg.mirrorCamera, n, h, acc.1, Sound(h, e));
    }
  }

  /** Only strumming hands sound, each on a string that exists. */
  lemma {:induction false} PrefixStrummed(t: Tracker, res: Results, b: ZoneBounds, n: int, cfg: Config, k: nat)
    requires k <= |res.multiHandLandmarks| && CompleteHands(res) && NonDegenerate(b)
    ensures StrummedBy(res, cfg.mirrorCamera, n, k, ProcessPrefix(t, res, b, n, cfg, k).1)
  {
    if k > 0 {
      PrefixStrummed(t, res, b, n, cfg, k - 1);
      PrefixStep(t, res, b, n, cfg, k);
      PlayHandStrummed(ProcessPrefix(t, res, b, n, cfg, k - 1), res, b, n, cfg, k - 1);
    }
  }

  /** Every sound carries the fret held on its string when its hand came up. */
  ghost predicate FretsAsHeld(start: map<int, int>, res: Results, b: ZoneBounds, n: int, cfg: Config, sounds: seq<Sound>)
    requires CompleteHands(res) && NonDegenerate(b)
  {
    forall p :: 0 <= p < |sounds| ==>
      sounds[p].hand <= |res.multiHandLandmarks| &&
      sounds[p].event.fret == FretAt(FrettedBefore(start, res, b, n, cfg, sounds[p].hand), sounds[p].event.stringIdx)
  }

  lemma FretsAsHeldAppend(start: map<int, int>, res: Results, b: ZoneBounds, n: int, cfg: Config, sounds: seq<Sound>, x: Sound)
    requires CompleteHands(res) && NonDegenerate(b) && x.hand <= |res.multiHandLandmarks|
    requires FretsAsHeld(start, res, b, n, cfg, sounds)
    requires x.event.fret == FretAt(FrettedBefore(start, res, b, n, cfg, x.hand), x.event.stringIdx)
    ensures FretsAsHeld(start, res, b, n, cfg, sounds + [x])
  {
    var all := sounds + [x];
    forall p | 0 <= p < |all|
      ensures all[p].hand <= |res.multiHandLandmarks|
      ensures all[p].event.fret == FretAt(FrettedBefore(start, res, b, n, cfg, all[p].hand), all[p].event.stringIdx)
    {
      if p < |sounds| {
        assert all[p] == sounds[p];
      }
    }
  }

  lemma PlayHandFrets(start: map<int, int>, acc: (Tracker, seq<Sound>), res: Results, b: ZoneBounds, n: int, cfg: Config, h: nat)
    requires h < |res.multiHandLandmarks| && CompleteHands(res) && NonDegenerate(b)
    requires FretsAsHeld(start, res, b, n, cfg, acc.1)
    requires acc.0.fretted == FrettedBefore(start, res, b, n, cfg, h)
    ensures FretsAsHeld(start, res, b, n, cfg, PlayHand(acc, res, b, n, cfg, h).1)
  {
    var step := HandStep(acc.0, res.multiHandLandmarks[h], Label(res, h), b, n, cfg);
    if step.1.Some? {
      var e := step.1.value;
      FretsAsHeldAppend(start, res, b, n, cfg, acc.1, Sound(h, e));
    }
  }

  /** Each sound's fret is the one held on its string by the last fretting
      hand listed before the strumming hand (or at the start of the frame). */
  lemma {:induction false} SoundFrets(t: Tracker, res: Results, b: ZoneBounds, n: int, cfg: Config, k: nat)
    requires k <= |res.multiHandLandmarks| && CompleteHands(res) && NonDegenerate(b)
    ensures FretsAsHeld(t.fretted, res, b, n, cfg, ProcessPrefix(t, res, b, n, cfg, k).1)
  {
    if k > 0 {
      SoundFrets(t, res, b, n, cfg, k - 1);
      PrefixFretted(t, res, b, n, cfg, k - 1);
      PrefixStep(t, res, b, n, cfg, k);
      PlayHandFrets(t.fretted, ProcessPrefix(t, res, b, n, cfg, k - 1), res, b, n, cfg, k - 1);
    }
  }

  /** The hands of `sounds` lie below `k` and strictly increase: one
      sound per hand at most, in list order. */
  predicate InHandOrder(sounds: seq<Sound>, k: nat)
  {
    && (forall p :: 0 <= p < |sounds| ==> sounds[p].hand < k)
    && (forall p, q :: 0 <= p < q < |sounds| ==> sounds[p].hand < sounds[q].hand)
  }

  lemma InHandOrderAppend(sounds: seq<Sound>, x: Sound, k: nat)
    requires InHandOrder(sounds, k) && x.hand == k
    ensures InHandOrder(sounds + [x], k + 1)
  {
    var all := sounds + [x];
    assert forall p :: 0 <= p < |sounds| ==> all[p] == sounds[p];
  }

  lemma PlayHandOrder(acc: (Tracker, seq<Sound>), res: Results, b: ZoneBounds, n: int, cfg: Config, h: nat)
    requires h < |res.multiHandLandmarks| && CompleteHands(res) && NonDegenerate(b)
    requires InHandOrder(acc.1, h)
    ensures InHandOrder(PlayHand(acc, res, b, n, cfg, h).1, h + 1)
  {
    var step := HandStep(acc.0, res.multiHandLandmarks[h], Label(res, h), b, n, cfg);
    if step.1.Some? {
      var e := step.1.value;
      InHandOrderAppend(acc.1, Sound(h, e), h);
    }
  }

  /** A frame's sounds come one per strumming hand at most, in list order. */
  lemma {:induction false} PrefixInHandOrder(t: Tracker, res: Results, b: ZoneBounds, n: int, cfg: Config, k: nat)
    requires k <= |res.multiHandLandmarks| && CompleteHands(res) && NonDegenerate(b)
    ensures InHandOrder(ProcessPrefix(t, res, b, n, cfg, k).1, k)
  {
    if k > 0 {
      PrefixInHandOrder(t, res, b, n, cfg, k - 1);
      PrefixStep(t, res, b, n, cfg, k);
      PlayHandOrder(ProcessPrefix(t, res, b, n, cfg, k - 1), res, b, n, cfg, k - 1);
    }
  }

  /** `processResults`: nothing happens in a frame without hands; otherwise
      every hand is processed in list order. */
  function ProcessResults(t: Tracker, res: Results, b: ZoneBounds, n: int, cfg: Config): (r: (Tracker, seq<Sound>))
    requires CompleteHands(res) && (|res.multiHandLandmarks| > 0 ==> NonDegenerate(b))
    ensures |res.multiHandLandmarks| == 0 ==> r == (t, [])
    ensures |res.multiHandLandmarks| > 0 ==> r == ProcessPrefix(t, res, b, n, cfg, |res.multiHandLandmarks|)
  {
    if |res.multiHandLandmarks| == 0 then (t, [])
    else ProcessPrefix(t, res, b, n, cfg, |res.multiHandLandmarks|)
  }

  /** `handleHandResults`: derive the zone once, process the hands with it
      and the given string count, then clear the fretted map. The zone
      size is divided by only once a hand is mapped into the zone. */
  function HandleHandResults(t: Tracker, cfg: Config, res: Results, n: int): (r: (Tracker, seq<Sound>))
    requires CompleteHands(res) && (|res.multiHandLandmarks| > 0 ==> cfg.zoneSize != 0.0)
    ensures r.0.fretted == map[]
    ensures |res.multiHandLandmarks| == 0 ==> r.0.strum == t.strum && r.1 == []
    ensures |r.1| <= |res.multiHandLandmarks|
  {
    var b := GetZoneBounds(cfg);
    var (t', sounds) := ProcessResults(t, res, b, n, cfg);
    (t'.(fretted := ResetFrettedNotes(t'.fretted)), sounds)
  }

  /** The sounds of a frame: at most one per strumming hand, in list
      order, each on a string below `n` playing that string's note at its
      fret. */
  lemma FrameSounds(t: Tracker, cfg: Config, res: Results, n: int)
    requires cfg.zoneSize != 0.0 && CompleteHands(res)
    ensures StrummedBy(res, cfg.mirrorCamera, n, |res.multiHandLandmarks|, HandleHandResults(t, cfg, res, n).1)
    ensures InHandOrder(HandleHandResults(t, cfg, res, n).1, |res.multiHandLandmarks|)
  {
    PrefixStrummed(t, res, GetZoneBounds(cfg), n, cfg, |res.multiHandLandmarks|);
    PrefixInHandOrder(t, res, GetZoneBounds(cfg), n, cfg, |res.multiHandLandmarks|);
  }

  /** Once a frame has ended, the next frame's strums see no fret unless a
      fretting hand precedes them in that frame's list: a strumming hand
      listed first always sounds the open string. */
  lemma {:induction false} OpenUnlessFrettedEarlier(start: map<int, int>, res: Results, b: ZoneBounds, n: int, cfg: Config, k: nat)
    requires k <= |res.multiHandLandmarks| && CompleteHands(res) && NonDegenerate(b)
    requires start == map[] && NoLeftBefore(res, cfg.mirrorCamera, k)
    ensures forall s :: FretAt(FrettedBefore(start, res, b, n, cfg, k), s) == 0
  {
    if k > 0 {
      OpenUnlessFrettedEarlier(start, res, b, n, cfg, k - 1);
    }
  }

  /** Every sound of a frame that starts with a cleared fretted map either
      plays fret 0 or follows a fretting hand earlier in the list. */
  lemma FretNeedsEarlierLeftHand(t: Tracker, cfg: Config, res: Results, n: int)
    requires cfg.zoneSize != 0.0 && CompleteHands(res) && t.fretted == map[]
    ensures var sounds := HandleHandResults(t, cfg, res, n).1;
            forall p :: 0 <= p < |sounds| && sounds[p].event.fret != 0 ==>
              exists h :: 0 <= h < sounds[p].hand && IsUserLeft(cfg.mirrorCamera, Label(res, h))
  {
    var b := GetZoneBounds(cfg);
    SoundFrets(t, res, b, n, cfg, |res.multiHandLandmarks|);
    EarlierLeftHand(res, b, n, cfg, HandleHandResults(t, cfg, res, n).1);
  }

  lemma EarlierLeftHand(res: Results, b: ZoneBounds, n: int, cfg: Config, sounds: seq<Sound>)
    requires CompleteHands(res) && NonDegenerate(b)
    requires FretsAsHeld(map[], res, b, n, cfg, sounds)
    ensures forall p :: 0 <= p < |sounds| && sounds[p].event.fret != 0 ==>
              exists h :: 0 <= h < sounds[p].hand && IsUserLeft(cfg.mirrorCamera, Label(res, h))
  {
    forall p | 0 <= p < |sounds| && sounds[p].event.fret != 0
      ensures exists h :: 0 <= h < sounds[p].hand && IsUserLeft(cfg.mirrorCamera, Label(res, h))
    {
      if NoLeftBefore(res, cfg.mirrorCamera, sounds[p].hand) {
        OpenUnlessFrettedEarlier(map[], res, b, n, cfg, sounds[p].hand);
        assert false;
      }
    }
  }

  /** Frets held on the map are never negative, so neither is a sounded fret. */
  lemma {:induction false} FrettedNonNegative(start: map<int, int>, res: Results, b: ZoneBounds, n: int, cfg: Config, k: nat)
    requires k <= |res.multiHandLandmarks| && CompleteHands(res) && NonDegenerate(b)
    requires forall s :: s in start ==> start[s] >= 0
    ensures forall s :: FretAt(FrettedBefore(start, res, b, n, cfg, k), s) >= 0
  {
    if k > 0 {
      if IsUserLeft(cfg.mirrorCamera, Label(res, k - 1)) {
        ProcessFrettingRange(res.multiHandLandmarks[k - 1], b, n, cfg.frets, cfg.mode);
      } else {
        FrettedNonNegative(start, res, b, n, cfg, k - 1);
      }
    }
  }

  /** `handleStrum`: the note a strum event plays is looked up by string
      and fret in the tuning the registered callback captured (the
      `Session` module relates it to the live store). */
  function HandleStrum(tuning: seq<TuningNote>, e: StrumEvent): (note: string)
  {
    GetNoteAtFret(tuning, e.stringIdx, e.fret)
  }

  /** End to end: from a fretted map with no negative fret (such as the
      empty map every frame leaves behind) and a tuning of well-formed notes
      covering the strings, the `p`-th strum of a frame is on a string below
      `n`, at a fret not below 0, and plays the open string's note raised by
      the fret, as an absolute semitone. */
  lemma SoundIsTuned(t: Tracker, cfg: Config, tuning: seq<TuningNote>, res: Results, n: int, p: nat)
    requires cfg.zoneSize != 0.0 && CompleteHands(res)
    requires forall s :: s in t.fretted ==> t.fretted[s] >= 0
    requires n <= |tuning| && forall i :: 0 <= i < |tuning| ==> WellFormedNote(NOTES, tuning[i].note)
    requires p < |HandleHandResults(t, cfg, res, n).1|
    ensures IsTuned(tuning, n, HandleHandResults(t, cfg, res, n).1[p].event)
  {
    FrameFretsNonNegative(t, cfg, res, n);
    FrameSounds(t, cfg, res, n);
    TunedStrum(tuning, n, HandleHandResults(t, cfg, res, n).1[p].event);
  }

  /** Event `e` is on a string below `n`, at a fret not below 0, and plays
      the open string's note raised by the fret, as an absolute semitone. */
  predicate IsTuned(tuning: seq<TuningNote>, n: int, e: StrumEvent)
    requires n <= |tuning| && forall i :: 0 <= i < |tuning| ==> WellFormedNote(NOTES, tuning[i].note)
  {
    && 0 <= e.stringIdx < n
    && e.fret >= 0
    && HandleStrum(tuning, e) == NoteOfSemitone(NOTES, Semitone(NOTES, tuning[e.stringIdx].note) + e.fret)
  }

  /** A frame that starts with no negative fret held sounds no negative fret. */
  lemma FrameFretsNonNegative(t: Tracker, cfg: Config, res: Results, n: int)
    requires cfg.zoneSize != 0.0 && CompleteHands(res)
    requires forall s :: s in t.fretted ==> t.fretted[s] >= 0
    ensures var sounds := HandleHandResults(t, cfg, res, n).1;
            forall p :: 0 <= p < |sounds| ==> sounds[p].event.fret >= 0
  {
    var b := GetZoneBounds(cfg);
    SoundFrets(t, res, b, n, cfg, |res.multiHandLandmarks|);
    SoundFretsNonNegative(t.fretted, res, b, n, cfg, HandleHandResults(t, cfg, res, n).1);
  }

  lemma SoundFretsNonNegative(start: map<int, int>, res: Results, b: ZoneBounds, n: int, cfg: Config, sounds: seq<Sound>)
    requires CompleteHands(res) && NonDegenerate(b)
    requires forall s :: s in start ==> start[s] >= 0
    requires FretsAsHeld(start, res, b, n, cfg, sounds)
    ensures forall p :: 0 <= p < |sounds| ==> sounds[p].event.fret >= 0
  {
    forall p | 0 <= p < |sounds|
      ensures sounds[p].event.fret >= 0
    {
      FrettedNonNegative(start, res, b, n, cfg, sounds[p].hand);
    }
  }

  /** A strum on an existing string at a fret not below 0 plays the open
      string's note raised by the fret. */
  lemma TunedStrum(tuning: seq<TuningNote>, n: int, e: StrumEvent)
    requires n <= |tuning| && forall i :: 0 <= i < |tuning| ==> WellFormedNote(NOTES, tuning[i].note)
    requires 0 <= e.stringIdx < n && e.fret >= 0
    ensures IsTuned(tuning, n, e)
  {
    NoteAtFretSemitone(tuning, e.stringIdx, e.fret);
  }

  /** Fretting forgets the previous map: the same hand gives the same map
      whatever was held before, so a fretting step is idempotent. */
  lemma FretStepIdempotent(t1: Tracker, t2: Tracker, landmarks: seq<Landmark>, tag: Option<string>, b: ZoneBounds, n: int, cfg: Config)
    requires |landmarks| > 20 && NonDegenerate(b) && IsUserLeft(cfg.mirrorCamera, tag)
    requires t1.strum == t2.strum
    ensures HandStep(t1, landmarks, tag, b, n, cfg) == HandStep(t2, landmarks, tag, b, n, cfg)
    ensures var r := HandStep(t1, landmarks, tag, b, n, cfg);
            HandStep(r.0, landmarks, tag, b, n, cfg) == r
  {
  }

  /** With every hand fretting, the strum state is untouched and nothing sounds. */
  lemma {:induction false} AllFrettingPrefix(t: Tracker, res: Results, b: ZoneBounds, n: int, cfg: Config, k: nat)
    requires k <= |res.multiHandLandmarks| && CompleteHands(res) && NonDegenerate(b)
    requires forall h :: 0 <= h < k ==> IsUserLeft(cfg.mirrorCamera, Label(res, h))
    ensures ProcessPrefix(t, res, b, n, cfg, k).0.strum == t.strum
    ensures ProcessPrefix(t, res, b, n, cfg, k).1 == []
  {
    if k > 0 {
      AllFrettingPrefix(t, res, b, n, cfg, k - 1);
      PrefixStep(t, res, b, n, cfg, k);
      FrettingHandIsSilent(ProcessPrefix(t, res, b, n, cfg, k - 1), res, b, n, cfg, k - 1);
    }
  }

  lemma FrettingHandIsSilent(acc: (Tracker, seq<Sound>), res: Results, b: ZoneBounds, n: int, cfg: Config, h: nat)
    requires h < |res.multiHandLandmarks| && CompleteHands(res) && NonDegenerate(b)
    requires IsUserLeft(cfg.mirrorCamera, Label(res, h))
    ensures PlayHand(acc, res, b, n, cfg, h).0.strum == acc.0.strum
    ensures PlayHand(acc, res, b, n, cfg, h).1 == acc.1
  {
  }

  /** A frame whose hands all fret changes no strum state and sounds nothing. */
  lemma FrettingOnlyFrameIsSilent(t: Tracker, cfg: Config, res: Results, n: int)
    requires cfg.zoneSize != 0.0 && CompleteHands(res)
    requires forall h :: 0 <= h < |res.multiHandLandmarks| ==> IsUserLeft(cfg.mirrorCamera, Label(res, h))
    ensures HandleHandResults(t, cfg, res, n) == (Tracker(map[], t.strum), [])
  {
    AllFrettingPrefix(t, res, GetZoneBounds(cfg), n, cfg, |res.multiHandLandmarks|);
  }

  /** Every velocity in `sounds` lies in (0, 1]. */
  predicate VelocitiesInRange(sounds: seq<Sound>)
  {
    forall p :: 0 <= p < |sounds| ==> 0.0 < sounds[p].event.velocity <= 1.0
  }

  lemma VelocitiesAppend(sounds: seq<Sound>, x: Sound)
    requires VelocitiesInRange(sounds) && 0.0 < x.event.velocity <= 1.0
    ensures VelocitiesInRange(sounds + [x])
  {
    assert forall p :: 0 <= p < |sounds| ==> (sounds + [x])[p] == sounds[p];
  }

  /** Every velocity a frame emits lies in (0, 1] when the sensitivity is
      not negative. */
  lemma {:induction false} SoundVelocities(t: Tracker, res: Results, b: ZoneBounds, n: int, cfg: Config, k: nat)
    requires k <= |res.multiHandLandmarks| && CompleteHands(res) && NonDegenerate(b)
    requires cfg.strumSensitivity >= 0.0
    ensures VelocitiesInRange(ProcessPrefix(t, res, b, n, cfg, k).1)
  {
    if k > 0 {
      SoundVelocities(t, res, b, n, cfg, k - 1);
      PrefixStep(t, res, b, n, cfg, k);
      PlayHandVelocities(ProcessPrefix(t, res, b, n, cfg, k - 1), res, b, n, cfg, k - 1);
    }
  }

  lemma PlayHandVelocities(acc: (Tracker, seq<Sound>), res: Results, b: ZoneBounds, n: int, cfg: Config, h: nat)
    requires h < |res.multiHandLandmarks| && CompleteHands(res) && NonDegenerate(b)
    requires cfg.strumSensitivity >= 0.0 && VelocitiesInRange(acc.1)
    ensures VelocitiesInRange(PlayHand(acc, res, b, n, cfg, h).1)
  {
    var step := HandStep(acc.0, res.multiHandLandmarks[h], Label(res, h), b, n, cfg);
    if step.1.Some? {
      var e := step.1.value;
      VelocitiesAppend(acc.1, Sound(h, e));
    }
  }
}
