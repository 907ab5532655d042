/** Strumming: a per-string state machine over the strumming hand's index
    fingertip. A string fires when the fingertip, inside the string's band,
    has moved far enough since the previous sample and the string is not
    cooling down. */
module Strumming {
  import opened Types
  import opened JsMath
  import opened Zone
  import opened Fretting

  /** The strumming fingertip: the index finger's tip. */
  const INDEX_TIP: nat := 8

  /** Velocity is the travel since the last sample scaled by this, capped at 1. */
  const VELOCITY_GAIN: real := 25.0

  /** Per-string strum memory. `lastPos` holds the previous in-band
      position of each string; a string absent from it has none (the
      source's `undefined`). `cooldown` holds the strings that fired and
      have not been released yet. */
  datatype StrumState = StrumState(lastPos: map<int, real>, cooldown: set<int>)

  const INITIAL_STRUM: StrumState := StrumState(map[], {})

  datatype StrumEvent = StrumEvent(stringIdx: int, fret: int, velocity: real)

  /** What one strumming call leaves behind: the new state and at most one event. */
  datatype StrumResult = StrumResult(state: StrumState, event: Option<StrumEvent>)

  /** The two zone coordinates a strumming pass reads: `band` selects the
      string, `motion` is the coordinate whose change is the strum. */
  datatype Axes = Axes(band: real, motion: real)

  function LastPos(s: StrumState, i: int): Option<real>
  {
    if i in s.lastPos then Some(s.lastPos[i]) else None
  }

  /** The fingertip is within `stringDetectionWidth` of the centre of string
      `i` of `n`, the centre being `(i + 0.5) / n`. */
  predicate InBand(band: real, i: int, n: int, width: real)
    requires n >= 1
  {
    Abs(band - (i as real + 0.5) / n as real) < width
  }

  /** String `i` fires on this sample: in band, with a previous position,
      moved by more than the sensitivity, and not cooling down. */
  predicate Fires(s: StrumState, a: Axes, n: int, cfg: Config, i: int)
    requires n >= 1
  {
    && InBand(a.band, i, n, cfg.stringDetectionWidth)
    && i in s.lastPos
    && Abs(a.motion - s.lastPos[i]) > cfg.strumSensitivity
    && i !in s.cooldown
  }

  /** `Math.min(1, velocity * 25)`. */
  function Velocity(raw: real): (v: real)
    ensures v <= 1.0
    ensures raw > 0.0 ==> v > 0.0
    ensures raw >= 1.0 / VELOCITY_GAIN ==> v == 1.0
    ensures raw * VELOCITY_GAIN <= 1.0 ==> v == raw * VELOCITY_GAIN
  {
    MinReal(1.0, raw * VELOCITY_GAIN)
  }

  /** The event string `i` produces when it fires. */
  function EventOf(s: StrumState, fretted: map<int, int>, a: Axes, i: int): StrumEvent
    requires i in s.lastPos
  {
    StrumEvent(i, FretAt(fretted, i), Velocity(Abs(a.motion - s.lastPos[i])))
  }

  /** Where string `j`'s last position stands after it has been visited. */
  function Visited(a: Axes, n: int, cfg: Config, j: int): Option<real>
    requires n >= 1
  {
    if InBand(a.band, j, n, cfg.stringDetectionWidth) then Some(a.motion) else None
  }

  /** The loop over strings `i, i+1, ..., n-1` of one strumming call: a
      string out of band forgets its position, one in band records it, and
      the first string that fires records it, enters cooldown and ends
      the call with its event. */
  function Scan(s: StrumState, fretted: map<int, int>, a: Axes, n: int, cfg: Config, i: nat): (r: StrumResult)
    requires n >= 1
    decreases n - i, 1
    ensures i >= n ==> r == StrumResult(s, None)
  {
    if i >= n then StrumResult(s, None) else Visit(s, fretted, a, n, cfg, i)
  }

  function Visit(s: StrumState, fretted: map<int, int>, a: Axes, n: int, cfg: Config, i: nat): (r: StrumResult)
    requires n >= 1 && i < n
    decreases n - i, 0
  {
    if InBand(a.band, i, n, cfg.stringDetectionWidth) then
      var s' := s.(lastPos := s.lastPos[i := a.motion]);
      if Fires(s, a, n, cfg, i) then
        StrumResult(s'.(cooldown := s.cooldown + {i}), Some(EventOf(s, fretted, a, i)))
      else
        Scan(s', fretted, a, n, cfg, i + 1)
    else
      Scan(s.(lastPos := s.lastPos - {i}), fretted, a, n, cfg, i + 1)
  }

  /** What the loop from string `i` does: it emits nothing exactly when no
      string from `i` on fires, and otherwise the event of the first string
      that fires; every string it passed records whether it was in band,
      the others keep their positions; only the fired string enters
      cooldown. */
  lemma {:induction false} ScanSpec(s: StrumState, fretted: map<int, int>, a: Axes, n: int, cfg: Config, i: nat)
    requires n >= 1
    decreases n - i
    ensures var r := Scan(s, fretted, a, n, cfg, i);
      && (r.event.None? <==> forall j :: i <= j < n ==> !Fires(s, a, n, cfg, j))
      && (r.event.Some? ==>
            var k := r.event.value.stringIdx;
            && i <= k < n
            && Fires(s, a, n, cfg, k)
            && (forall j :: i <= j < k ==> !Fires(s, a, n, cfg, j))
            && r.event.value == EventOf(s, fretted, a, k))
      && (var stop := if r.event.Some? then r.event.value.stringIdx + 1 else n;
          && (forall j :: i <= j < stop ==> LastPos(r.state, j) == Visited(a, n, cfg, j))
          && (forall j :: !(i <= j < stop) ==> LastPos(r.state, j) == LastPos(s, j)))
      && r.state.cooldown == s.cooldown + (if r.event.Some? then {r.event.value.stringIdx} else {})
  {
    if i < n {
      var s' := if InBand(a.band, i, n, cfg.stringDetectionWidth) then s.(lastPos := s.lastPos[i := a.motion])
                else s.(lastPos := s.lastPos - {i});
      assert LastPos(s', i) == Visited(a, n, cfg, i);
      if !Fires(s, a, n, cfg, i) {
        assert Scan(s, fretted, a, n, cfg, i) == Visit(s, fretted, a, n, cfg, i) == Scan(s', fretted, a, n, cfg, i + 1);
        ScanSpec(s', fretted, a, n, cfg, i + 1);
        SameFiring(s, s', a, n, cfg, i);
      }
    }
  }

  /** Strings other than `i` fire in `s'` exactly when they fire in `s`. */
  lemma SameFiring(s: StrumState, s': StrumState, a: Axes, n: int, cfg: Config, i: int)
    requires n >= 1 && s'.cooldown == s.cooldown
    requires forall j :: j != i ==> LastPos(s', j) == LastPos(s, j)
    ensures forall j :: j != i ==> (Fires(s', a, n, cfg, j) <==> Fires(s, a, n, cfg, j))
    ensures forall j :: j != i && j in s.lastPos ==> j in s'.lastPos && s'.lastPos[j] == s.lastPos[j]
  {
    forall j | j != i
      ensures j in s'.lastPos <==> j in s.lastPos
      ensures j in s.lastPos ==> s'.lastPos[j] == s.lastPos[j]
    {
      assert LastPos(s', j) == LastPos(s, j);
    }
  }

  /** One strumming pass over strings `0 .. n-1`. No strings, no pass. */
  function Strum(s: StrumState, fretted: map<int, int>, a: Axes, n: int, cfg: Config): (r: StrumResult)
    ensures n <= 0 ==> r == StrumResult(s, None)
  {
    if n <= 0 then StrumResult(s, None) else Scan(s, fretted, a, n, cfg, 0)
  }

  /** `processNormalStrumming`: strings lie across the zone's width, the
      strum is vertical motion. */
  function ProcessNormalStrumming(s: StrumState, fretted: map<int, int>, landmarks: seq<Landmark>, b: ZoneBounds, n: int, cfg: Config): (r: StrumResult)
    requires |landmarks| > INDEX_TIP && NonDegenerate(b)
  {
    var p := NormalizeToZone(landmarks[INDEX_TIP], b);
    Strum(s, fretted, Axes(p.x, p.y), n, cfg)
  }

  /** `processProStrumming`: only the right half of the zone strums; the
      strings lie down its height and the zone y is both the band
      coordinate and the strum motion. */
  function ProcessProStrumming(s: StrumState, fretted: map<int, int>, landmarks: seq<Landmark>, b: ZoneBounds, n: int, cfg: Config): (r: StrumResult)
    requires |landmarks| > INDEX_TIP && NonDegenerate(b)
    ensures NormalizeToZone(landmarks[INDEX_TIP], b).x < 0.5 ==> r == StrumResult(s, None)
  {
    var p := NormalizeToZone(landmarks[INDEX_TIP], b);
    if p.x < 0.5 then StrumResult(s, None) else Strum(s, fretted, Axes(p.y, p.y), n, cfg)
  }

  /** The cooldown timer of string `i` running out. */
  function ExpireCooldown(s: StrumState, i: int): (r: StrumState)
    ensures r.lastPos == s.lastPos
    ensures i !in r.cooldown && forall j :: j != i ==> (j in r.cooldown <==> j in s.cooldown)
  {
    s.(cooldown := s.cooldown - {i})
  }

  /** An emitted velocity lies in (0, 1] when the sensitivity is not negative. */
  lemma VelocityInRange(s: StrumState, fretted: map<int, int>, a: Axes, n: int, cfg: Config)
    ensures var r := Strum(s, fretted, a, n, cfg);
            r.event.Some? && cfg.strumSensitivity >= 0.0 ==> 0.0 < r.event.value.velocity <= 1.0
  {
    if n >= 1 {
      ScanSpec(s, fretted, a, n, cfg, 0);
    }
  }

  /** An emitted event names a string below `n` and carries the fret held
      on it. */
  lemma EventOnHeldFret(s: StrumState, fretted: map<int, int>, a: Axes, n: int, cfg: Config)
    ensures var r := Strum(s, fretted, a, n, cfg);
            r.event.Some? ==> 0 <= r.event.value.stringIdx < n && r.event.value.fret == FretAt(fretted, r.event.value.stringIdx)
  {
    if n >= 1 {
      ScanSpec(s, fretted, a, n, cfg, 0);
    }
  }

  /** In normal mode the strummed string is one whose band holds the
      fingertip's zone x, and the strum is its motion along zone y. */
  lemma NormalStrumBand(s: StrumState, fretted: map<int, int>, landmarks: seq<Landmark>, b: ZoneBounds, n: int, cfg: Config)
    requires |landmarks| > INDEX_TIP && NonDegenerate(b)
    ensures var p := NormalizeToZone(landmarks[INDEX_TIP], b);
            var r := ProcessNormalStrumming(s, fretted, landmarks, b, n, cfg);
            r.event.Some? ==>
              var i := r.event.value.stringIdx;
              && n >= 1
              && InBand(p.x, i, n, cfg.stringDetectionWidth)
              && i in s.lastPos && Abs(p.y - s.lastPos[i]) > cfg.strumSensitivity
  {
    if n >= 1 {
      var p := NormalizeToZone(landmarks[INDEX_TIP], b);
      ScanSpec(s, fretted, Axes(p.x, p.y), n, cfg, 0);
    }
  }

  /** In pro mode only the right half strums: the strummed string is one
      whose band holds the fingertip's zone y, moved along zone y, with the
      fingertip at zone x 0.5 or more. */
  lemma ProStrumBand(s: StrumState, fretted: map<int, int>, landmarks: seq<Landmark>, b: ZoneBounds, n: int, cfg: Config)
    requires |landmarks| > INDEX_TIP && NonDegenerate(b)
    ensures var p := NormalizeToZone(landmarks[INDEX_TIP], b);
            var r := ProcessProStrumming(s, fretted, landmarks, b, n, cfg);
            r.event.Some? ==>
              var i := r.event.value.stringIdx;
              && n >= 1 && p.x >= 0.5
              && InBand(p.y, i, n, cfg.stringDetectionWidth)
              && i in s.lastPos && Abs(p.y - s.lastPos[i]) > cfg.strumSensitivity
  {
    var p := NormalizeToZone(landmarks[INDEX_TIP], b);
    if n >= 1 && p.x >= 0.5 {
      ScanSpec(s, fretted, Axes(p.y, p.y), n, cfg, 0);
    }
  }

  /** A string without a previous position does not fire: the first sample
      after entering the band only arms it. */
  lemma FirstSampleArms(s: StrumState, fretted: map<int, int>, a: Axes, n: int, cfg: Config, i: int)
    requires n >= 1 && 0 <= i < n && i !in s.lastPos
    ensures !Fires(s, a, n, cfg, i)
    ensures var r := Strum(s, fretted, a, n, cfg);
            r.event.None? || r.event.value.stringIdx != i
  {
    ScanSpec(s, fretted, a, n, cfg, 0);
  }

  /** A string cooling down does not fire, however fast the strum. */
  lemma CooldownSuppresses(s: StrumState, fretted: map<int, int>, a: Axes, n: int, cfg: Config, i: int)
    requires n >= 1 && i in s.cooldown
    ensures var r := Strum(s, fretted, a, n, cfg);
            r.event.None? || r.event.value.stringIdx != i
  {
    ScanSpec(s, fretted, a, n, cfg, 0);
  }

  /** Firing puts the string into cooldown, so the very next sample cannot
      fire it again until `ExpireCooldown` releases it. */
  lemma FiredStringCoolsDown(s: StrumState, fretted: map<int, int>, a1: Axes, a2: Axes, n: int, cfg: Config)
    requires n >= 1
    requires Strum(s, fretted, a1, n, cfg).event.Some?
    ensures var r1 := Strum(s, fretted, a1, n, cfg);
            var k := r1.event.value.stringIdx;
            var r2 := Strum(r1.state, fretted, a2, n, cfg);
            k in r1.state.cooldown && (r2.event.None? || r2.event.value.stringIdx != k)
  {
    ScanSpec(s, fretted, a1, n, cfg, 0);
    var r1 := Strum(s, fretted, a1, n, cfg);
    ScanSpec(r1.state, fretted, a2, n, cfg, 0);
  }

  /** A sequence of strumming samples, with the events they emit in order. */
  function Replay(s: StrumState, fretted: map<int, int>, samples: seq<Axes>, n: int, cfg: Config): (r: (StrumState, seq<StrumEvent>))
    ensures |r.1| <= |samples|
  {
    if |samples| == 0 then (s, [])
    else
      var (s', evs) := Replay(s, fretted, samples[..|samples| - 1], n, cfg);
      var step := Strum(s', fretted, samples[|samples| - 1], n, cfg);
      (step.state, evs + match step.event case None => [] case Some(e) => [e])
  }

  /** The strings a list of events names. */
  function EventStrings(evs: seq<StrumEvent>): set<int>
  {
    if |evs| == 0 then {} else EventStrings(evs[..|evs| - 1]) + {evs[|evs| - 1].stringIdx}
  }

  /** No string is named twice. */
  predicate DistinctStrings(evs: seq<StrumEvent>)
  {
    forall p, q :: 0 <= p < q < |evs| ==> evs[p].stringIdx != evs[q].stringIdx
  }

  /** One pass adds to the cooldown exactly the string it fires, which was
      not cooling down before. */
  lemma StrumCooldown(s: StrumState, fretted: map<int, int>, a: Axes, n: int, cfg: Config)
    ensures var r := Strum(s, fretted, a, n, cfg);
            && r.state.cooldown == s.cooldown + (if r.event.Some? then {r.event.value.stringIdx} else {})
            && (r.event.Some? ==> r.event.value.stringIdx !in s.cooldown)
  {
    if n >= 1 {
      ScanSpec(s, fretted, a, n, cfg, 0);
    }
  }

  lemma {:induction false} EventStringsMember(evs: seq<StrumEvent>, x: int)
    ensures x in EventStrings(evs) <==> exists p :: 0 <= p < |evs| && evs[p].stringIdx == x
  {
    if |evs| > 0 {
      var init := evs[..|evs| - 1];
      EventStringsMember(init, x);
      if x in EventStrings(init) {
        var p :| 0 <= p < |init| && init[p].stringIdx == x;
        assert evs[p].stringIdx == x;
      }
      if exists p :: 0 <= p < |evs| && evs[p].stringIdx == x {
        var p :| 0 <= p < |evs| && evs[p].stringIdx == x;
        if p < |init| {
          assert init[p].stringIdx == x;
        }
      }
    }
  }

  /** Without cooldown releases in between, every string fires at most once:
      the events of a replay name distinct strings, none cooling down at the
      start, and the cooldown set grows by exactly those strings. */
  lemma {:induction false} ReplayFiresOncePerString(s: StrumState, fretted: map<int, int>, samples: seq<Axes>, n: int, cfg: Config)
    ensures var (s', evs) := Replay(s, fretted, samples, n, cfg);
            && DistinctStrings(evs)
            && EventStrings(evs) !! s.cooldown
            && s'.cooldown == s.cooldown + EventStrings(evs)
  {
    if |samples| > 0 {
      var init := samples[..|samples| - 1];
      ReplayFiresOncePerString(s, fretted, init, n, cfg);
      var (s1, evs) := Replay(s, fretted, init, n, cfg);
      var step := Strum(s1, fretted, samples[|samples| - 1], n, cfg);
      StrumCooldown(s1, fretted, samples[|samples| - 1], n, cfg);
      CooldownStep(s.cooldown, s1, evs, step);
    }
  }

  /** One more pass keeps the replay invariant: the events stay on distinct
      strings that were not cooling down at the start, and the cooldown
      set is the starting one plus those strings. */
  lemma CooldownStep(cooldown: set<int>, s1: StrumState, evs: seq<StrumEvent>, step: StrumResult)
    requires DistinctStrings(evs) && EventStrings(evs) !! cooldown
    requires s1.cooldown == cooldown + EventStrings(evs)
    requires step.state.cooldown == s1.cooldown + (if step.event.Some? then {step.event.value.stringIdx} else {})
    requires step.event.Some? ==> step.event.value.stringIdx !in s1.cooldown
    ensures var evs' := evs + match step.event case None => [] case Some(e) => [e];
            && DistinctStrings(evs')
            && EventStrings(evs') !! cooldown
            && step.state.cooldown == cooldown + EventStrings(evs')
  {
    if step.event.Some? {
      AppendEvent(evs, step.event.value);
    } else {
      assert evs + [] == evs;
    }
  }

  lemma AppendEvent(evs: seq<StrumEvent>, e: StrumEvent)
    requires DistinctStrings(evs) && e.stringIdx !in EventStrings(evs)
    ensures DistinctStrings(evs + [e])
    ensures EventStrings(evs + [e]) == EventStrings(evs) + {e.stringIdx}
  {
    var evs' := evs + [e];
    assert evs'[..|evs'| - 1] == evs;
    forall p | 0 <= p < |evs|
      ensures evs[p].stringIdx != e.stringIdx
    {
      EventStringsMember(evs, evs[p].stringIdx);
    }
  }

  /** From a state with no recorded positions nothing fires, and every
      string records whether it is in band. */
  lemma ArmOnly(s: StrumState, fretted: map<int, int>, a: Axes, n: int, cfg: Config)
    requires n >= 1 && s.lastPos == map[]
    ensures var r := Strum(s, fretted, a, n, cfg);
            && r.event.None?
            && r.state.cooldown == s.cooldown
            && forall j :: 0 <= j < n ==> LastPos(r.state, j) == Visited(a, n, cfg, j)
  {
    ScanSpec(s, fretted, a, n, cfg, 0);
  }

  /** When string 0 fires, the pass emits its event. */
  lemma FirstStringFires(s: StrumState, fretted: map<int, int>, a: Axes, n: int, cfg: Config)
    requires n >= 1 && Fires(s, a, n, cfg, 0)
    ensures Strum(s, fretted, a, n, cfg).event == Some(EventOf(s, fretted, a, 0))
  {
    ScanSpec(s, fretted, a, n, cfg, 0);
  }

  lemma ScenarioArithmetic()
    ensures InBand(0.0833, 0, 6, 0.14)
    ensures Abs(0.45 - 0.40) > 0.012 && Velocity(Abs(0.45 - 0.40)) == 1.0
  {
  }

  /** The scenario of one clean strum in normal mode: six strings, the
      fingertip on string 0's centre line, moving from 0.40 to 0.45.
      The first sample only arms string 0; the second fires it at full
      velocity with the fret held on it. */
  lemma NormalStrumScenario(cfg: Config, fretted: map<int, int>)
    requires cfg.stringDetectionWidth == 0.14 && cfg.strumSensitivity == 0.012
    ensures var r1 := Strum(INITIAL_STRUM, fretted, Axes(0.0833, 0.40), 6, cfg);
            var r2 := Strum(r1.state, fretted, Axes(0.0833, 0.45), 6, cfg);
            && r1.event.None?
            && r2.event == Some(StrumEvent(0, FretAt(fretted, 0), 1.0))
  {
    var a1, a2 := Axes(0.0833, 0.40), Axes(0.0833, 0.45);
    ArmOnly(INITIAL_STRUM, fretted, a1, 6, cfg);
    var r1 := Strum(INITIAL_STRUM, fretted, a1, 6, cfg);
    ScenarioArithmetic();
    assert LastPos(r1.state, 0) == Some(0.40);
    assert Fires(r1.state, a2, 6, cfg, 0);
    FirstStringFires(r1.state, fretted, a2, 6, cfg);
  }

  /** Releasing the cooldown re-arms a string: a sample that would fire
      string `i` but for its cooldown does not fire it before the release,
      and fires it after the release when no lower string fires first. */
  lemma ReleasedStringFiresAgain(s: StrumState, fretted: map<int, int>, a: Axes, n: int, cfg: Config, i: int)
    requires n >= 1 && 0 <= i < n && i in s.cooldown
    requires InBand(a.band, i, n, cfg.stringDetectionWidth)
    requires i in s.lastPos && Abs(a.motion - s.lastPos[i]) > cfg.strumSensitivity
    requires forall j :: 0 <= j < i ==> !Fires(ExpireCooldown(s, i), a, n, cfg, j)
    ensures var r := Strum(s, fretted, a, n, cfg);
            r.event.None? || r.event.value.stringIdx != i
    ensures Strum(ExpireCooldown(s, i), fretted, a, n, cfg).event == Some(EventOf(s, fretted, a, i))
  {
    ScanSpec(s, fretted, a, n, cfg, 0);
    var s' := ExpireCooldown(s, i);
    assert Fires(s', a, n, cfg, i);
    ScanSpec(s', fretted, a, n, cfg, 0);
  }

  /** The clean strum continued: moving on to 0.50 right away does not fire
      string 0 again while it cools down, and fires it at full velocity
      once its cooldown has been released. */
  lemma ReleaseScenario(cfg: Config, fretted: map<int, int>)
    requires cfg.stringDetectionWidth == 0.14 && cfg.strumSensitivity == 0.012
    ensures var r1 := Strum(INITIAL_STRUM, fretted, Axes(0.0833, 0.40), 6, cfg);
            var r2 := Strum(r1.state, fretted, Axes(0.0833, 0.45), 6, cfg);
            var r3 := Strum(r2.state, fretted, Axes(0.0833, 0.50), 6, cfg);
            var r4 := Strum(ExpireCooldown(r2.state, 0), fretted, Axes(0.0833, 0.50), 6, cfg);
            && (r3.event.None? || r3.event.value.stringIdx != 0)
            && r4.event == Some(StrumEvent(0, FretAt(fretted, 0), 1.0))
  {
    var r1 := Strum(INITIAL_STRUM, fretted, Axes(0.0833, 0.40), 6, cfg);
    CleanStrumState(cfg, fretted);
    ReleaseStep(Strum(r1.state, fretted, Axes(0.0833, 0.45), 6, cfg).state, fretted, cfg);
  }

  /** The state the clean strum leaves: string 0 at 0.45 and cooling down. */
  lemma CleanStrumState(cfg: Config, fretted: map<int, int>)
    requires cfg.stringDetectionWidth == 0.14 && cfg.strumSensitivity == 0.012
    ensures var r1 := Strum(INITIAL_STRUM, fretted, Axes(0.0833, 0.40), 6, cfg);
            var s2 := Strum(r1.state, fretted, Axes(0.0833, 0.45), 6, cfg).state;
            LastPos(s2, 0) == Some(0.45) && 0 in s2.cooldown
  {
    var r1 := Strum(INITIAL_STRUM, fretted, Axes(0.0833, 0.40), 6, cfg);
    NormalStrumScenario(cfg, fretted);
    ScanSpec(r1.state, fretted, Axes(0.0833, 0.45), 6, cfg, 0);
  }

  /** From that state, the move to 0.50 before and after the release. */
  lemma ReleaseStep(s: StrumState, fretted: map<int, int>, cfg: Config)
    requires cfg.stringDetectionWidth == 0.14 && cfg.strumSensitivity == 0.012
    requires LastPos(s, 0) == Some(0.45) && 0 in s.cooldown
    ensures var r := Strum(s, fretted, Axes(0.0833, 0.50), 6, cfg);
            r.event.None? || r.event.value.stringIdx != 0
    ensures Strum(ExpireCooldown(s, 0), fretted, Axes(0.0833, 0.50), 6, cfg).event == Some(StrumEvent(0, FretAt(fretted, 0), 1.0))
  {
    var a := Axes(0.0833, 0.50);
    ScenarioArithmetic();
    assert Velocity(Abs(0.50 - 0.45)) == 1.0;
    ReleasedStringFiresAgain(s, fretted, a, 6, cfg, 0);
  }

  /** Leaving the band and coming back re-arms a string: after a sample out
      of band, the next in-band sample records a position and fires nothing. */
  lemma LeavingBandDisarms(s: StrumState, fretted: map<int, int>, away: Axes, back: Axes, n: int, cfg: Config, i: int)
    requires n >= 1 && 0 <= i < n
    requires !InBand(away.band, i, n, cfg.stringDetectionWidth)
    requires Strum(s, fretted, away, n, cfg).event.None?
    ensures var r1 := Strum(s, fretted, away, n, cfg);
            i !in r1.state.lastPos
            && (var r2 := Strum(r1.state, fretted, back, n, cfg);
                r2.event.None? || r2.event.value.stringIdx != i)
  {
    ScanSpec(s, fretted, away, n, cfg, 0);
    var r1 := Strum(s, fretted, away, n, cfg);
    assert LastPos(r1.state, i) == None;
    ScanSpec(r1.state, fretted, back, n, cfg, 0);
  }
}
