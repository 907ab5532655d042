/** Fretting: the fretting hand's fingertips become a map from string index
    to the highest fret held on that string. */
module Fretting {
  import opened Types
  import opened Defaults
  import opened JsMath
  import opened Zone

  /** A fingertip counts as pressing only when its raw depth is below this. */
  const NEAR_FIELD: real := 0.1

  /** The fingertips that can fret: `FINGER_TIPS.slice(1)`, the thumb skipped. */
  const FRETTING_TIPS: seq<int> := FINGER_TIPS[1..]

  /** One fingertip pressing string `stringIdx` at `fret`. */
  datatype Touch = Touch(stringIdx: int, fret: int)

  /** `Math.max(0, Math.min(n - 1, Math.floor(pos * n)))`: the string a
      zone coordinate falls on, clamped to the strings that exist. */
  function StringIndex(pos: real, n: int): (i: int)
    ensures n >= 1 ==> 0 <= i < n
    ensures n <= 0 ==> i == 0
    ensures n >= 1 && pos < 0.0 ==> i == 0
    ensures n >= 1 && pos >= 1.0 ==> i == n - 1
    ensures n >= 1 && 0.0 <= pos < 1.0 ==> i as real <= pos * n as real < i as real + 1.0
  {
    var f := Floor(pos * n as real);
    ScaledBand(pos, n);
    MaxInt(0, MinInt(n - 1, f))
  }

  /** Where `pos * n` lies relative to `0` and `n`. */
  lemma ScaledBand(pos: real, n: int)
    ensures n >= 1 && pos < 0.0 ==> pos * n as real < 0.0
    ensures n >= 1 && pos >= 1.0 ==> pos * n as real >= n as real
    ensures n >= 1 && 0.0 <= pos < 1.0 ==> 0.0 <= pos * n as real < n as real
  {
    var d := n as real;
    if n < 1 {
    } else if pos < 0.0 {
      assert pos * d == -((-pos) * d);
    } else if pos >= 1.0 {
      assert pos * d - d == (pos - 1.0) * d;
    } else {
      assert d - pos * d == (1.0 - pos) * d;
    }
  }

  /** Normal (vertical) mode: strings run across the zone's width and frets
      down its height, fret `frets` at the top edge. */
  function NormalTouch(lm: Landmark, b: ZoneBounds, n: int, frets: int): (t: Option<Touch>)
    requires NonDegenerate(b)
    ensures t.Some? <==> lm.z < NEAR_FIELD
    ensures t.Some? ==> t.value.stringIdx == StringIndex(NormalizeToZone(lm, b).x, n)
    ensures t.Some? ==> t.value.fret as real - 0.5 <= (1.0 - NormalizeToZone(lm, b).y) * frets as real < t.value.fret as real + 0.5
  {
    var p := NormalizeToZone(lm, b);
    var stringIdx := StringIndex(p.x, n);
    var fret := Round((1.0 - p.y) * frets as real);
    if lm.z < NEAR_FIELD then Some(Touch(stringIdx, fret)) else None
  }

  /** Pro (horizontal) mode: only the left half of the zone frets; strings
      run down its height and frets leftwards, fret `frets` at the left edge. */
  function ProTouch(lm: Landmark, b: ZoneBounds, n: int, frets: int): (t: Option<Touch>)
    requires NonDegenerate(b)
    ensures t.Some? <==> NormalizeToZone(lm, b).x <= 0.5 && lm.z < NEAR_FIELD
    ensures t.Some? ==> t.value.stringIdx == StringIndex(NormalizeToZone(lm, b).y, n)
    ensures t.Some? ==> t.value.fret as real - 0.5 <= (1.0 - NormalizeToZone(lm, b).x / 0.5) * frets as real < t.value.fret as real + 0.5
  {
    var p := NormalizeToZone(lm, b);
    if p.x > 0.5 then None
    else
      var fret := Round((1.0 - p.x / 0.5) * frets as real);
      var stringIdx := StringIndex(p.y, n);
      if lm.z < NEAR_FIELD then Some(Touch(stringIdx, fret)) else None
  }

  function TipTouch(lm: Landmark, b: ZoneBounds, n: int, frets: int, mode: Mode): Option<Touch>
    requires NonDegenerate(b)
  {
    match mode
    case Pro => ProTouch(lm, b, n, frets)
    case Normal => NormalTouch(lm, b, n, frets)
  }

  /** The touches of the given fingertips, in fingertip order. */
  function TouchesOf(landmarks: seq<Landmark>, tips: seq<int>, b: ZoneBounds, n: int, frets: int, mode: Mode): (ts: seq<Touch>)
    requires NonDegenerate(b)
    requires forall k :: 0 <= k < |tips| ==> 0 <= tips[k] < |landmarks|
    ensures |ts| <= |tips|
  {
    if |tips| == 0 then []
    else
      var rest := TouchesOf(landmarks, tips[..|tips| - 1], b, n, frets, mode);
      var last := tips[|tips| - 1];
      match TipTouch(landmarks[last], b, n, frets, mode)
      case None => rest
      case Some(t) => rest + [t]
  }

  /** The touches are exactly those of fingertips that press. */
  lemma {:induction false} TouchesOfMembers(landmarks: seq<Landmark>, tips: seq<int>, b: ZoneBounds, n: int, frets: int, mode: Mode)
    requires NonDegenerate(b)
    requires forall k :: 0 <= k < |tips| ==> 0 <= tips[k] < |landmarks|
    ensures forall t :: t in TouchesOf(landmarks, tips, b, n, frets, mode) <==>
      exists k :: 0 <= k < |tips| && TipTouch(landmarks[tips[k]], b, n, frets, mode) == Some(t)
  {
    if |tips| > 0 {
      var init := tips[..|tips| - 1];
      TouchesOfMembers(landmarks, init, b, n, frets, mode);
      forall t
        ensures t in TouchesOf(landmarks, tips, b, n, frets, mode) <==>
          exists k :: 0 <= k < |tips| && TipTouch(landmarks[tips[k]], b, n, frets, mode) == Some(t)
      {
        if exists k :: 0 <= k < |tips| && TipTouch(landmarks[tips[k]], b, n, frets, mode) == Some(t) {
          var k :| 0 <= k < |tips| && TipTouch(landmarks[tips[k]], b, n, frets, mode) == Some(t);
          if k < |init| {
            assert init[k] == tips[k];
          }
        }
        if t in TouchesOf(landmarks, init, b, n, frets, mode) {
          var k :| 0 <= k < |init| && TipTouch(landmarks[init[k]], b, n, frets, mode) == Some(t);
          assert tips[k] == init[k];
        }
      }
    }
  }

  /** `frettedNotes[s] || 0`: the fret held on string `s`, 0 when none is. */
  function FretAt(m: map<int, int>, s: int): (f: int)
    ensures s !in m ==> f == 0
  {
    if s in m then m[s] else 0
  }

  /** `m[s] = Math.max(m[s] || 0, fret)` for one touch. */
  function Press(m: map<int, int>, t: Touch): (r: map<int, int>)
    ensures r.Keys == m.Keys + {t.stringIdx}
    ensures r[t.stringIdx] == MaxInt(FretAt(m, t.stringIdx), t.fret)
    ensures forall s :: s in m && s != t.stringIdx ==> r[s] == m[s]
  {
    m[t.stringIdx := MaxInt(FretAt(m, t.stringIdx), t.fret)]
  }

  /** Presses the touches in order, left to right. */
  function PressAll(m: map<int, int>, ts: seq<Touch>): map<int, int>
  {
    if |ts| == 0 then m else Press(PressAll(m, ts[..|ts| - 1]), ts[|ts| - 1])
  }

  /** The held-frets map of a list of touches: exactly the touched strings,
      each holding the largest fret pressed on it, floored at 0. */
  ghost predicate HeldFrets(m: map<int, int>, ts: seq<Touch>)
  {
    && (forall s :: s in m <==> exists t :: t in ts && t.stringIdx == s)
    && (forall t :: t in ts ==> t.stringIdx in m && m[t.stringIdx] >= t.fret)
    && (forall s :: s in m ==> m[s] >= 0)
    && (forall s :: s in m ==> m[s] == 0 || exists t :: t in ts && t.stringIdx == s && t.fret == m[s])
  }

  /** Starting from the empty map, pressing the touches gives their held-frets map. */
  lemma {:induction false} PressAllHeldFrets(ts: seq<Touch>)
    ensures HeldFrets(PressAll(map[], ts), ts)
  {
    if |ts| > 0 {
      var init, last := ts[..|ts| - 1], ts[|ts| - 1];
      PressAllHeldFrets(init);
      var m := PressAll(map[], init);
      var r := Press(m, last);
      assert ts == init + [last];
      forall s | s in r
        ensures r[s] == 0 || exists t :: t in ts && t.stringIdx == s && t.fret == r[s]
      {
        if s == last.stringIdx && r[s] == last.fret {
          assert last in ts;
        } else if r[s] != 0 {
          assert s in m && r[s] == m[s];
          var t :| t in init && t.stringIdx == s && t.fret == m[s];
          assert t in ts;
        }
      }
      forall t | t in ts
        ensures t.stringIdx in r && r[t.stringIdx] >= t.fret
      {
        if t != last {
          assert t in init;
        }
      }
      forall s | s in r
        ensures exists t :: t in ts && t.stringIdx == s
      {
        if s != last.stringIdx {
          var t :| t in init && t.stringIdx == s;
          assert t in ts;
        } else {
          assert last in ts;
        }
      }
    }
  }

  /** The held-frets description fixes the map: it is the reference
      definition "max of 0 and every fret pressed on that string". */
  lemma HeldFretsUnique(m1: map<int, int>, m2: map<int, int>, ts: seq<Touch>)
    requires HeldFrets(m1, ts) && HeldFrets(m2, ts)
    ensures m1 == m2
  {
    forall s
      ensures s in m1 <==> s in m2
    {
      assert s in m1 <==> exists t :: t in ts && t.stringIdx == s;
      assert s in m2 <==> exists t :: t in ts && t.stringIdx == s;
    }
    assert m1.Keys == m2.Keys;
    forall s | s in m1
      ensures m1[s] == m2[s]
    {
      assert m2[s] == 0 || exists t :: t in ts && t.stringIdx == s && t.fret == m2[s];
      assert m1[s] == 0 || exists t :: t in ts && t.stringIdx == s && t.fret == m1[s];
    }
  }

  /** The order of the touches does not matter. */
  lemma PressAllOrderFree(ts1: seq<Touch>, ts2: seq<Touch>)
    requires multiset(ts1) == multiset(ts2)
    ensures PressAll(map[], ts1) == PressAll(map[], ts2)
  {
    PressAllHeldFrets(ts1);
    PressAllHeldFrets(ts2);
    forall t
      ensures t in ts1 <==> t in ts2
    {
      assert t in ts1 <==> t in multiset(ts1);
      assert t in ts2 <==> t in multiset(ts2);
    }
    HeldFretsUnique(PressAll(map[], ts1), PressAll(map[], ts2), ts2);
  }

  /** One fretting pass: the map is rebuilt from scratch out of the four
      fretting fingertips (the previous map plays no part). */
  function ProcessFretting(landmarks: seq<Landmark>, b: ZoneBounds, n: int, frets: int, mode: Mode): map<int, int>
    requires |landmarks| > 20 && NonDegenerate(b)
  {
    PressAll(map[], TouchesOf(landmarks, FRETTING_TIPS, b, n, frets, mode))
  }

  /** The fretting map holds frets not below 0, on strings that exist. */
  lemma ProcessFrettingRange(landmarks: seq<Landmark>, b: ZoneBounds, n: int, frets: int, mode: Mode)
    requires |landmarks| > 20 && NonDegenerate(b)
    ensures var m := ProcessFretting(landmarks, b, n, frets, mode);
            && (forall s :: s in m ==> m[s] >= 0)
            && (n >= 1 ==> forall s :: s in m ==> 0 <= s < n)
  {
    PressAllHeldFrets(TouchesOf(landmarks, FRETTING_TIPS, b, n, frets, mode));
    TouchStrings(landmarks, b, n, frets, mode);
  }

  /** The fretting map holds, per string touched by a pressing fingertip,
      the largest fret pressed on it, and nothing else. */
  lemma ProcessFrettingHeldFrets(landmarks: seq<Landmark>, b: ZoneBounds, n: int, frets: int, mode: Mode)
    requires |landmarks| > 20 && NonDegenerate(b)
    ensures HeldFrets(ProcessFretting(landmarks, b, n, frets, mode), TouchesOf(landmarks, FRETTING_TIPS, b, n, frets, mode))
  {
    PressAllHeldFrets(TouchesOf(landmarks, FRETTING_TIPS, b, n, frets, mode));
  }

  /** Every touch lands on an existing string. */
  lemma TouchStrings(landmarks: seq<Landmark>, b: ZoneBounds, n: int, frets: int, mode: Mode)
    requires |landmarks| > 20 && NonDegenerate(b)
    ensures n >= 1 ==> forall t :: t in TouchesOf(landmarks, FRETTING_TIPS, b, n, frets, mode) ==> 0 <= t.stringIdx < n
  {
    TouchesOfMembers(landmarks, FRETTING_TIPS, b, n, frets, mode);
  }

  /** `processNormalFretting`. */
  function ProcessNormalFretting(landmarks: seq<Landmark>, b: ZoneBounds, n: int, frets: int): (m: map<int, int>)
    requires |landmarks| > 20 && NonDegenerate(b)
    ensures forall s :: s in m ==> m[s] >= 0
    ensures n >= 1 ==> forall s :: s in m ==> 0 <= s < n
  {
    ProcessFrettingRange(landmarks, b, n, frets, Normal);
    ProcessFretting(landmarks, b, n, frets, Normal)
  }

  /** `processProFretting`. */
  function ProcessProFretting(landmarks: seq<Landmark>, b: ZoneBounds, n: int, frets: int): (m: map<int, int>)
    requires |landmarks| > 20 && NonDegenerate(b)
    ensures forall s :: s in m ==> m[s] >= 0
    ensures n >= 1 ==> forall s :: s in m ==> 0 <= s < n
  {
    ProcessFrettingRange(landmarks, b, n, frets, Pro);
    ProcessFretting(landmarks, b, n, frets, Pro)
  }

  /** `resetFrettedNotes`. */
  function ResetFrettedNotes(m: map<int, int>): (r: map<int, int>)
    ensures forall s :: FretAt(r, s) == 0
  {
    map[]
  }

  lemma FrettingTips()
    ensures FRETTING_TIPS == [8, 12, 16, 20]
  {
  }

  /** Only the four fretting fingertips matter: the thumb, the knuckles and
      the wrist can move freely without changing the map. */
  lemma OnlyFrettingTipsMatter(l1: seq<Landmark>, l2: seq<Landmark>, b: ZoneBounds, n: int, frets: int, mode: Mode)
    requires |l1| > 20 && |l2| > 20 && NonDegenerate(b)
    requires l1[8] == l2[8] && l1[12] == l2[12] && l1[16] == l2[16] && l1[20] == l2[20]
    ensures ProcessFretting(l1, b, n, frets, mode) == ProcessFretting(l2, b, n, frets, mode)
  {
    FrettingTips();
    TouchesAgree(l1, l2, FRETTING_TIPS, b, n, frets, mode);
  }

  lemma {:induction false} TouchesAgree(l1: seq<Landmark>, l2: seq<Landmark>, tips: seq<int>, b: ZoneBounds, n: int, frets: int, mode: Mode)
    requires NonDegenerate(b)
    requires forall k :: 0 <= k < |tips| ==> 0 <= tips[k] < |l1| && 0 <= tips[k] < |l2| && l1[tips[k]] == l2[tips[k]]
    ensures TouchesOf(l1, tips, b, n, frets, mode) == TouchesOf(l2, tips, b, n, frets, mode)
  {
    if |tips| > 0 {
      TouchesAgree(l1, l2, tips[..|tips| - 1], b, n, frets, mode);
    }
  }

  /** A fingertip at or beyond the depth threshold frets nothing. */
  lemma FarTipIgnored(lm: Landmark, b: ZoneBounds, n: int, frets: int, mode: Mode)
    requires NonDegenerate(b) && lm.z >= NEAR_FIELD
    ensures TipTouch(lm, b, n, frets, mode) == None
  {
  }

  /** Pro mode never frets from the right half of the zone. */
  lemma ProRightHalfIgnored(lm: Landmark, b: ZoneBounds, n: int, frets: int)
    requires NonDegenerate(b) && NormalizeToZone(lm, b).x > 0.5
    ensures ProTouch(lm, b, n, frets) == None
  {
  }

  /** Rounding a point of `[0, frets]` stays in `[0, frets]`. */
  lemma RoundInRange(u: real, frets: int)
    requires frets >= 0 && 0.0 <= u <= 1.0
    ensures 0 <= Round(u * frets as real) <= frets
  {
    var x := u * frets as real;
    assert frets as real - x == (1.0 - u) * frets as real;
    assert 0.0 <= x <= frets as real;
  }

  /** A fingertip inside a proper zone presses a fret in `[0, frets]`. */
  lemma NormalFretInRange(lm: Landmark, b: ZoneBounds, n: int, frets: int)
    requires Valid(b) && InZone(lm, b) && frets >= 0 && lm.z < NEAR_FIELD
    ensures NormalTouch(lm, b, n, frets).Some?
    ensures 0 <= NormalTouch(lm, b, n, frets).value.fret <= frets
  {
    var p := NormalizeToZone(lm, b);
    NormalizeToZoneInverse(lm, b);
    RoundInRange(1.0 - p.y, frets);
  }

  /** The same bound in pro mode, for the fretting half of the zone. */
  lemma ProFretInRange(lm: Landmark, b: ZoneBounds, n: int, frets: int)
    requires Valid(b) && InZone(lm, b) && frets >= 0 && lm.z < NEAR_FIELD
    requires NormalizeToZone(lm, b).x <= 0.5
    ensures ProTouch(lm, b, n, frets).Some?
    ensures 0 <= ProTouch(lm, b, n, frets).value.fret <= frets
  {
    var p := NormalizeToZone(lm, b);
    NormalizeToZoneInverse(lm, b);
    assert 0.0 <= p.x / 0.5 <= 1.0;
    RoundInRange(1.0 - p.x / 0.5, frets);
  }
}
