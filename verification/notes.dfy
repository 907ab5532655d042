/** Note names and the fret-to-note lookup used when a strum sounds.

    The arithmetic is stated for any pitch-name table `names` of twelve
    distinct digit-free names (`PitchTable`); the lookup itself uses the
    table `NOTES`, which is one (`NotesTable`). */
module NoteNames {
  import opened Types
  import opened Defaults
  import opened JsMath
  import opened Decimal

  /** `Array.prototype.indexOf`: first position of `p`, or -1. */
  function IndexOf(names: seq<string>, p: string): (i: int)
    ensures -1 <= i < |names|
    ensures i >= 0 ==> names[i] == p
  {
    IndexFrom(names, p, 0)
  }

  function IndexFrom(names: seq<string>, p: string, k: nat): (i: int)
    requires k <= |names|
    ensures -1 <= i < |names|
    ensures i >= 0 ==> k <= i && names[i] == p
    decreases |names| - k
  {
    if k == |names| then -1
    else if names[k] == p then k
    else IndexFrom(names, p, k + 1)
  }

  /** `indexOf` finds the first occurrence, and gives -1 exactly when `p`
      does not occur. */
  lemma IndexOfFirst(names: seq<string>, p: string)
    ensures IndexOf(names, p) >= 0 ==> forall j :: 0 <= j < IndexOf(names, p) ==> names[j] != p
    ensures IndexOf(names, p) == -1 <==> p !in names
  {
    IndexFromFirst(names, p, 0);
  }

  lemma {:induction false} IndexFromFirst(names: seq<string>, p: string, k: nat)
    requires k <= |names|
    requires forall j :: 0 <= j < k ==> names[j] != p
    ensures IndexFrom(names, p, k) >= 0 ==> forall j :: 0 <= j < IndexFrom(names, p, k) ==> names[j] != p
    ensures IndexFrom(names, p, k) == -1 <==> p !in names
    decreases |names| - k
  {
    if k < |names| && names[k] != p {
      IndexFromFirst(names, p, k + 1);
    }
  }

  predicate NoDigits(s: string)
  {
    forall k :: 0 <= k < |s| ==> !IsDigit(s[k])
  }

  /** What the lookup relies on in its pitch-name table: twelve distinct
      names, none holding a digit. */
  predicate PitchTable(names: seq<string>)
  {
    && |names| == 12
    && (forall i {:trigger IndexOf(names, names[i])} :: 0 <= i < |names| ==> IndexOf(names, names[i]) == i)
    && (forall i {:trigger NoDigits(names[i])} :: 0 <= i < |names| ==> NoDigits(names[i]))
  }

  /** Twelve distinct names without digits make a pitch table. */
  lemma DistinctTable(names: seq<string>)
    requires |names| == 12
    requires forall j, k :: 0 <= j < k < |names| ==> names[j] != names[k]
    requires forall i :: 0 <= i < |names| ==> NoDigits(names[i])
    ensures PitchTable(names)
  {
    forall i | 0 <= i < |names|
      ensures IndexOf(names, names[i]) == i
    {
      IndexOfFirst(names, names[i]);
    }
  }

  /** `NOTES` is a pitch table. */
  lemma NotesTable()
    ensures PitchTable(NOTES)
  {
    NotesDistinct();
    DistinctTable(NOTES);
  }

  /** A pitch name followed by an octave number, e.g. "C#3". */
  function NoteName(names: seq<string>, pitch: nat, octave: nat): string
    requires pitch < |names|
  {
    names[pitch] + NatToString(octave)
  }

  /** The name of absolute semitone `a`, counted from C0. */
  function NoteOfSemitone(names: seq<string>, a: nat): string
    requires |names| == 12
  {
    NoteName(names, a % 12, a / 12)
  }

  /** A tuning note the lookup parses: a pitch of the table then one octave
      digit. */
  predicate WellFormedNote(names: seq<string>, note: string)
  {
    |note| >= 1 && IsDigit(note[|note| - 1]) && IndexOf(names, note[..|note| - 1]) >= 0
  }

  /** Position of a well-formed note's pitch in the table. */
  function PitchIndex(names: seq<string>, note: string): (i: nat)
    requires WellFormedNote(names, note)
    ensures i < |names| && names[i] == note[..|note| - 1]
  {
    IndexOf(names, note[..|note| - 1])
  }

  /** Absolute semitone number of a well-formed note: 12 per octave plus the
      pitch index, so C0 is 0 and E2 is 28. */
  function Semitone(names: seq<string>, note: string): int
    requires WellFormedNote(names, note)
  {
    12 * DigitValue(note[|note| - 1]) + PitchIndex(names, note)
  }

  /** `base.slice(0, -1)`: the note text without its last character. */
  function PitchText(base: string): string
  {
    if |base| == 0 then "" else base[..|base| - 1]
  }

  /** `parseInt(base.slice(-1))`: the last character as a digit, or NaN (None). */
  function OctaveDigit(base: string): Option<nat>
  {
    if |base| == 0 then None else ParseDigit(base[|base| - 1])
  }

  /** Pitch of the note `fret` semitones above open string `stringIdx`.
      A missing string gives "C4". */
  function GetNoteAtFret(tuning: seq<TuningNote>, stringIdx: int, fret: int): (r: string)
    ensures !(0 <= stringIdx < |tuning|) ==> r == "C4"
  {
    if !(0 <= stringIdx < |tuning|) then "C4" else NoteAbove(NOTES, tuning[stringIdx].note, fret)
  }

  /** The note `fret` semitones above the note text `base`. */
  function NoteAbove(names: seq<string>, base: string, fret: int): string
  {
    Transpose(names, IndexOf(names, PitchText(base)), OctaveDigit(base), fret)
  }

  /** The name `fret` above pitch `baseIdx` of octave `baseOctave`, with the
      source's arithmetic kept as is: a truncating remainder, a pitch index
      outside the table (which the source turns into the number NaN,
      printed "NaN" here) and an octave that failed to parse (NaN). */
  function Transpose(names: seq<string>, baseIdx: int, baseOctave: Option<nat>, fret: int): string
  {
    var newIdx := Rem(baseIdx + fret, 12);
    var octaveUp := FloorDiv(baseIdx + fret, 12);
    if !(0 <= newIdx < |names|) then "NaN"
    else
      names[newIdx] + match baseOctave
                      case None => "NaN"
                      case Some(d) => IntToString(d + octaveUp)
  }

  /** Below pitch 0 the truncating remainder is negative, so the name is
      NaN, except at a negative multiple of 12, where the remainder is
      (minus) zero and the name is the table's first, an octave lower per 12. */
  lemma TransposeBelowZero(names: seq<string>, baseIdx: int, baseOctave: Option<nat>, fret: int)
    requires |names| == 12 && baseIdx + fret < 0
    ensures (baseIdx + fret) % 12 != 0 ==> Transpose(names, baseIdx, baseOctave, fret) == "NaN"
    ensures (baseIdx + fret) % 12 == 0 ==>
              Transpose(names, baseIdx, baseOctave, fret)
              == names[0] + (if baseOctave.None? then "NaN" else IntToString(baseOctave.value + (baseIdx + fret) / 12))
  {
    RemOfNegation(baseIdx + fret, 12);
  }

  /** E2 sixteen frets down: pitch -12 names C, one octave lower. */
  lemma LowStringSixteenDown()
    ensures GetNoteAtFret(STANDARD_TUNING, 0, -16) == "C1"
  {
    var base := STANDARD_TUNING[0].note;
    assert base == "E2" && PitchText(base) == "E" && NOTES[4] == "E";
    NotesTable();
    IndexOfPitch(NOTES, 4);
    assert OctaveDigit(base) == Some(2);
    TransposeBelowZero(NOTES, 4, Some(2), -16);
    assert IntToString(1) == "1";
  }

  /** Transposing a parsed pitch up by a non-negative step is naming the
      sum of the semitones. */
  lemma TransposeSemitone(names: seq<string>, baseIdx: nat, d: nat, fret: int, a: int)
    requires |names| == 12 && baseIdx < 12 && baseIdx + fret >= 0
    requires a == 12 * d + baseIdx + fret
    ensures a >= 0 && Transpose(names, baseIdx, Some(d), fret) == NoteOfSemitone(names, a)
  {
    RemSpec(baseIdx + fret, 12);
    assert a % 12 == (baseIdx + fret) % 12;
    assert a / 12 == d + (baseIdx + fret) / 12;
  }

  /** Index of the first digit of `s`, or `|s|` when it has none. */
  function FirstDigit(s: string): (k: nat)
    ensures k <= |s|
    ensures forall i :: 0 <= i < k ==> !IsDigit(s[i])
    ensures k < |s| ==> IsDigit(s[k])
  {
    if |s| == 0 then 0 else if IsDigit(s[0]) then 0 else 1 + FirstDigit(s[1..])
  }

  /** Reads a note name back into its absolute semitone: the pitch before
      the first digit must be in the table, the rest must be a decimal
      octave. */
  function ParseSemitone(names: seq<string>, name: string): Option<int>
  {
    var k := FirstDigit(name);
    if k == |name| || !AllDigits(name[k..]) then None
    else
      var i := IndexOf(names, name[..k]);
      if i < 0 then None else Some(12 * ParseNat(name[k..]) + i)
  }

  /** Each pitch name is found at its own position. */
  lemma IndexOfPitch(names: seq<string>, pitch: nat)
    requires PitchTable(names) && pitch < |names|
    ensures IndexOf(names, names[pitch]) == pitch
  {
  }

  /** A note name splits at its first digit into pitch and octave text. */
  lemma NoteNameSplit(names: seq<string>, pitch: nat, octave: nat)
    requires PitchTable(names) && pitch < |names|
    ensures var s := NoteName(names, pitch, octave);
            var k := FirstDigit(s);
            k == |names[pitch]| && s[..k] == names[pitch] && s[k..] == NatToString(octave)
  {
    var p, o := names[pitch], NatToString(octave);
    var s := p + o;
    NatToStringDigits(octave);
    assert NoDigits(p);
    assert s[|p|] == o[0];
    assert forall j :: 0 <= j < |p| ==> s[j] == p[j];
    var k := FirstDigit(s);
    assert k == |p|;
    assert s[..k] == p;
    assert s[k..] == o;
  }

  /** Reading a printed note name gives its semitone back, so note names of
      different semitones differ. */
  lemma ParseNoteName(names: seq<string>, pitch: nat, octave: nat)
    requires PitchTable(names) && pitch < |names|
    ensures ParseSemitone(names, NoteName(names, pitch, octave)) == Some(12 * octave + pitch)
  {
    var s := NoteName(names, pitch, octave);
    NoteNameSplit(names, pitch, octave);
    NatToStringDigits(octave);
    var k := FirstDigit(s);
    assert k != |s| && AllDigits(s[k..]);
    IndexOfPitch(names, pitch);
    assert IndexOf(names, s[..k]) == pitch;
    ParseNatToString(octave);
    assert ParseNat(s[k..]) == octave;
  }

  /** Reading back the name of a semitone gives that semitone. */
  lemma ParseNoteOfSemitone(names: seq<string>, a: nat)
    requires PitchTable(names)
    ensures ParseSemitone(names, NoteOfSemitone(names, a)) == Some(a)
  {
    ParseNoteName(names, a % 12, a / 12);
  }

  /** The note `fret` above a well-formed `base` names the semitone `fret`
      above it. */
  lemma NoteAboveSemitone(names: seq<string>, base: string, fret: int)
    requires PitchTable(names) && WellFormedNote(names, base)
    requires PitchIndex(names, base) + fret >= 0
    ensures Semitone(names, base) + fret >= 0
    ensures NoteAbove(names, base, fret) == NoteOfSemitone(names, Semitone(names, base) + fret)
  {
    var i := PitchIndex(names, base);
    var d := DigitValue(base[|base| - 1]);
    assert NoteAbove(names, base, fret) == Transpose(names, i, Some(d), fret);
    TransposeSemitone(names, i, d, fret, Semitone(names, base) + fret);
  }

  /** The note `fret` above `base`, read back, is its semitone plus `fret`. */
  lemma NoteAboveReadsBack(names: seq<string>, base: string, fret: int)
    requires PitchTable(names) && WellFormedNote(names, base)
    requires PitchIndex(names, base) + fret >= 0
    ensures ParseSemitone(names, NoteAbove(names, base, fret)) == Some(Semitone(names, base) + fret)
  {
    NoteAboveSemitone(names, base, fret);
    ParseNoteOfSemitone(names, Semitone(names, base) + fret);
  }

  /** Zero semitones above a well-formed note is the note itself. */
  lemma NoteAboveZero(names: seq<string>, base: string)
    requires PitchTable(names) && WellFormedNote(names, base)
    ensures NoteAbove(names, base, 0) == base
  {
    NoteAboveSemitone(names, base, 0);
    var a, i, d := Semitone(names, base), PitchIndex(names, base), DigitValue(base[|base| - 1]);
    DivMod12(a, i, d);
    SingleDigit(d);
    assert base == base[..|base| - 1] + [base[|base| - 1]];
  }

  /** Twelve above the note named `pitch` `octave` is `pitch` `octave + 1`. */
  lemma NoteAboveOctave(names: seq<string>, base: string, fret: int, pitch: nat, octave: nat)
    requires PitchTable(names) && WellFormedNote(names, base)
    requires PitchIndex(names, base) + fret >= 0
    requires pitch < |names| && NoteAbove(names, base, fret) == NoteName(names, pitch, octave)
    ensures NoteAbove(names, base, fret + 12) == NoteName(names, pitch, octave + 1)
  {
    NoteAboveSemitone(names, base, fret);
    NoteAboveSemitone(names, base, fret + 12);
    NameOctaveUp(names, Semitone(names, base) + fret, pitch, octave);
  }

  /** The semitone twelve above the one named `pitch` `octave` is named
      `pitch` `octave + 1`. */
  lemma NameOctaveUp(names: seq<string>, a: nat, pitch: nat, octave: nat)
    requires PitchTable(names) && pitch < |names|
    requires NoteOfSemitone(names, a) == NoteName(names, pitch, octave)
    ensures NoteOfSemitone(names, a + 12) == NoteName(names, pitch, octave + 1)
  {
    ParseNoteName(names, pitch, octave);
    ParseNoteOfSemitone(names, a);
    DivMod12(a + 12, pitch, octave + 1);
  }

  lemma DivMod12(a: int, pitch: nat, octave: nat)
    requires pitch < 12 && a == 12 * octave + pitch
    ensures a % 12 == pitch && a / 12 == octave
  {
  }

  /** For a well-formed open string, the note at `fret` is the name of the
      semitone `fret` above it: pitch `(baseIdx + fret) mod 12` and octave
      `baseOctave + (baseIdx + fret) div 12`. This needs the pitch index not
      to drop below C of the base octave (`baseIdx + fret >= 0`). */
  lemma NoteAtFretSemitone(tuning: seq<TuningNote>, stringIdx: int, fret: int)
    requires 0 <= stringIdx < |tuning| && WellFormedNote(NOTES, tuning[stringIdx].note)
    requires PitchIndex(NOTES, tuning[stringIdx].note) + fret >= 0
    ensures Semitone(NOTES, tuning[stringIdx].note) + fret >= 0
    ensures GetNoteAtFret(tuning, stringIdx, fret)
         == NoteOfSemitone(NOTES, Semitone(NOTES, tuning[stringIdx].note) + fret)
  {
    NotesTable();
    NoteAboveSemitone(NOTES, tuning[stringIdx].note, fret);
  }

  /** Higher frets give higher semitones, and so different note names. */
  lemma NoteAtFretStrictlyRises(tuning: seq<TuningNote>, stringIdx: int, f1: int, f2: int)
    requires 0 <= stringIdx < |tuning| && WellFormedNote(NOTES, tuning[stringIdx].note)
    requires 0 <= f1 < f2
    ensures GetNoteAtFret(tuning, stringIdx, f1) != GetNoteAtFret(tuning, stringIdx, f2)
  {
    NotesTable();
    NoteAboveRises(NOTES, tuning[stringIdx].note, f1, f2);
  }

  lemma NoteAboveRises(names: seq<string>, base: string, f1: int, f2: int)
    requires PitchTable(names) && WellFormedNote(names, base) && 0 <= f1 < f2
    ensures NoteAbove(names, base, f1) != NoteAbove(names, base, f2)
  {
    NoteAboveSemitone(names, base, f1);
    NoteAboveSemitone(names, base, f2);
    var s := Semitone(names, base);
    SemitoneNamesDiffer(names, s + f1, s + f2);
  }

  /** Different semitones have different names. */
  lemma SemitoneNamesDiffer(names: seq<string>, a: nat, b: nat)
    requires PitchTable(names) && a != b
    ensures NoteOfSemitone(names, a) != NoteOfSemitone(names, b)
  {
    ParseNoteOfSemitone(names, a);
    ParseNoteOfSemitone(names, b);
  }

  /** Fret 0 sounds the open string's own note name. */
  lemma OpenStringUnchanged(tuning: seq<TuningNote>, stringIdx: int)
    requires 0 <= stringIdx < |tuning| && WellFormedNote(NOTES, tuning[stringIdx].note)
    ensures GetNoteAtFret(tuning, stringIdx, 0) == tuning[stringIdx].note
  {
    NotesTable();
    NoteAboveZero(NOTES, tuning[stringIdx].note);
  }

  /** Twelve frets up is the same pitch name one octave higher: when fret
      `fret` sounds pitch `pitch` in octave `octave`, fret `fret + 12`
      sounds `pitch` in octave `octave + 1`. */
  lemma OctaveUp(tuning: seq<TuningNote>, stringIdx: int, fret: int, pitch: nat, octave: nat)
    requires 0 <= stringIdx < |tuning| && WellFormedNote(NOTES, tuning[stringIdx].note)
    requires PitchIndex(NOTES, tuning[stringIdx].note) + fret >= 0
    requires pitch < |NOTES| && GetNoteAtFret(tuning, stringIdx, fret) == NoteName(NOTES, pitch, octave)
    ensures GetNoteAtFret(tuning, stringIdx, fret + 12) == NoteName(NOTES, pitch, octave + 1)
  {
    NotesTable();
    NoteAboveOctave(NOTES, tuning[stringIdx].note, fret, pitch, octave);
  }

  /** With a base pitch from `NOTES` and a non-negative fret, the result
      starts with the pitch `(baseIdx + fret) mod 12`, whatever the octave
      character holds. */
  lemma PitchAlwaysInNotes(tuning: seq<TuningNote>, stringIdx: int, fret: int)
    requires 0 <= stringIdx < |tuning|
    requires IndexOf(NOTES, PitchText(tuning[stringIdx].note)) >= 0
    requires fret >= 0
    ensures var k := (IndexOf(NOTES, PitchText(tuning[stringIdx].note)) + fret) % 12;
            NOTES[k] <= GetNoteAtFret(tuning, stringIdx, fret)
  {
    var base := tuning[stringIdx].note;
    NotesTable();
    TransposePrefix(NOTES, IndexOf(NOTES, PitchText(base)), OctaveDigit(base), fret);
  }

  lemma TransposePrefix(names: seq<string>, baseIdx: int, baseOctave: Option<nat>, fret: int)
    requires |names| == 12 && baseIdx + fret >= 0
    ensures names[(baseIdx + fret) % 12] <= Transpose(names, baseIdx, baseOctave, fret)
  {
    RemSpec(baseIdx + fret, 12);
  }

  /** A note spelled as a pitch of the table and one digit is well formed,
      with the semitone those two name. */
  lemma SpelledNote(names: seq<string>, note: string, pitch: nat, d: nat)
    requires PitchTable(names) && pitch < |names| && d < 10
    requires note == names[pitch] + [DigitChar(d)]
    ensures WellFormedNote(names, note) && Semitone(names, note) == 12 * d + pitch
  {
    assert note[..|note| - 1] == names[pitch];
    IndexOfPitch(names, pitch);
  }

  /** A tuning whose notes are spelled from `NOTES` and single octave
      digits, with the spelled semitones rising, is well formed and rises. */
  lemma SpelledTuningRises(t: seq<TuningNote>, pitches: seq<nat>, octaves: seq<nat>)
    requires |pitches| == |t| && |octaves| == |t|
    requires forall i :: 0 <= i < |t| ==> pitches[i] < |NOTES| && octaves[i] < 10
    requires forall i :: 0 <= i < |t| ==> t[i].note == NOTES[pitches[i]] + [DigitChar(octaves[i])]
    requires forall i, j :: 0 <= i < j < |t| ==> 12 * octaves[i] + pitches[i] < 12 * octaves[j] + pitches[j]
    ensures forall i :: 0 <= i < |t| ==> WellFormedNote(NOTES, t[i].note)
    ensures forall i, j :: 0 <= i < j < |t| ==> Semitone(NOTES, t[i].note) < Semitone(NOTES, t[j].note)
  {
    NotesTable();
    forall i | 0 <= i < |t|
      ensures WellFormedNote(NOTES, t[i].note) && Semitone(NOTES, t[i].note) == 12 * octaves[i] + pitches[i]
    {
      SpelledNote(NOTES, t[i].note, pitches[i], octaves[i]);
    }
  }

  /** Every note of the standard tuning is well formed, and the notes rise
      strictly from string 0 (low E) upward. */
  lemma StandardTuningRises()
    ensures forall i :: 0 <= i < |STANDARD_TUNING| ==> WellFormedNote(NOTES, STANDARD_TUNING[i].note)
    ensures forall i, j :: 0 <= i < j < |STANDARD_TUNING| ==>
      Semitone(NOTES, STANDARD_TUNING[i].note) < Semitone(NOTES, STANDARD_TUNING[j].note)
  {
    SpelledTuningRises(STANDARD_TUNING, [4, 9, 2, 7, 11, 4], [2, 2, 3, 3, 3, 4]);
  }

  /** Every note of the bass tuning is well formed, and the notes rise
      strictly from string 0 (low E) upward. */
  lemma BassTuningRises()
    ensures forall i :: 0 <= i < |BASS_TUNING| ==> WellFormedNote(NOTES, BASS_TUNING[i].note)
    ensures forall i, j :: 0 <= i < j < |BASS_TUNING| ==>
      Semitone(NOTES, BASS_TUNING[i].note) < Semitone(NOTES, BASS_TUNING[j].note)
  {
    SpelledTuningRises(BASS_TUNING, [4, 9, 2, 7], [1, 1, 2, 2]);
  }
}
