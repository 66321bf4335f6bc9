/** the_real_script/main.py, the earlier draft: `flatten`, its own
    `calculate_intervals`, and a Tonality whose modes are read off the
    parent scale of the tonic, with every degree's chord stacked in
    advance. */
module EarlyDraft {
  import opened Outcomes
  import opened Tables
  import opened PitchArith
  import opened Tonalities
  import opened TonalityChords

  // flatten (lines 50-56)

  /** How many passes of flatten's first loop lower x by an octave. */
  function Lowerings(x: int): nat
  {
    if x > 11 then x / 12 else 0
  }

  /** How many passes of flatten's second loop raise x by an octave. */
  function Raisings(x: int): nat
  {
    if x < 0 then (11 - x) / 12 else 0
  }

  /** After k passes of the first loop, x is still above 11 exactly when it
      has not yet had all its lowerings. */
  lemma LowerStep(x: int, k: nat)
    ensures x - 12 * Min(k, Lowerings(x)) > 11 <==> k < Lowerings(x)
  {
  }

  /** After k passes of the second loop, a value of at most 11 is still
      below 0 exactly when it has not yet had all its raisings, and it never
      rises above 11. */
  lemma RaiseStep(x: int, k: nat)
    requires x <= 11
    ensures x + 12 * Min(k, Raisings(x)) < 0 <==> k < Raisings(x)
    ensures x + 12 * Min(k, Raisings(x)) <= 11
  {
  }

  /** An upper bound of the entries of s. */
  function Largest(s: seq<nat>): (m: nat)
    ensures forall i :: 0 <= i < |s| ==> s[i] <= m
  {
    if |s| == 0 then 0
    else
      var rest := Largest(s[1..]);
      assert forall i :: 1 <= i < |s| ==> s[i] == s[1..][i - 1];
      if s[0] > rest then s[0] else rest
  }

  /** `np.where(notes > 11, notes - 12, notes)`: one octave off every note
      above 11. */
  function LowerAbove(r: seq<int>): (s: seq<int>)
    ensures |s| == |r|
  {
    seq(|r|, i requires 0 <= i < |r| => if r[i] > 11 then r[i] - 12 else r[i])
  }

  /** `np.where(notes < 0, notes + 12, notes)`: one octave onto every note
      below 0. */
  function RaiseBelow(r: seq<int>): (s: seq<int>)
    ensures |s| == |r|
  {
    seq(|r|, i requires 0 <= i < |r| => if r[i] < 0 then r[i] + 12 else r[i])
  }

  /** Pass k + 1 of the first loop keeps its invariant. */
  lemma LowerPass(notes: seq<int>, r: seq<int>, k: nat)
    requires |r| == |notes|
    requires forall i :: 0 <= i < |r| ==> r[i] == notes[i] - 12 * Min(k, Lowerings(notes[i]))
    ensures forall i :: 0 <= i < |r| ==> LowerAbove(r)[i] == notes[i] - 12 * Min(k + 1, Lowerings(notes[i]))
  {
    forall i | 0 <= i < |r| ensures LowerAbove(r)[i] == notes[i] - 12 * Min(k + 1, Lowerings(notes[i])) {
      LowerStep(notes[i], k);
    }
  }

  /** Pass k + 1 of the second loop keeps its invariant. */
  lemma RaisePass(lowered: seq<int>, r: seq<int>, k: nat)
    requires |r| == |lowered|
    requires forall i :: 0 <= i < |r| ==> lowered[i] <= 11
    requires forall i :: 0 <= i < |r| ==> r[i] == lowered[i] + 12 * Min(k, Raisings(lowered[i]))
    ensures forall i :: 0 <= i < |r| ==> RaiseBelow(r)[i] == lowered[i] + 12 * Min(k + 1, Raisings(lowered[i]))
  {
    forall i | 0 <= i < |r| ensures RaiseBelow(r)[i] == lowered[i] + 12 * Min(k + 1, Raisings(lowered[i])) {
      RaiseStep(lowered[i], k);
    }
  }

  /** A note still above 11 after k passes bounds the passes still to come. */
  lemma LowerBound(notes: seq<int>, r: seq<int>, k: nat, w: nat, counts: seq<nat>, passes: nat)
    requires |r| == |notes| == |counts| && w < |r| && r[w] > 11
    requires r[w] == notes[w] - 12 * Min(k, Lowerings(notes[w]))
    requires counts[w] == Lowerings(notes[w]) && counts[w] <= passes
    ensures k < passes
  {
    LowerStep(notes[w], k);
  }

  /** A note still below 0 after k passes bounds the passes still to come. */
  lemma RaiseBound(lowered: seq<int>, r: seq<int>, k: nat, w: nat, counts: seq<nat>, raises: nat)
    requires |r| == |lowered| == |counts| && w < |r| && r[w] < 0 && lowered[w] <= 11
    requires r[w] == lowered[w] + 12 * Min(k, Raisings(lowered[w]))
    requires counts[w] == Raisings(lowered[w]) && counts[w] <= raises
    ensures k < raises
  {
    RaiseStep(lowered[w], k);
  }

  /** flatten: while some note is above 11, lower every such note by an
      octave; then, while some note is below 0, raise every such note by an
      octave. The loops end, and the notes come out reduced modulo 12. */
  method Flatten(notes: seq<int>) returns (r: seq<int>)
    ensures r == Reduce(notes)
  {
    r := notes;
    ghost var counts := seq(|notes|, i requires 0 <= i < |notes| => Lowerings(notes[i]));
    ghost var passes := Largest(counts);
    ghost var k := 0;
    while exists i :: 0 <= i < |r| && r[i] > 11
      invariant |r| == |notes| && k <= passes
      invariant forall i :: 0 <= i < |r| ==> r[i] == notes[i] - 12 * Min(k, Lowerings(notes[i]))
      decreases passes - k
    {
      ghost var w :| 0 <= w < |r| && r[w] > 11;
      LowerBound(notes, r, k, w, counts, passes);
      LowerPass(notes, r, k);
      r := LowerAbove(r);
      k := k + 1;
    }
    ghost var lowered := r;
    forall i | 0 <= i < |r| ensures lowered[i] <= 11 {
      LowerStep(notes[i], k);
    }
    counts := seq(|r|, i requires 0 <= i < |r| => Raisings(r[i]));
    ghost var raises := Largest(counts);
    k := 0;
    while exists i :: 0 <= i < |r| && r[i] < 0
      invariant |r| == |notes| && k <= raises
      invariant forall i :: 0 <= i < |r| ==> r[i] == lowered[i] + 12 * Min(k, Raisings(lowered[i]))
      decreases raises - k
    {
      ghost var w :| 0 <= w < |r| && r[w] < 0;
      RaiseBound(lowered, r, k, w, counts, raises);
      RaisePass(lowered, r, k);
      r := RaiseBelow(r);
      k := k + 1;
    }
    forall i | 0 <= i < |r| ensures r[i] == Reduce(notes)[i] {
      RaiseStep(lowered[i], k);
      ModUnique(notes[i], r[i]);
    }
  }

  /** `notes + c` on an array: every note shifted by c. */
  function Shifted(s: seq<int>, c: int): (r: seq<int>)
    ensures |r| == |s| && forall i :: 0 <= i < |s| ==> r[i] - s[i] == c
  {
    seq(|s|, i requires 0 <= i < |s| => s[i] + c)
  }

  /** Two shifts of one note land on the same pitch class exactly when the
      shifts differ by whole octaves. */
  lemma ShiftCongruent(x: int, a: int, b: int)
    ensures (x + a) % 12 == (x - b) % 12 <==> (a + b) % 12 == 0
  {
    var p, q := (x + a) % 12, (x - b) % 12;
    assert x + a == 12 * ((x + a) / 12) + p;
    assert x - b == 12 * ((x - b) / 12) + q;
    assert a + b == 12 * ((x + a) / 12 - (x - b) / 12) + (p - q);
    if (a + b) % 12 == 0 {
      assert a + b == 12 * ((a + b) / 12);
      assert p - q == 12 * ((a + b) / 12 - (x + a) / 12 + (x - b) / 12);
    }
  }

  /** Raising notes by a and lowering them by b flatten to the same notes
      exactly when a + b is a whole number of octaves. */
  lemma FlattenTranspositions(s: seq<int>, a: int, b: int)
    requires |s| > 0
    ensures Reduce(Shifted(s, a)) == Reduce(Shifted(s, -b)) <==> (a + b) % 12 == 0
  {
    var up, down := Reduce(Shifted(s, a)), Reduce(Shifted(s, -b));
    ShiftCongruent(s[0], a, b);
    assert up[0] == (s[0] + a) % 12 && down[0] == (s[0] - b) % 12;
    if (a + b) % 12 == 0 {
      forall i | 0 <= i < |s| ensures up[i] == down[i] {
        ShiftCongruent(s[i], a, b);
      }
    }
  }

  /** Shifting by whole octaves changes nothing once flattened. */
  lemma FlattenOctaves(s: seq<int>, k: int)
    ensures Reduce(Shifted(s, 12 * k)) == Reduce(s)
  {
    if |s| > 0 {
      FlattenTranspositions(s, 12 * k, 0);
      assert Shifted(s, -0) == s;
    }
  }

  /** The C major scale and the (raise, lower) pairs the flatten test
      applies to it: unison against octave, three octaves against three
      octaves, and each interval against its complement. */
  const TEST_C_MAJOR: seq<int> := [0, 2, 4, 5, 7, 9, 11]
  const TEST_PAIRS: seq<(int, int)> :=
    [(0, 12), (0, 12), (36, 36), (7, 5), (5, 7), (1, 11), (2, 10), (3, 9), (4, 8)]

  /** Every test pair flattens the raised and the lowered scale to the same
      notes, all within 0..11. */
  lemma FlattenTestPairs()
    ensures forall k :: 0 <= k < |TEST_PAIRS| ==>
              Reduce(Shifted(TEST_C_MAJOR, TEST_PAIRS[k].0)) == Reduce(Shifted(TEST_C_MAJOR, -TEST_PAIRS[k].1))
    ensures forall k, i :: 0 <= k < |TEST_PAIRS| && 0 <= i < |TEST_C_MAJOR| ==>
              0 <= Reduce(Shifted(TEST_C_MAJOR, TEST_PAIRS[k].0))[i] < 12
  {
    forall k | 0 <= k < |TEST_PAIRS|
      ensures Reduce(Shifted(TEST_C_MAJOR, TEST_PAIRS[k].0)) == Reduce(Shifted(TEST_C_MAJOR, -TEST_PAIRS[k].1))
    {
      FlattenTranspositions(TEST_C_MAJOR, TEST_PAIRS[k].0, TEST_PAIRS[k].1);
    }
  }

  // calculate_intervals (lines 59-63)

  /** `[flatten(next_note - note) for note, next_note in zip(chord, chord[1:])]`,
      with flatten's result on one value: the same ascending intervals the
      later draft computes. */
  function CalculateIntervals(chord: seq<int>): (r: seq<int>)
    ensures r == Intervals(chord)
  {
    var n := if |chord| == 0 then 0 else |chord| - 1;
    var r := seq(n, i requires 0 <= i < n => Reduce([chord[i + 1] - chord[i]])[0]);
    FlattenedSteps(chord, r);
    r
  }

  /** Each step flattened on its own is the ascending interval. */
  lemma FlattenedSteps(chord: seq<int>, r: seq<int>)
    requires |r| == if |chord| == 0 then 0 else |chord| - 1
    requires forall i {:trigger r[i]} :: 0 <= i < |r| ==> r[i] == Reduce([chord[i + 1] - chord[i]])[0]
    ensures r == Intervals(chord)
  {
    forall i | 0 <= i < |r| ensures r[i] == Intervals(chord)[i] {
      IntervalAt(chord, i);
      assert r[i] == (chord[i + 1] - chord[i]) % 12;
    }
  }

  // Tables and lookups (lines 15-31)

  /** SCALE_INDEX: the scale templates this draft knows, by scale type. */
  const SCALE_INDEX: seq<(string, seq<int>)> := [
    ("diatonic", [0, 2, 4, 5, 7, 9, 11]),
    ("melodic minor", [0, 2, 3, 5, 7, 9, 11]),
    ("harmonic minor", [0, 2, 3, 5, 7, 8, 11]),
    ("major pentatonic", [0, 2, 4, 7, 9])
  ]

  /** This draft's DEGREES run up to "VIII". */
  const EARLY_DEGREES: seq<string> := ["I", "II", "III", "IV", "V", "VI", "VII", "VIII"]

  /** NOTE_VALUES[tonic]: the pitch class of a note name; KeyError for any
      other name. */
  function NoteValue(tonic: string): (r: Result<int>)
    ensures r.Ok? <==> tonic in NOTES
    ensures r.Ok? ==> 0 <= r.value < 12 && NOTES[r.value] == tonic
    ensures r.Err? ==> r.error == KeyError
  {
    match IndexOf(NOTES, tonic)
    case None => Err(KeyError)
    case Some(i) => Ok(i)
  }

  /** DEGREE_VALUES[mode]: the position of a degree name; KeyError for any
      other name. */
  function DegreeValue(mode: string): (r: Result<int>)
    ensures r.Ok? <==> mode in EARLY_DEGREES
    ensures r.Ok? ==> 0 <= r.value < 8 && EARLY_DEGREES[r.value] == mode
    ensures r.Err? ==> r.error == KeyError
  {
    match IndexOf(EARLY_DEGREES, mode)
    case None => Err(KeyError)
    case Some(i) => Ok(i)
  }

  /** NOTE_NAMES.get(v): the name of a pitch class, None for any other
      value. */
  function NoteName(v: int): (r: Option<string>)
    ensures r.Some? <==> 0 <= v < 12
    ensures r.Some? ==> NoteValue(r.value) == Ok(v)
  {
    if 0 <= v < 12 then
      assert forall i, j :: 0 <= i < j < 12 ==> NOTES[i] != NOTES[j];
      Some(NOTES[v])
    else None
  }

  /** SCALE_INDEX[name], searching from entry `start` on; KeyError for an
      unknown scale type. */
  function ScaleIndex(name: string, start: nat): Result<seq<int>>
    decreases |SCALE_INDEX| - start
  {
    if start >= |SCALE_INDEX| then Err(KeyError)
    else if SCALE_INDEX[start].0 == name then Ok(SCALE_INDEX[start].1)
    else ScaleIndex(name, start + 1)
  }

  /** A template of this draft: five or seven ascending notes within the
      octave, starting on 0. */
  predicate EarlyTemplate(t: seq<int>)
  {
    && (|t| == 5 || |t| == 7)
    && t[0] == 0
    && t[|t| - 1] < 12
    && forall i, j :: 0 <= i < j < |t| ==> Below(t, i, j)
  }

  /** The lookup succeeds exactly for the listed scale types, fails with
      KeyError otherwise, and returns a template of five or seven notes. */
  lemma {:induction false} ScaleIndexFound(name: string, start: nat)
    ensures ScaleIndex(name, start).Ok? <==> exists k :: start <= k < |SCALE_INDEX| && SCALE_INDEX[k].0 == name
    ensures ScaleIndex(name, start).Err? ==> ScaleIndex(name, start).error == KeyError
    ensures ScaleIndex(name, start).Ok? ==> EarlyTemplate(ScaleIndex(name, start).value)
    decreases |SCALE_INDEX| - start
  {
    EarlyTemplates();
    if start < |SCALE_INDEX| && SCALE_INDEX[start].0 != name {
      ScaleIndexFound(name, start + 1);
    }
  }

  lemma EarlyTemplates()
    ensures forall k :: 0 <= k < |SCALE_INDEX| ==> EarlyTemplate(SCALE_INDEX[k].1)
  {
    assert EarlyTemplate(SCALE_INDEX[0].1);
    assert EarlyTemplate(SCALE_INDEX[1].1);
    assert EarlyTemplate(SCALE_INDEX[2].1);
    assert EarlyTemplate(SCALE_INDEX[3].1);
  }

  /** A scale type both drafts know has the same template in both. */
  lemma SharedTemplates(name: string)
    requires ScaleIndex(name, 0).Ok? && BaseScale(name, 0).Ok?
    ensures ScaleIndex(name, 0) == BaseScale(name, 0)
    ensures name == "diatonic" || name == "melodic minor" || name == "harmonic minor"
  {
  }

  // The Tonality of this draft (lines 66-126)

  /** init_cromatic_values: the chromatic scale shifted to the tonic and
      flattened; an unknown tonic is a KeyError. */
  function CromaticValues(tonic: string): (r: Result<seq<int>>)
    ensures r.Ok? <==> tonic in NOTES
    ensures r.Err? ==> r.error == KeyError
  {
    var t :- NoteValue(tonic);
    Ok(Reduce(Shifted(CHROMATIC, t)))
  }

  /** The chromatic values count up from the tonic: entry i is i semitones
      above it, within the octave. */
  lemma CromaticCount(tonic: string, tv: int)
    requires NoteValue(tonic) == Ok(tv)
    ensures CromaticValues(tonic).Ok?
    ensures |CromaticValues(tonic).value| == 12
    ensures forall i {:trigger CromaticValues(tonic).value[i]} :: 0 <= i < 12 ==>
              CromaticValues(tonic).value[i] == (tv + i) % 12
  {
    ChromaticEntries();
  }

  /** The chromatic values are the notes of the later draft's chromatic set
      on the same tonic; only the error differs (KeyError here, ValueError
      there). */
  lemma CromaticDraftsAgree(tonic: string)
    ensures CromaticValues(tonic).Ok? <==> CromaticSet(tonic).Ok?
    ensures CromaticValues(tonic).Ok? ==> CromaticValues(tonic).value == CromaticSet(tonic).value.values
    ensures CromaticValues(tonic).Err? ==> CromaticSet(tonic) == Err(ValueError)
  {
    if tonic in NOTES {
      var tv := NoteValue(tonic).value;
      assert NoteIndex(tonic) == Ok(tv);
      CromaticCount(tonic, tv);
      CromaticOf(tv);
      SameCount(CromaticValues(tonic).value, CromaticSet(tonic).value.values, tv);
    }
  }

  lemma SameCount(u: seq<int>, v: seq<int>, tv: int)
    requires |u| == 12 && |v| == 12
    requires forall i {:trigger u[i]} :: 0 <= i < 12 ==> u[i] == (tv + i) % 12
    requires forall i {:trigger v[i]} :: 0 <= i < 12 ==> v[i] == (tv + i) % 12
    ensures u == v
  {
    assert forall i :: 0 <= i < 12 ==> u[i] == v[i];
  }

  /** init_mode_index: the template of the scale type read from the mode's
      degree on, continuing into a second copy of it. An unknown scale type
      and then an unknown mode are KeyErrors; a mode past the last degree of
      the template is an AttributeError. */
  function ModeIndex(scaleType: string, mode: string): Result<seq<int>>
  {
    var t :- ScaleIndex(scaleType, 0);
    var m :- DegreeValue(mode);
    if m + 1 > |t| then Err(AttributeError)
    else Ok(seq(|t|, i requires 0 <= i < |t| => (t + t)[m + i]))
  }

  /** For a known scale type with template t and a known mode at position m,
      the mode index exists exactly when m is a degree of t, and entry i of
      it is the template entry i degrees above the mode, wrapping round. */
  lemma ModeIndexFormula(scaleType: string, mode: string, t: seq<int>, m: int)
    requires ScaleIndex(scaleType, 0) == Ok(t) && DegreeValue(mode) == Ok(m)
    ensures ModeIndex(scaleType, mode).Ok? <==> m < |t|
    ensures ModeIndex(scaleType, mode).Err? ==> ModeIndex(scaleType, mode).error == AttributeError
    ensures ModeIndex(scaleType, mode).Ok? ==>
              && |ModeIndex(scaleType, mode).value| == |t|
              && forall i :: 0 <= i < |t| ==> ModeIndex(scaleType, mode).value[i] == t[(m + i) % |t|]
  {
    if m < |t| {
      var r := ModeIndex(scaleType, mode).value;
      forall i | 0 <= i < |t| ensures r[i] == t[(m + i) % |t|] {
        DoubledIndex(t, m + i);
      }
    }
  }

  /** Element k of a sequence written out twice. */
  lemma DoubledIndex(t: seq<int>, k: nat)
    requires k < 2 * |t|
    ensures (t + t)[k] == t[k % |t|]
  {
    if k < |t| {
      ModBelow(k, |t|);
    } else {
      ModAbove(k, |t|);
    }
  }

  /** The mode index fails with KeyError for an unknown scale type, and then
      for an unknown mode. */
  lemma ModeIndexErrors(scaleType: string, mode: string)
    ensures ScaleIndex(scaleType, 0).Err? ==> ModeIndex(scaleType, mode) == Err(KeyError)
    ensures ScaleIndex(scaleType, 0).Ok? && mode !in EARLY_DEGREES ==> ModeIndex(scaleType, mode) == Err(KeyError)
  {
    ScaleIndexFound(scaleType, 0);
  }

  /** DEGREES lists an eighth degree that no template has, so mode "VIII"
      never yields a mode index. */
  lemma EighthDegreeFails(scaleType: string)
    ensures ModeIndex(scaleType, "VIII").Err?
  {
    ScaleIndexFound(scaleType, 0);
    assert EARLY_DEGREES[7] == "VIII";
    if ScaleIndex(scaleType, 0).Ok? {
      ModeIndexFormula(scaleType, "VIII", ScaleIndex(scaleType, 0).value, DegreeValue("VIII").value);
    }
  }

  /** numpy's `values[index]` with an integer list: the value at each index,
      counting negative indexes from the end; IndexError when an index is
      out of bounds. */
  function Take(values: seq<int>, index: seq<int>): (r: Result<seq<int>>)
    ensures r.Ok? <==> forall i :: 0 <= i < |index| ==> -|values| <= index[i] < |values|
    ensures r.Err? ==> r.error == IndexError
    ensures r.Ok? ==> |r.value| == |index|
    ensures r.Ok? ==> forall i :: 0 <= i < |index| && 0 <= index[i] ==> r.value[i] == values[index[i]]
    ensures r.Ok? ==> forall i :: 0 <= i < |index| && index[i] < 0 ==> r.value[i] == values[|values| + index[i]]
  {
    if forall i :: 0 <= i < |index| ==> -|values| <= index[i] < |values| then
      Ok(seq(|index|, i requires 0 <= i < |index| =>
           if index[i] < 0 then values[|values| + index[i]] else values[index[i]]))
    else Err(IndexError)
  }

  /** init_chord_values: for every degree d of the mode, every other note of
      the mode written out three times, from position d up to d + 14. */
  function ChordValues(mode: seq<int>): (r: seq<seq<int>>)
    ensures |r| == |mode|
  {
    seq(|mode|, d requires 0 <= d < |mode| => StackedNotes(mode, d))
  }

  /** The chord on degree d has (min(d + 14, 3n) - d + 1) / 2 notes for a
      mode of n notes, and its note j is the mode note 2j degrees above d,
      wrapping round the mode. */
  lemma ChordValuesFormula(mode: seq<int>, d: nat)
    requires d < |mode|
    ensures |ChordValues(mode)[d]| == (Min(d + 14, 3 * |mode|) - d + 1) / 2
    ensures forall j :: 0 <= j < |ChordValues(mode)[d]| ==>
              ChordValues(mode)[d][j] == mode[(d + 2 * j) % |mode|]
  {
    var c := ChordValues(mode)[d];
    assert c == StackedNotes(mode, d);
    forall j | 0 <= j < |c| ensures c[j] == mode[(d + 2 * j) % |mode|] {
      TripledIndex(mode, d + 2 * j);
      WrapIsMod(d + 2 * j, |mode|);
    }
  }

  /** On a seven-note mode every degree gets a full seven-note chord; on a
      five-note mode the last two degrees get only six notes, because three
      copies of the mode run out. */
  lemma ChordValuesLengths(mode: seq<int>)
    requires |mode| == 5 || |mode| == 7
    ensures |mode| == 7 ==> forall d :: 0 <= d < 7 ==> |ChordValues(mode)[d]| == 7
    ensures |mode| == 5 ==> seq(5, d requires 0 <= d < 5 => |ChordValues(mode)[d]|) == [7, 7, 7, 6, 6]
  {
    forall d | 0 <= d < |mode| ensures |ChordValues(mode)[d]| == (Min(d + 14, 3 * |mode|) - d + 1) / 2 {
      ChordValuesFormula(mode, d);
    }
  }

  /** A Tonality of this draft: the names it was given and the four
      attributes its constructor computes in turn. */
  datatype EarlyTonality = EarlyTonality(
    tonic: string, scaleType: string, mode: string,
    cromaticValues: seq<int>, modeIndex: seq<int>, modeValues: seq<int>, chordValues: seq<seq<int>>)

  /** Tonality(tonic, scale_type, mode): the chromatic values, the mode
      index, the mode values picked from the chromatic values by the mode
      index, and the chord values; the first step to fail decides the
      error. */
  function MakeEarlyTonality(tonic: string, scaleType: string, mode: string): Result<EarlyTonality>
  {
    var cromatic := CromaticValues(tonic);
    var index := ModeIndex(scaleType, mode);
    if cromatic.Err? then Err(cromatic.error)
    else if index.Err? then Err(index.error)
    else
      var values := Take(cromatic.value, index.value);
      if values.Err? then Err(values.error)
      else Ok(EarlyTonality(tonic, scaleType, mode, cromatic.value, index.value, values.value, ChordValues(values.value)))
  }

  /** A scale type this draft has a template for. */
  predicate EarlyScaleListed(name: string)
  {
    exists k :: 0 <= k < |SCALE_INDEX| && SCALE_INDEX[k].0 == name
  }

  /** Every entry of a template of this draft is a pitch class. */
  lemma TemplateInOctave(t: seq<int>)
    requires EarlyTemplate(t)
    ensures forall i :: 0 <= i < |t| ==> 0 <= t[i] < 12
  {
    forall i | 0 < i < |t| ensures 0 <= t[i] < 12 {
      assert Below(t, 0, i);
      if i < |t| - 1 {
        assert Below(t, i, |t| - 1);
      }
    }
  }

  /** Unknown names fail in the order the constructor reads them: the
      tonic, then the scale type, then the mode, each with KeyError. */
  lemma EarlyTonalityErrors(tonic: string, scaleType: string, mode: string)
    ensures tonic !in NOTES ==> MakeEarlyTonality(tonic, scaleType, mode) == Err(KeyError)
    ensures tonic in NOTES && !EarlyScaleListed(scaleType) ==> MakeEarlyTonality(tonic, scaleType, mode) == Err(KeyError)
    ensures tonic in NOTES && EarlyScaleListed(scaleType) && mode !in EARLY_DEGREES ==>
              MakeEarlyTonality(tonic, scaleType, mode) == Err(KeyError)
  {
    ScaleIndexFound(scaleType, 0);
    ModeIndexErrors(scaleType, mode);
  }

  /** With the tonic, the scale type (template t) and the mode (position m)
      all known, the tonality is built exactly when m is a degree of t, and
      fails with AttributeError otherwise. */
  lemma EarlyTonalityBuildsIff(tonic: string, scaleType: string, mode: string, t: seq<int>, m: int)
    requires tonic in NOTES && ScaleIndex(scaleType, 0) == Ok(t) && DegreeValue(mode) == Ok(m)
    ensures MakeEarlyTonality(tonic, scaleType, mode).Ok? <==> m < |t|
    ensures MakeEarlyTonality(tonic, scaleType, mode).Err? ==> MakeEarlyTonality(tonic, scaleType, mode).error == AttributeError
  {
    ModeIndexFormula(scaleType, mode, t, m);
    if m < |t| {
      ScaleIndexFound(scaleType, 0);
      TemplateInOctave(t);
      CromaticCount(tonic, NoteValue(tonic).value);
      var index := ModeIndex(scaleType, mode).value;
      assert forall i :: 0 <= i < |index| ==> 0 <= index[i] < 12 by {
        forall i | 0 <= i < |index| ensures 0 <= index[i] < 12 {
          assert index[i] == t[(m + i) % |t|];
        }
      }
    }
  }

  /** A built tonality holds the attributes its constructor computed from
      the names it was given. */
  lemma EarlyParts(e: EarlyTonality)
    requires MakeEarlyTonality(e.tonic, e.scaleType, e.mode) == Ok(e)
    ensures CromaticValues(e.tonic) == Ok(e.cromaticValues)
    ensures ModeIndex(e.scaleType, e.mode) == Ok(e.modeIndex)
    ensures Take(e.cromaticValues, e.modeIndex) == Ok(e.modeValues)
    ensures e.chordValues == ChordValues(e.modeValues)
  {
  }

  /** The mode values of a built tonality with tonic tv, template t and mode
      position m: note i is the template entry i degrees above the mode,
      wrapping round, on top of the tonic, within the octave. The mode
      starts on the mode's degree of the tonic's own scale. */
  lemma EarlyModeValues(e: EarlyTonality, tv: int, t: seq<int>, m: int)
    requires MakeEarlyTonality(e.tonic, e.scaleType, e.mode) == Ok(e)
    requires NoteValue(e.tonic) == Ok(tv) && ScaleIndex(e.scaleType, 0) == Ok(t) && DegreeValue(e.mode) == Ok(m)
    ensures 0 <= m < |t|
    ensures |e.modeValues| == |t|
    ensures forall i {:trigger e.modeValues[i]} :: 0 <= i < |t| ==> e.modeValues[i] == (tv + t[(m + i) % |t|]) % 12
    ensures e.modeValues[0] == (tv + t[m]) % 12
  {
    EarlyParts(e);
    EarlyTonalityBuildsIff(e.tonic, e.scaleType, e.mode, t, m);
    ModeIndexFormula(e.scaleType, e.mode, t, m);
    ScaleIndexFound(e.scaleType, 0);
    TemplateInOctave(t);
    CromaticCount(e.tonic, tv);
    PickedNotes(e.cromaticValues, e.modeIndex, e.modeValues, tv, t, m);
  }

  lemma PickedNotes(cromatic: seq<int>, index: seq<int>, values: seq<int>, tv: int, t: seq<int>, m: int)
    requires 0 <= m < |t| && forall i :: 0 <= i < |t| ==> 0 <= t[i] < 12
    requires |cromatic| == 12 && forall i {:trigger cromatic[i]} :: 0 <= i < 12 ==> cromatic[i] == (tv + i) % 12
    requires |index| == |t| && forall i :: 0 <= i < |t| ==> index[i] == t[(m + i) % |t|]
    requires Take(cromatic, index) == Ok(values)
    ensures |values| == |t|
    ensures forall i {:trigger values[i]} :: 0 <= i < |t| ==> values[i] == (tv + t[(m + i) % |t|]) % 12
    ensures values[0] == (tv + t[m]) % 12
  {
    forall i | 0 <= i < |t| ensures values[i] == (tv + t[(m + i) % |t|]) % 12 {
      assert values[i] == cromatic[index[i]];
    }
    ModBelow(m, |t|);
  }

  /** get_chord_note_names(degree, amount): the names of the notes of the
      chord on a degree, cut to `[0:amount]`. An unknown degree is a
      KeyError and a degree past the last chord an IndexError. */
  function ChordNoteNames(e: EarlyTonality, degree: string, amount: int): (r: Result<seq<Option<string>>>)
    ensures r.Ok? <==> degree in EARLY_DEGREES && DegreeValue(degree).value < |e.chordValues|
    ensures degree !in EARLY_DEGREES ==> r == Err(KeyError)
    ensures degree in EARLY_DEGREES && r.Err? ==> r.error == IndexError
  {
    var d :- DegreeValue(degree);
    if d >= |e.chordValues| then Err(IndexError)
    else
      var chord := e.chordValues[d];
      Ok(Head(seq(|chord|, j requires 0 <= j < |chord| => NoteName(chord[j])), amount))
  }

  /** On a built tonality with a template of n notes and a degree at
      position d < n, the names are those of the first min(amount, |chord|)
      notes of the chord on d (Python's slice end for a negative amount),
      every one of them a note name: note j of that chord is the mode note
      2j degrees above d. */
  lemma EarlyChordNames(e: EarlyTonality, tv: int, t: seq<int>, m: int, degree: string, d: int, amount: int)
    requires MakeEarlyTonality(e.tonic, e.scaleType, e.mode) == Ok(e)
    requires NoteValue(e.tonic) == Ok(tv) && ScaleIndex(e.scaleType, 0) == Ok(t) && DegreeValue(e.mode) == Ok(m)
    requires DegreeValue(degree) == Ok(d) && d < |t|
    ensures ChordNoteNames(e, degree, amount).Ok?
    ensures var chord := e.chordValues[d];
            var names := ChordNoteNames(e, degree, amount).value;
            && |names| == SliceEnd(|chord|, amount)
            && forall j :: 0 <= j < |names| ==>
                 chord[j] == e.modeValues[(d + 2 * j) % |t|] && names[j] == Some(NOTES[chord[j]])
  {
    EarlyModeValues(e, tv, t, m);
    EarlyParts(e);
    ModeInOctave(e.modeValues, tv, t, m);
    ChordValuesFormula(e.modeValues, d);
    NamedChord(e, degree, d, amount, e.modeValues);
  }

  lemma ModeInOctave(mode: seq<int>, tv: int, t: seq<int>, m: int)
    requires 0 <= m < |t| && |mode| == |t|
    requires forall i {:trigger mode[i]} :: 0 <= i < |t| ==> mode[i] == (tv + t[(m + i) % |t|]) % 12
    ensures forall i :: 0 <= i < |mode| ==> 0 <= mode[i] < 12
  {
  }

  /** The names of a chord whose notes are mode notes within the octave. */
  lemma NamedChord(e: EarlyTonality, degree: string, d: int, amount: int, mode: seq<int>)
    requires DegreeValue(degree) == Ok(d) && 0 <= d < |e.chordValues| && |mode| > 0
    requires forall i :: 0 <= i < |mode| ==> 0 <= mode[i] < 12
    requires forall j :: 0 <= j < |e.chordValues[d]| ==> e.chordValues[d][j] == mode[(d + 2 * j) % |mode|]
    ensures ChordNoteNames(e, degree, amount).Ok?
    ensures var chord := e.chordValues[d];
            var names := ChordNoteNames(e, degree, amount).value;
            && |names| == SliceEnd(|chord|, amount)
            && forall j :: 0 <= j < |names| ==> names[j] == Some(NOTES[chord[j]])
  {
    var chord := e.chordValues[d];
    forall j | 0 <= j < |chord| ensures 0 <= chord[j] < 12 {
      assert chord[j] == mode[(d + 2 * j) % |mode|];
    }
  }

  // The two drafts side by side

  /** A degree name of the later draft has the same position in this
      draft's longer list. */
  lemma DegreeTablesAgree(mode: string)
    requires mode in DEGREES
    ensures DegreeValue(mode) == DegreeIndex(mode)
  {
    var k := DegreeIndex(mode).value;
    var k' := DegreeValue(mode).value;
    assert EARLY_DEGREES[k] == mode;
    assert DEGREES[k'] == mode;
  }

  /** This draft reads a mode off the scale of its tonic; the later draft
      builds the mode on its tonic. For a scale type both know, the mode
      values of this draft's Tonality(tonic, scale_type, mode) are the
      scale of the later draft's Tonality on the tonic's mode degree, with
      the same scale type and mode. */
  lemma DraftModesAgree(e: EarlyTonality, tn: Tonality, ev: int, uv: int, t: seq<int>, m: int)
    requires MakeEarlyTonality(e.tonic, e.scaleType, e.mode) == Ok(e)
    requires MakeTonality(tn.tonic, tn.scaleType, tn.mode) == Ok(tn)
    requires tn.scaleType == e.scaleType && tn.mode == e.mode
    requires NoteValue(e.tonic) == Ok(ev) && NoteIndex(tn.tonic) == Ok(uv)
    requires BaseScale(tn.scaleType, 0) == Ok(t) && DegreeIndex(tn.mode) == Ok(m)
    requires 0 <= m < |t| && uv == (ev + t[m]) % 12
    ensures e.modeValues == tn.scale.values
  {
    EarlyParts(e);
    assert ScaleIndex(e.scaleType, 0).Ok?;
    SharedTemplates(e.scaleType);
    DegreeTablesAgree(e.mode);
    EarlyModeValues(e, ev, t, m);
    ScaleFormula(tn, uv, t, m);
    SameModes(e.modeValues, tn.scale.values, ev, uv, t, m);
  }

  lemma SameModes(u: seq<int>, v: seq<int>, ev: int, uv: int, t: seq<int>, m: int)
    requires |u| == |t| && |v| == |t| && 0 <= m < |t| && uv == (ev + t[m]) % 12
    requires forall i {:trigger u[i]} :: 0 <= i < |t| ==> u[i] == (ev + t[(m + i) % |t|]) % 12
    requires forall i {:trigger v[i]} :: 0 <= i < |t| ==> v[i] == (uv + t[(m + i) % |t|] - t[m]) % 12
    ensures u == v
  {
    forall i | 0 <= i < |t| ensures u[i] == v[i] {
      ModShift(ev, t[(m + i) % |t|], t[m]);
    }
  }

  /** Taking the tonic up by b within the octave and then a - b further
      lands where going up by a does. */
  lemma ModShift(x: int, a: int, b: int)
    ensures ((x + b) % 12 + a - b) % 12 == (x + a) % 12
  {
    var q := (x + b) / 12;
    assert (x + b) % 12 + a - b == (x + a) - 12 * q;
    SubtractOctaves(x + a, q);
  }

  lemma SubtractOctaves(y: int, q: int)
    ensures (y - 12 * q) % 12 == y % 12
  {
    var r := y % 12;
    assert y - 12 * q == 12 * (y / 12 - q) + r;
  }

  // Worked examples

  /** The table lookups of `Tonality("C")`. */
  lemma EarlyCLookups()
    ensures NoteValue("C") == Ok(0)
    ensures ScaleIndex("diatonic", 0) == Ok([0, 2, 4, 5, 7, 9, 11])
    ensures DegreeValue("I") == Ok(0)
  {
    assert NOTES[0] == "C" && EARLY_DEGREES[0] == "I";
    assert SCALE_INDEX[0] == ("diatonic", [0, 2, 4, 5, 7, 9, 11]);
  }

  lemma DegreeLookups()
    ensures DegreeValue("V") == Ok(4) && DegreeValue("VI") == Ok(5)
  {
    assert EARLY_DEGREES[4] == "V" && EARLY_DEGREES[5] == "VI";
    assert forall i :: 0 <= i < 4 ==> EARLY_DEGREES[i] != "V";
    assert forall i :: 0 <= i < 5 ==> EARLY_DEGREES[i] != "VI";
  }

  lemma PentatonicLookup()
    ensures ScaleIndex("major pentatonic", 0) == Ok([0, 2, 4, 7, 9])
  {
    assert SCALE_INDEX[3] == ("major pentatonic", [0, 2, 4, 7, 9]);
    assert SCALE_INDEX[0].0 != "major pentatonic" && SCALE_INDEX[1].0 != "major pentatonic";
    assert SCALE_INDEX[2].0 != "major pentatonic";
  }

  /** A built tonality keeps the names it was given. */
  lemma EarlyFields(tonic: string, scaleType: string, mode: string, e: EarlyTonality)
    requires MakeEarlyTonality(tonic, scaleType, mode) == Ok(e)
    ensures e.tonic == tonic && e.scaleType == scaleType && e.mode == mode
  {
  }

  /** `Tonality("C")` is built, on the diatonic scale and the first mode. */
  lemma EarlyCMajorBuilds()
    ensures MakeEarlyTonality("C", "diatonic", "I").Ok?
  {
    EarlyCLookups();
    EarlyTonalityBuildsIff("C", "diatonic", "I", [0, 2, 4, 5, 7, 9, 11], 0);
  }

  /** `Tonality("C").mode_values` is C major: C D E F G A B. */
  lemma EarlyCMajor(e: EarlyTonality)
    requires MakeEarlyTonality("C", "diatonic", "I") == Ok(e)
    ensures e.modeValues == [0, 2, 4, 5, 7, 9, 11]
  {
    EarlyCLookups();
    EarlyFields("C", "diatonic", "I", e);
    var tv, t, m := 0, [0, 2, 4, 5, 7, 9, 11], 0;
    EarlyModeValues(e, tv, t, m);
    ModeOfTemplate(e.modeValues, tv, t, m, [0, 2, 4, 5, 7, 9, 11]);
  }

  /** `Tonality("C", mode="VI").mode_values` is the A minor of the test
      module: A B C D E F G, read off the C major scale. */
  lemma EarlyAMinor(e: EarlyTonality)
    requires MakeEarlyTonality("C", "diatonic", "VI") == Ok(e)
    ensures e.modeValues == [9, 11, 0, 2, 4, 5, 7]
  {
    EarlyCLookups();
    DegreeLookups();
    EarlyFields("C", "diatonic", "VI", e);
    var tv, t, m := 0, [0, 2, 4, 5, 7, 9, 11], 5;
    EarlyModeValues(e, tv, t, m);
    var expected := [9, 11, 0, 2, 4, 5, 7];
    SixthMode(tv, t, m, expected);
    ModeOfTemplate(e.modeValues, tv, t, m, expected);
  }

  /** The sixth mode of the diatonic template on C, worked out. */
  lemma SixthMode(tv: int, t: seq<int>, m: nat, expected: seq<int>)
    requires tv == 0 && t == [0, 2, 4, 5, 7, 9, 11] && m == 5 && expected == [9, 11, 0, 2, 4, 5, 7]
    ensures forall i :: 0 <= i < |t| ==> expected[i] == (tv + t[(m + i) % |t|]) % 12
  {
    assert (m + 0) % 7 == 5 && (m + 1) % 7 == 6 && (m + 2) % 7 == 0 && (m + 3) % 7 == 1;
    assert (m + 4) % 7 == 2 && (m + 5) % 7 == 3 && (m + 6) % 7 == 4;
  }

  /** The notes of a mode of a template on a tonic, given in full. */
  lemma ModeOfTemplate(v: seq<int>, tv: int, t: seq<int>, m: nat, expected: seq<int>)
    requires |v| == |t| == |expected| && m < |t|
    requires forall i {:trigger v[i]} :: 0 <= i < |t| ==> v[i] == (tv + t[(m + i) % |t|]) % 12
    requires forall i :: 0 <= i < |t| ==> expected[i] == (tv + t[(m + i) % |t|]) % 12
    ensures v == expected
  {
    assert forall i :: 0 <= i < |t| ==> v[i] == expected[i];
  }

  /** `Tonality("C").get_chord_note_names("V")` is G B D F, the notes of
      G7. */
  lemma EarlyDominantNames(e: EarlyTonality)
    requires MakeEarlyTonality("C", "diatonic", "I") == Ok(e)
    ensures ChordNoteNames(e, "V", 4) == Ok([Some("G"), Some("B"), Some("D"), Some("F")])
  {
    EarlyCMajor(e);
    EarlyCLookups();
    DegreeLookups();
    EarlyFields("C", "diatonic", "I", e);
    var tv, t, m, d := 0, [0, 2, 4, 5, 7, 9, 11], 0, 4;
    EarlyChordNames(e, tv, t, m, "V", d, 4);
    DominantNames(e.modeValues, e.chordValues[d], ChordNoteNames(e, "V", 4).value);
  }

  lemma DominantNames(mode: seq<int>, chord: seq<int>, names: seq<Option<string>>)
    requires mode == [0, 2, 4, 5, 7, 9, 11] && |chord| == 7 && |names| == 4
    requires forall j :: 0 <= j < |names| ==> chord[j] == mode[(4 + 2 * j) % 7] && names[j] == Some(NOTES[chord[j]])
    ensures names == [Some("G"), Some("B"), Some("D"), Some("F")]
  {
    assert chord[0] == 7 && chord[1] == 11 && chord[2] == 2 && chord[3] == 5;
  }

  /** On the major pentatonic scale the chords of the last two degrees have
      six notes, and a sixth mode does not exist. */
  lemma PentatonicChords(e: EarlyTonality)
    requires MakeEarlyTonality("C", "major pentatonic", "I") == Ok(e)
    ensures seq(5, d requires 0 <= d < 5 => |e.chordValues[d]|) == [7, 7, 7, 6, 6]
    ensures MakeEarlyTonality("C", "major pentatonic", "VI") == Err(AttributeError)
  {
    EarlyCLookups();
    PentatonicLookup();
    DegreeLookups();
    EarlyFields("C", "major pentatonic", "I", e);
    var tv, t, m := 0, [0, 2, 4, 7, 9], 0;
    EarlyModeValues(e, tv, t, m);
    EarlyParts(e);
    ChordValuesLengths(e.modeValues);
    EarlyTonalityBuildsIff("C", "major pentatonic", "VI", t, 5);
  }
}
