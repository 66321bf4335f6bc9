/** utils.Tonality.chords: chords stacked on the degrees of a tonality's
    scale, taking every other scale note. */
module TonalityChords {
  import opened Outcomes
  import opened Tables
  import opened PitchArith
  import opened PitchSets
  import opened Tonalities

  /** A requested degree: an int (1 for the first degree) or a degree name
      such as "IV". */
  datatype Degree = DegreeNumber(n: int) | DegreeName(name: string)

  /** chords() takes a single degree or a sequence of them. */
  datatype Request = OneDegree(d: Degree) | DegreeList(ds: seq<Degree>)

  /** chords() returns a bare PitchSet when it built exactly one chord and a
      list otherwise. */
  datatype ChordsResult = Single(chord: PitchSet) | ChordList(chords: seq<PitchSet>)

  /** A single degree is treated as a one-element list (lines 157-158). */
  function Degrees(request: Request): seq<Degree>
  {
    match request
    case OneDegree(d) => [d]
    case DegreeList(ds) => ds
  }

  /** The scale position of a degree: an int d stands for d - 1, a name for
      its position in DEGREES; a name that is not a degree, or a position
      outside 0..6, is a ValueError (lines 163-169). */
  function DegreePosition(d: Degree): (r: Result<int>)
    ensures r.Ok? <==> (d.DegreeNumber? && 1 <= d.n <= 7) || (d.DegreeName? && d.name in DEGREES)
    ensures r.Err? ==> r.error == ValueError
    ensures r.Ok? ==> 0 <= r.value < 7
    ensures r.Ok? && d.DegreeNumber? ==> r.value == d.n - 1
    ensures r.Ok? && d.DegreeName? ==> DEGREES[r.value] == d.name
  {
    var dv :- if d.DegreeNumber? then Ok(d.n - 1) else DegreeIndex(d.name);
    if 0 <= dv < 7 then Ok(dv) else Err(ValueError)
  }

  /** `(list(scale) * 3)[dv : dv + 14 : 2]`: every other note of the scale
      repeated over three octaves, starting at position dv. */
  function StackedNotes(scale: seq<int>, dv: nat): seq<int>
  {
    EveryOther(scale + scale + scale, dv, dv + 14)
  }

  /** The chord on one degree: the stacked notes cut to `[0:size]` and made a
      PitchSet (lines 163-174). */
  function ChordAt(scale: seq<int>, d: Degree, size: int): Result<PitchSet>
  {
    var dv :- DegreePosition(d);
    Construct(Head(StackedNotes(scale, dv), size))
  }

  /** Position k of a sequence of length n written out three times, taken
      back into the first copy. */
  function Wrap(k: nat, n: nat): (p: nat)
    requires k < 3 * n
    ensures p < n
  {
    if k < n then k else if k < 2 * n then k - n else k - 2 * n
  }

  lemma WrapIsMod(k: nat, n: nat)
    requires k < 3 * n
    ensures Wrap(k, n) == k % n
  {
    if k < n {
      ModBelow(k, n);
    } else if k < 2 * n {
      ModAbove(k, n);
    } else {
      ModTwiceAbove(k, n);
    }
  }

  lemma ModTwiceAbove(x: int, n: int)
    requires 2 * n <= x < 3 * n
    ensures x % n == x - 2 * n
  {
    assert (x - 2 * n) % n == x - 2 * n;
  }

  /** Element k of a sequence written out three times. */
  lemma TripledIndex(s: seq<int>, k: nat)
    requires k < 3 * |s|
    ensures (s + s + s)[k] == s[Wrap(k, |s|)]
  {
    var n := |s|;
    var t := s + s + s;
    if k < n {
      assert t[k] == (s + s)[k] == s[k];
    } else if k < 2 * n {
      assert t[k] == (s + s)[k] == s[k - n];
    } else {
      assert t[k] == s[k - 2 * n];
    }
  }

  /** On a scale of at least seven notes, the stacked notes from position dv
      are seven notes a step of two scale positions apart, wrapping around
      the scale; the cut keeps the first min(size, 7) of them (Python's
      slice end for a negative size). */
  lemma StackedChord(scale: seq<int>, dv: nat, size: int)
    requires |scale| >= 7 && dv < 7
    ensures |Head(StackedNotes(scale, dv), size)| == SliceEnd(7, size)
    ensures forall j {:trigger Head(StackedNotes(scale, dv), size)[j]} :: 0 <= j < SliceEnd(7, size) ==>
              Head(StackedNotes(scale, dv), size)[j] == scale[Wrap(dv + 2 * j, |scale|)]
    ensures InOctave(scale) ==> InOctave(Head(StackedNotes(scale, dv), size))
  {
    var s := StackedNotes(scale, dv);
    assert |s| == 7;
    forall j | 0 <= j < 7 ensures s[j] == scale[Wrap(dv + 2 * j, |scale|)] {
      TripledIndex(scale, dv + 2 * j);
    }
  }

  /** The chord on a degree of a scale whose notes lie within the octave:
      note j is the scale note 2j positions above the degree, wrapping
      around the scale, and there are min(size, 7) notes. */
  lemma ChordFormula(scale: seq<int>, d: Degree, size: int, dv: int, chord: PitchSet)
    requires |scale| >= 7 && InOctave(scale)
    requires DegreePosition(d) == Ok(dv)
    requires ChordAt(scale, d, size) == Ok(chord)
    ensures chord.Valid()
    ensures |chord.values| == SliceEnd(7, size)
    ensures forall j {:trigger chord.values[j]} :: 0 <= j < |chord.values| ==>
              chord.values[j] == scale[(dv + 2 * j) % |scale|]
  {
    StackedChord(scale, dv, size);
    ChordSteps(scale, d, size);
    WrappedChord(scale, dv, Head(StackedNotes(scale, dv), size), chord);
  }

  /** Notes taken every other position round a scale within the octave are
      kept as they are by the constructor. */
  lemma WrappedChord(scale: seq<int>, dv: nat, notes: seq<int>, chord: PitchSet)
    requires InOctave(scale) && |scale| >= 7 && dv < 7 && |notes| <= 7
    requires forall j {:trigger notes[j]} :: 0 <= j < |notes| ==> notes[j] == scale[Wrap(dv + 2 * j, |scale|)]
    requires Construct(notes) == Ok(chord)
    ensures |chord.values| == |notes|
    ensures forall j {:trigger chord.values[j]} :: 0 <= j < |chord.values| ==>
              chord.values[j] == scale[(dv + 2 * j) % |scale|]
  {
    BuiltInOctave(notes, chord);
    forall j | 0 <= j < |notes| ensures notes[j] == scale[(dv + 2 * j) % |scale|] {
      WrappedNote(scale, dv + 2 * j, notes[j]);
    }
  }

  lemma WrappedNote(s: seq<int>, k: nat, x: int)
    requires k < 3 * |s| && x == s[Wrap(k, |s|)]
    ensures x == s[k % |s|]
  {
    WrapIsMod(k, |s|);
  }

  /** Notes already within the octave are kept as they are by the
      constructor. */
  lemma BuiltInOctave(notes: seq<int>, chord: PitchSet)
    requires Construct(notes) == Ok(chord) && InOctave(notes)
    ensures chord.values == notes
  {
    ReduceInRange(notes);
  }

  /** The two steps of a chord: a degree that has no position is refused
      with its ValueError, otherwise the stacked notes are built. */
  lemma ChordSteps(scale: seq<int>, d: Degree, size: int)
    ensures DegreePosition(d).Err? ==> ChordAt(scale, d, size) == Err(DegreePosition(d).error)
    ensures DegreePosition(d).Ok? ==> ChordAt(scale, d, size) == Construct(Head(StackedNotes(scale, DegreePosition(d).value), size))
  {
  }

  lemma ChordOf(scale: seq<int>, d: Degree, size: int, dv: int)
    requires DegreePosition(d) == Ok(dv)
    ensures ChordAt(scale, d, size) == Construct(Head(StackedNotes(scale, dv), size))
  {
  }

  lemma AppendChord(scale: seq<int>, ds: seq<Degree>, size: int, i: nat, chords: seq<PitchSet>, chord: PitchSet)
    requires i < |ds| && |chords| == i
    requires forall j :: 0 <= j < i ==> ChordAt(scale, ds[j], size) == Ok(chords[j])
    requires ChordAt(scale, ds[i], size) == Ok(chord)
    ensures forall j :: 0 <= j < i + 1 ==> ChordAt(scale, ds[j], size) == Ok((chords + [chord])[j])
  {
  }

  /** Tonality.chords: the chords of the requested degrees, in request order,
      built one after the other; the first degree whose chord fails decides
      the error. Exactly one chord comes back bare, any other number as a
      list. */
  method Chords(tn: Tonality, request: Request, size: int) returns (r: Result<ChordsResult>)
    ensures r.Ok? <==> forall i :: 0 <= i < |Degrees(request)| ==> ChordAt(tn.scale.values, Degrees(request)[i], size).Ok?
    ensures r.Err? ==> exists k :: 0 <= k < |Degrees(request)|
                          && (forall i :: 0 <= i < k ==> ChordAt(tn.scale.values, Degrees(request)[i], size).Ok?)
                          && ChordAt(tn.scale.values, Degrees(request)[k], size) == Err(r.error)
    ensures r.Ok? && |Degrees(request)| == 1 ==>
              r.value == Single(ChordAt(tn.scale.values, Degrees(request)[0], size).value)
    ensures r.Ok? && |Degrees(request)| != 1 ==>
              && r.value.ChordList?
              && |r.value.chords| == |Degrees(request)|
              && forall i :: 0 <= i < |Degrees(request)| ==>
                   ChordAt(tn.scale.values, Degrees(request)[i], size) == Ok(r.value.chords[i])
  {
    var degrees := Degrees(request);
    var chords: seq<PitchSet> := [];
    var i := 0;
    while i < |degrees|
      invariant 0 <= i <= |degrees| && |chords| == i
      invariant forall j :: 0 <= j < i ==> ChordAt(tn.scale.values, degrees[j], size) == Ok(chords[j])
    {
      ChordSteps(tn.scale.values, degrees[i], size);
      var position := DegreePosition(degrees[i]);
      if position.Err? {
        return Err(position.error);
      }
      var notes := Head(StackedNotes(tn.scale.values, position.value), size);
      var chord := Construct(notes);
      if chord.Err? {
        return Err(chord.error);
      }
      AppendChord(tn.scale.values, degrees, size, i, chords, chord.value);
      chords := chords + [chord.value];
      i := i + 1;
    }
    if |chords| == 1 {
      return Ok(Single(chords[0]));
    }
    return Ok(ChordList(chords));
  }

  // Which chord sizes build on a scale that climbs within one octave

  /** The sequence continued upwards: entry i for i < |s|, and past the end
      the entries again, an octave higher each time round. */
  function Climb(s: seq<int>, i: nat): int
    requires |s| > 0
    decreases i
  {
    if i < |s| then s[i] else Climb(s, i - |s|) + 12
  }

  /** How far a chord of k notes stacked every other position from position
      dv climbs from its first note to its last. */
  function Span(sv: seq<int>, dv: nat, k: nat): int
    requires |sv| > 0 && k > 0
  {
    Climb(sv, dv + 2 * (k - 1)) - Climb(sv, dv)
  }

  /** An ascending template keeps ascending when continued. */
  lemma {:induction false} ClimbStep(s: seq<int>, i: nat)
    requires AscendingTemplate(s)
    ensures Climb(s, i) < Climb(s, i + 1)
    decreases i
  {
    var n := |s|;
    if i + 1 < n {
      assert Below(s, i, i + 1);
    } else if i + 1 == n {
      TemplateEntry(s, 0);
      TemplateEntry(s, n - 1);
    } else {
      ClimbStep(s, i - n);
      assert i + 1 - n == (i - n) + 1;
    }
  }

  lemma {:induction false} ClimbRises(s: seq<int>, a: nat, b: nat)
    requires AscendingTemplate(s) && a < b
    ensures Climb(s, a) < Climb(s, b)
    decreases b - a
  {
    ClimbStep(s, b - 1);
    if a < b - 1 {
      ClimbRises(s, a, b - 1);
    }
  }

  /** The notes v follow the structure sv: note i is the first note raised
      by sv[i], up to octaves. */
  predicate Tracks(v: seq<int>, sv: seq<int>)
  {
    && |v| == |sv| && |v| > 0
    && forall i :: 0 <= i < |v| ==> (v[0] + sv[i] - v[i]) % 12 == 0
  }

  /** Position i of the continued structure sounds note i mod |v|. */
  lemma {:induction false} ClimbNote(v: seq<int>, sv: seq<int>, i: nat)
    requires Tracks(v, sv) && i < 3 * |v|
    ensures (v[0] + Climb(sv, i) - v[Wrap(i, |v|)]) % 12 == 0
    decreases i
  {
    var n := |v|;
    if i < n {
    } else if i < 2 * n {
      assert Climb(sv, i) == sv[i - n] + 12;
    } else {
      assert Climb(sv, i) == Climb(sv, i - n) + 12 == sv[i - 2 * n] + 24;
    }
  }

  /** Two notes two positions apart on the continued structure are the climb
      between them apart, counted upwards: less than an octave. */
  lemma ChordInterval(v: seq<int>, sv: seq<int>, a: nat, x: int, y: int)
    requires Tracks(v, sv) && AscendingTemplate(sv) && a + 2 < 3 * |v|
    requires x == v[Wrap(a, |v|)] && y == v[Wrap(a + 2, |v|)]
    ensures (y - x) % 12 == Climb(sv, a + 2) - Climb(sv, a)
  {
    var n := |v|;
    ClimbNote(v, sv, a);
    ClimbNote(v, sv, a + 2);
    ClimbRises(sv, a, a + 2);
    ClimbRises(sv, a + 2, a + n);
    OctaveAbove(sv, a);
    NoteDistance(v[0], Climb(sv, a), Climb(sv, a + 2), x, y);
  }

  /** Continuing a full round of the structure climbs one octave. */
  lemma OctaveAbove(sv: seq<int>, a: nat)
    requires |sv| > 0
    ensures Climb(sv, a + |sv|) == Climb(sv, a) + 12
  {
  }

  /** Notes x and y sounding heights lo < hi less than an octave apart above
      a common root are hi - lo apart, counted upwards. */
  lemma NoteDistance(root: int, lo: int, hi: int, x: int, y: int)
    requires (root + lo - x) % 12 == 0 && (root + hi - y) % 12 == 0
    requires lo < hi < lo + 12
    ensures (y - x) % 12 == hi - lo
  {
    assert (hi - lo) - (y - x) == (root + hi - y) - (root + lo - x);
    ModUnique(y - x, hi - lo);
  }

  /** The intervals of a chord stacked from position dv add up to the climb
      from its first note to its last. */
  lemma ChordSpan(v: seq<int>, sv: seq<int>, dv: nat, c: seq<int>)
    requires Tracks(v, sv) && AscendingTemplate(sv) && dv < 7 && 0 < |c| <= 7
    requires forall j {:trigger c[j]} :: 0 <= j < |c| ==> c[j] == v[Wrap(dv + 2 * j, |v|)]
    ensures Sum(Intervals(c)) == Span(sv, dv, |c|)
  {
    var iv := Intervals(c);
    var cs := seq(|c|, j requires 0 <= j < |c| => Climb(sv, dv + 2 * j));
    IntervalClimbs(v, sv, dv, c, cs);
    Telescoping(iv, cs);
    assert Sum(iv) == PrefixSums(iv)[|iv|] == cs[|c| - 1] - cs[0];
  }

  /** Each interval of such a chord is the climb between its two notes. */
  lemma IntervalClimbs(v: seq<int>, sv: seq<int>, dv: nat, c: seq<int>, cs: seq<int>)
    requires Tracks(v, sv) && AscendingTemplate(sv) && dv < 7 && 0 < |c| <= 7 && |cs| == |c|
    requires forall j {:trigger c[j]} :: 0 <= j < |c| ==> c[j] == v[Wrap(dv + 2 * j, |v|)]
    requires forall j {:trigger cs[j]} :: 0 <= j < |c| ==> cs[j] == Climb(sv, dv + 2 * j)
    ensures forall j {:trigger Intervals(c)[j]} :: 0 <= j < |c| - 1 ==> Intervals(c)[j] == cs[j + 1] - cs[j]
  {
    forall j | 0 <= j < |c| - 1 ensures Intervals(c)[j] == cs[j + 1] - cs[j] {
      var a := dv + 2 * j;
      assert cs[j] == Climb(sv, a) && cs[j + 1] == Climb(sv, a + 2);
      ChordInterval(v, sv, a, c[j], c[j + 1]);
      IntervalAt(c, j);
    }
  }

  /** Notes v within the octave that follow an ascending structure sv
      spanning less than an octave: what a tonality's scale is. */
  predicate Climbing(v: seq<int>, sv: seq<int>)
  {
    InOctave(v) && Tracks(v, sv) && AscendingTemplate(sv)
  }

  /** A valid set whose structure ascends within the octave climbs. */
  lemma ValidClimbing(sc: PitchSet)
    requires sc.Valid() && AscendingTemplate(sc.structureValues)
    ensures Climbing(sc.values, sc.structureValues)
  {
    forall i | 0 <= i < |sc.values| ensures (sc.values[0] + sc.structureValues[i] - sc.values[i]) % 12 == 0 {
      StructureCongruence(sc.values, i);
    }
  }

  /** A chord on a valid degree of such a scale is built exactly when it has
      a note and its notes climb by at most 12 semitones from first to last;
      otherwise it is refused with IndexError. */
  lemma ChordBuildsIff(v: seq<int>, sv: seq<int>, d: Degree, size: int, dv: int)
    requires Climbing(v, sv) && DegreePosition(d) == Ok(dv)
    ensures ChordAt(v, d, size).Ok? <==>
              0 < SliceEnd(7, size) && Span(sv, dv, SliceEnd(7, size)) <= 12
    ensures ChordAt(v, d, size).Err? ==> ChordAt(v, d, size).error == IndexError
  {
    var notes := Head(StackedNotes(v, dv), size);
    var k := SliceEnd(7, size);
    StackedChord(v, dv, size);
    ChordOf(v, d, size, dv);
    WrappedBuildsIff(v, sv, dv, notes, k);
    assert ChordAt(v, d, size) == Construct(notes);
    assert Construct(notes).Ok? <==> 0 < k && Span(sv, dv, k) <= 12;
    assert ChordAt(v, d, size).Ok? <==> 0 < k && Span(sv, dv, k) <= 12;
  }

  /** Notes taken every other position round a climbing scale are built
      exactly when there is one and they climb at most an octave. */
  lemma WrappedBuildsIff(v: seq<int>, sv: seq<int>, dv: nat, notes: seq<int>, k: nat)
    requires Climbing(v, sv) && dv < 7 && |notes| == k <= 7
    requires forall j {:trigger notes[j]} :: 0 <= j < |notes| ==> notes[j] == v[Wrap(dv + 2 * j, |v|)]
    ensures Construct(notes).Ok? <==> 0 < k && Span(sv, dv, k) <= 12
    ensures Construct(notes).Err? ==> Construct(notes).error == IndexError
  {
    assert InOctave(notes);
    ReduceInRange(notes);
    if |notes| > 0 {
      ChordSpan(v, sv, dv, notes);
    }
  }

  /** On a seven-note scale the chords of one to four notes (triads and
      sevenths) always build, and a chord of five or more notes always spans
      more than an octave and is refused with IndexError. */
  lemma SevenNoteChords(v: seq<int>, sv: seq<int>, d: Degree, size: int, dv: int)
    requires Climbing(v, sv) && |v| == 7 && DegreePosition(d) == Ok(dv)
    ensures ChordAt(v, d, size).Ok? <==> 1 <= SliceEnd(7, size) <= 4
    ensures ChordAt(v, d, size).Err? ==> ChordAt(v, d, size).error == IndexError
  {
    ChordBuildsIff(v, sv, d, size, dv);
    if 1 <= SliceEnd(7, size) {
      SevenSpan(sv, dv, SliceEnd(7, size));
    }
  }

  /** On seven positions, stacking up to four notes climbs less than an
      octave and stacking five or more climbs beyond it. */
  lemma SevenSpan(sv: seq<int>, dv: nat, k: nat)
    requires AscendingTemplate(sv) && |sv| == 7 && 1 <= k
    ensures Span(sv, dv, k) <= 12 <==> k <= 4
  {
    assert Climb(sv, dv + 7) == Climb(sv, dv) + 12;
    if 1 < k <= 4 {
      ClimbRises(sv, dv + 2 * (k - 1), dv + 7);
    } else if k > 4 {
      ClimbRises(sv, dv + 7, dv + 2 * (k - 1));
    }
  }

  /** On a scale of twelve or more notes every chord with a note builds. */
  lemma ChromaticChords(v: seq<int>, sv: seq<int>, d: Degree, size: int, dv: int)
    requires Climbing(v, sv) && |v| >= 12 && DegreePosition(d) == Ok(dv)
    ensures ChordAt(v, d, size).Ok? <==> 1 <= SliceEnd(7, size)
    ensures ChordAt(v, d, size).Err? ==> ChordAt(v, d, size).error == IndexError
  {
    ChordBuildsIff(v, sv, d, size, dv);
    if 1 <= SliceEnd(7, size) {
      WideSpan(sv, dv, SliceEnd(7, size));
    }
  }

  lemma WideSpan(sv: seq<int>, dv: nat, k: nat)
    requires AscendingTemplate(sv) && |sv| >= 12 && 1 <= k <= 7
    ensures Span(sv, dv, k) <= 12
  {
    var n := |sv|;
    var top := dv + 2 * (k - 1);
    assert Climb(sv, dv + n) == Climb(sv, dv) + 12;
    if top == dv {
    } else if top < dv + n {
      ClimbRises(sv, top, dv + n);
    } else {
      assert top == dv + n;
    }
  }

  // Chords on the scale of a tonality

  /** The scale of every tonality climbs: its notes lie within the octave,
      follow its structure, and the structure ascends like a template. */
  lemma ScaleClimbs(tn: Tonality, tv: int, t: seq<int>, m: int)
    requires MakeTonality(tn.tonic, tn.scaleType, tn.mode) == Ok(tn)
    requires NoteIndex(tn.tonic) == Ok(tv) && BaseScale(tn.scaleType, 0) == Ok(t) && DegreeIndex(tn.mode) == Ok(m)
    ensures |tn.scale.values| == |t|
    ensures Climbing(tn.scale.values, tn.scale.structureValues)
  {
    ScalePart(tn, tv, t, m);
    ScaleFormula(tn, tv, t, m);
    ModeAscending(t, m, tn.scale.structureValues);
    ValidClimbing(tn.scale);
  }

  /** Which chords a tonality has: on a valid degree of a seven-note scale
      (diatonic, melodic or harmonic minor, in any mode) exactly the chords
      of one to four notes build; on the chromatic scale every chord with a
      note does; any other chord is refused with IndexError. */
  lemma TonalityChordSizes(tn: Tonality, tv: int, t: seq<int>, m: int, d: Degree, size: int, dv: int)
    requires MakeTonality(tn.tonic, tn.scaleType, tn.mode) == Ok(tn)
    requires NoteIndex(tn.tonic) == Ok(tv) && BaseScale(tn.scaleType, 0) == Ok(t) && DegreeIndex(tn.mode) == Ok(m)
    requires DegreePosition(d) == Ok(dv)
    ensures |t| == 7 || |t| == 12
    ensures |t| == 7 ==> (ChordAt(tn.scale.values, d, size).Ok? <==> 1 <= SliceEnd(7, size) <= 4)
    ensures |t| == 12 ==> (ChordAt(tn.scale.values, d, size).Ok? <==> 1 <= SliceEnd(7, size))
    ensures ChordAt(tn.scale.values, d, size).Err? ==> ChordAt(tn.scale.values, d, size).error == IndexError
  {
    BaseScaleSizes(tn.scaleType, 0);
    ScaleClimbs(tn, tv, t, m);
    if |t| == 7 {
      SevenNoteChords(tn.scale.values, tn.scale.structureValues, d, size, dv);
    } else {
      ChromaticChords(tn.scale.values, tn.scale.structureValues, d, size, dv);
    }
  }

  /** The table lookups of `Tonality("C")`, the default tonality. */
  lemma CLookups()
    ensures NoteIndex("C") == Ok(0)
    ensures DegreeIndex("I") == Ok(0)
    ensures BaseScale("diatonic", 0) == Ok([0, 2, 4, 5, 7, 9, 11])
    ensures DegreePosition(DegreeName("I")) == Ok(0)
  {
    assert NOTES[0] == "C" && DEGREES[0] == "I";
    assert C_BASE_SCALES[0].0 != "diatonic" && C_BASE_SCALES[1] == ("diatonic", [0, 2, 4, 5, 7, 9, 11]);
  }

  /** `Tonality("C").chords("I", 4)` builds, while the ninth chord
      `chords("I", 5)` raises IndexError. */
  lemma CMajorBuilds()
    ensures MakeTonality("C", "diatonic", "I").Ok?
    ensures ChordAt(MakeTonality("C", "diatonic", "I").value.scale.values, DegreeName("I"), 4).Ok?
    ensures ChordAt(MakeTonality("C", "diatonic", "I").value.scale.values, DegreeName("I"), 5) == Err(IndexError)
  {
    CLookups();
    TonalityBuildsIff("C", "diatonic", "I");
    var tn := MakeTonality("C", "diatonic", "I").value;
    TonalityFields("C", "diatonic", "I", tn);
    TonalityChordSizes(tn, 0, [0, 2, 4, 5, 7, 9, 11], 0, DegreeName("I"), 4, 0);
    TonalityChordSizes(tn, 0, [0, 2, 4, 5, 7, 9, 11], 0, DegreeName("I"), 5, 0);
  }

  /** The four-note chord on the first degree of C major is C E G B, named
      "Cmaj7". */
  lemma CMajorSeventh(tn: Tonality, chord: PitchSet)
    requires MakeTonality("C", "diatonic", "I") == Ok(tn)
    requires ChordAt(tn.scale.values, DegreeName("I"), 4) == Ok(chord)
    ensures chord.values == [0, 4, 7, 11]
    ensures chord.intervalValues == [4, 3, 4]
    ensures chord.Valid() && chord.Name() == Known("Cmaj7")
  {
    CLookups();
    TonalityFields("C", "diatonic", "I", tn);
    CMajorScale();
    CMajorNotes(tn.scale.values, DegreeName("I"), chord);
    SeventhName(chord);
  }

  /** `Tonality("C").scale` is C major: C D E F G A B. */
  lemma CMajorScale()
    ensures MakeTonality("C", "diatonic", "I").Ok?
    ensures MakeTonality("C", "diatonic", "I").value.scale.values == [0, 2, 4, 5, 7, 9, 11]
  {
    CLookups();
    TonalityBuildsIff("C", "diatonic", "I");
    var tn := MakeTonality("C", "diatonic", "I").value;
    TonalityFields("C", "diatonic", "I", tn);
    var tv, t, m := 0, [0, 2, 4, 5, 7, 9, 11], 0;
    ScaleFormula(tn, tv, t, m);
    MajorScale(tn.scale.values, tv, t, m);
  }

  /** The chord of four notes on the first degree of the C major scale. */
  lemma CMajorNotes(scale: seq<int>, d: Degree, chord: PitchSet)
    requires scale == [0, 2, 4, 5, 7, 9, 11] && DegreePosition(d) == Ok(0)
    requires ChordAt(scale, d, 4) == Ok(chord)
    ensures chord.values == [0, 4, 7, 11] && chord.Valid()
  {
    ChordFormula(scale, d, 4, 0, chord);
    MajorSeventh(scale, chord.values, 0);
  }

  /** A valid set on C E G B steps up 4, 3, 4 and is named "Cmaj7". */
  lemma SeventhName(p: PitchSet)
    requires p.Valid() && p.values == [0, 4, 7, 11]
    ensures p.intervalValues == [4, 3, 4] && p.Name() == Known("Cmaj7")
  {
    SeventhSteps();
    assert QualitySuffix([4, 3, 4]) == Some("maj7");
    assert NOTES[0] == "C";
  }

  /** The diatonic template from its first entry, stacked on C. */
  lemma MajorScale(v: seq<int>, tv: int, t: seq<int>, m: int)
    requires tv == 0 && t == [0, 2, 4, 5, 7, 9, 11] && m == 0 && |v| == |t|
    requires forall i {:trigger v[i]} :: 0 <= i < |t| ==> v[i] == (tv + t[(m + i) % |t|] - t[m]) % 12
    ensures v == t
  {
    forall i | 0 <= i < 7 ensures v[i] == t[i] {
      assert (0 + i) % 7 == i;
    }
  }

  /** Every other note of C major from C, four notes. */
  lemma MajorSeventh(scale: seq<int>, c: seq<int>, dv: nat)
    requires scale == [0, 2, 4, 5, 7, 9, 11] && |c| == 4 && dv == 0
    requires forall j {:trigger c[j]} :: 0 <= j < |c| ==> c[j] == scale[(dv + 2 * j) % |scale|]
    ensures c == [0, 4, 7, 11]
  {
    assert c[0] == scale[0] && c[1] == scale[2] && c[2] == scale[4] && c[3] == scale[6];
  }

  lemma SeventhSteps()
    ensures Intervals([0, 4, 7, 11]) == [4, 3, 4]
  {
    var v := [0, 4, 7, 11];
    assert Intervals(v)[0] == (v[1] - v[0]) % 12;
    assert Intervals(v)[1] == (v[2] - v[1]) % 12;
    assert Intervals(v)[2] == (v[3] - v[2]) % 12;
  }
}
