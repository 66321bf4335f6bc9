/** utils.Tonality: a tonic, a scale type and a mode, with the chromatic scale
    from the tonic and the mode's scale, both PitchSets. Every attribute is
    set once by __init__, so a Tonality is a value. chords() builds a list
    step by step and is a method. */
module Tonalities {
  import opened Outcomes
  import opened Tables
  import opened PitchArith
  import opened PitchSets

  // Rotating an ascending scale template (utils.invert on C_BASE_SCALES)

  /** The template continued into the next octave: entry j for j < |t|, and
      entry j - |t| one octave up beyond that. */
  function Continued(t: seq<int>, j: nat): int
    requires j < 2 * |t|
  {
    if j < |t| then t[j] else t[j - |t|] + 12
  }

  /** The continued template keeps ascending, by less than an octave per
      step. */
  lemma ContinuedStep(t: seq<int>, j: nat)
    requires AscendingTemplate(t) && j + 1 < 2 * |t|
    ensures 0 < Continued(t, j + 1) - Continued(t, j) < 12
  {
    var n := |t|;
    if j + 1 == n {
      assert Below(t, 0, n - 1);
    } else if j + 1 < n {
      assert Below(t, j, j + 1);
      TemplateEntry(t, j);
      TemplateEntry(t, j + 1);
    } else {
      assert Below(t, j - n, j + 1 - n);
      TemplateEntry(t, j - n);
      TemplateEntry(t, j + 1 - n);
    }
  }

  /** Every template entry lies within the octave. */
  lemma TemplateEntry(t: seq<int>, k: nat)
    requires AscendingTemplate(t) && k < |t|
    ensures 0 <= t[k] < 12
  {
    var n := |t|;
    if 0 < k {
      assert Below(t, 0, k);
    }
    if k < n - 1 {
      assert Below(t, k, n - 1);
    }
  }

  /** The continued template climbs from any entry to any later one. */
  lemma {:induction false} ContinuedRises(t: seq<int>, a: nat, b: nat)
    requires AscendingTemplate(t) && a < b < 2 * |t|
    ensures Continued(t, a) < Continued(t, b)
    decreases b - a
  {
    ContinuedStep(t, b - 1);
    if a < b - 1 {
      ContinuedRises(t, a, b - 1);
    }
  }

  /** The distances of the continued template above entry m, one octave's
      worth, ascend within the octave like a template themselves: this is
      the structure of every mode. */
  lemma ModeAscending(t: seq<int>, m: nat, sv: seq<int>)
    requires AscendingTemplate(t) && m < |t| && |sv| == |t|
    requires forall i {:trigger sv[i]} :: 0 <= i < |t| ==> sv[i] == Continued(t, m + i) - t[m]
    ensures AscendingTemplate(sv)
  {
    var n := |t|;
    assert sv[0] == 0;
    ContinuedStep(t, m + n - 1);
    assert sv[n - 1] < Continued(t, m + n) - t[m] == 12;
    forall i, j | 0 <= i < j < n ensures Below(sv, i, j) {
      ContinuedRises(t, m + i, m + j);
    }
  }

  /** Entry (m + i) mod |t| of the template, which is note i of the template
      rotated by m, is entry m + i of the continued template, taken back into
      the octave when it runs past the end. */
  lemma RotatedNote(t: seq<int>, m: nat, i: nat)
    requires AscendingTemplate(t) && m < |t| && i < |t|
    ensures 0 <= t[(m + i) % |t|] < 12
    ensures t[(m + i) % |t|] == Continued(t, m + i) - (if m + i < |t| then 0 else 12)
  {
    var n := |t|;
    if m + i < n {
      ModBelow(m + i, n);
    } else {
      ModAbove(m + i, n);
    }
    TemplateEntry(t, (m + i) % n);
  }

  /** Each interval of the rotated template is the step of the continued
      template: the interval that wraps around the octave is the distance
      from the last entry up to the first one, plus an octave. */
  lemma RotatedInterval(t: seq<int>, m: nat, i: nat)
    requires AscendingTemplate(t) && m < |t| && i + 1 < |t|
    ensures (t[(m + i + 1) % |t|] - t[(m + i) % |t|]) % 12 == Continued(t, m + i + 1) - Continued(t, m + i)
  {
    RotatedNote(t, m, i);
    RotatedNote(t, m, i + 1);
    ContinuedStep(t, m + i);
    OneStep(t[(m + i) % |t|], t[(m + i + 1) % |t|], Continued(t, m + i), Continued(t, m + i + 1));
  }

  /** Two notes lying 0 or 12 below two ascending template entries less than
      an octave apart are that many semitones apart, counted upwards. */
  lemma OneStep(x: int, y: int, cx: int, cy: int)
    requires 0 < cy - cx < 12
    requires x == cx || x == cx - 12
    requires y == cy || y == cy - 12
    requires -12 < y - x < 12
    ensures (y - x) % 12 == cy - cx
  {
    if y - x == cy - cx {
      ModBelow(y - x, 12);
    } else {
      ModNegative(y - x, 12);
    }
  }

  /** The template rotated by m, continued: entry m + k for k < |t|. */
  function ContinuedFrom(t: seq<int>, m: nat): (c: seq<int>)
    requires m < |t|
    ensures |c| == |t|
  {
    seq(|t|, k requires 0 <= k < |t| => Continued(t, m + k))
  }

  /** The structure of a rotated template: the running totals of its
      intervals are the distances of the continued template above entry m. */
  lemma RotatedStructure(t: seq<int>, m: nat)
    requires AscendingTemplate(t) && m < |t|
    ensures Invert(t, m).Ok?
    ensures var sv := PrefixSums(Intervals(Invert(t, m).value));
            |sv| == |t| && forall i {:trigger sv[i]} :: 0 <= i < |t| ==> sv[i] == Continued(t, m + i) - t[m]
  {
    RotationStructure(t, m, Invert(t, m).value);
  }

  lemma RotationStructure(t: seq<int>, m: nat, r: seq<int>)
    requires AscendingTemplate(t) && m < |t|
    requires |r| == |t| && forall k {:trigger r[k]} :: 0 <= k < |t| ==> r[k] == t[(k + m) % |t|]
    ensures var sv := PrefixSums(Intervals(r));
            |sv| == |t| && forall i {:trigger sv[i]} :: 0 <= i < |t| ==> sv[i] == Continued(t, m + i) - t[m]
  {
    var iv := Intervals(r);
    var c := ContinuedFrom(t, m);
    forall k | 0 <= k < |iv| ensures iv[k] == c[k + 1] - c[k] {
      assert r[k] == t[(m + k) % |t|] && r[k + 1] == t[(m + k + 1) % |t|];
      RotatedInterval(t, m, k);
      IntervalAt(r, k);
    }
    Telescoping(iv, c);
  }

  /** Every rotation of an ascending template spans less than an octave, so a
      mode can always be built and named. */
  lemma RotatedSpan(t: seq<int>, m: nat)
    requires AscendingTemplate(t) && m < |t|
    ensures Invert(t, m).Ok?
    ensures Sum(Intervals(Invert(t, m).value)) <= 11
  {
    RotationSpan(t, m, Invert(t, m).value);
  }

  // The tonality (lines 129-152)

  datatype Tonality = Tonality(tonic: string, scaleType: string, mode: string, cromatic: PitchSet, scale: PitchSet)

  /** init_scale's modal_values: the tonic, then the tonic plus each running
      total of the intervals of the rotated template. */
  function ModalValues(tonic: int, rotated: seq<int>): (r: seq<int>)
    ensures |r| == |PrefixSums(Intervals(rotated))|
  {
    var sv := PrefixSums(Intervals(rotated));
    seq(|sv|, i requires 0 <= i < |sv| => tonic + sv[i])
  }

  /** init_scale: the template of the scale type rotated to the mode, its
      intervals re-stacked on the tonic. An unknown scale type is a KeyError
      and an unknown mode a ValueError. */
  function InitScale(tonic: string, scaleType: string, mode: string): Result<PitchSet>
  {
    var t :- NoteIndex(tonic);
    var template :- BaseScale(scaleType, 0);
    var m :- DegreeIndex(mode);
    var rotated :- Invert(template, m);
    Construct(ModalValues(t, rotated))
  }

  /** The chromatic scale rotated to the tonic; an unknown tonic is a
      ValueError (NOTES.index). */
  function CromaticSet(tonic: string): Result<PitchSet>
  {
    var t :- NoteIndex(tonic);
    var rotated :- Invert(CHROMATIC, t);
    Construct(rotated)
  }

  /** Tonality(tonic, scale_type, mode): the chromatic set, then the scale; the
      first of the two to fail decides the error. */
  function MakeTonality(tonic: string, scaleType: string, mode: string): Result<Tonality>
  {
    var cromatic := CromaticSet(tonic);
    var scale := InitScale(tonic, scaleType, mode);
    if cromatic.Err? then Err(cromatic.error)
    else if scale.Err? then Err(scale.error)
    else Ok(Tonality(tonic, scaleType, mode, cromatic.value, scale.value))
  }

  /** Re-stacking the intervals of a rotated ascending template on a tonic
      gives a scale that starts on the tonic and is the template shifted so
      that entry m lands on it; its structure is the distance of each note
      above the mode's first entry. */
  lemma ScaleOfTemplate(tv: int, t: seq<int>, m: nat)
    requires 0 <= tv < 12 && AscendingTemplate(t) && m < |t|
    ensures Invert(t, m).Ok?
    ensures var c := Construct(ModalValues(tv, Invert(t, m).value));
            && c.Ok?
            && |c.value.values| == |t|
            && (forall i {:trigger c.value.values[i]} :: 0 <= i < |t| ==>
                  c.value.values[i] == (tv + t[(m + i) % |t|] - t[m]) % 12)
            && (forall i {:trigger c.value.structureValues[i]} :: 0 <= i < |t| ==>
                  c.value.structureValues[i] == Continued(t, m + i) - t[m])
  {
    var r := Invert(t, m).value;
    RestackedScale(tv, t, m, r, ModalValues(tv, r));
  }

  lemma RestackedScale(tv: int, t: seq<int>, m: nat, r: seq<int>, modal: seq<int>)
    requires 0 <= tv < 12 && AscendingTemplate(t) && m < |t|
    requires |r| == |t| && forall k {:trigger r[k]} :: 0 <= k < |t| ==> r[k] == t[(k + m) % |t|]
    requires modal == ModalValues(tv, r)
    ensures var c := Construct(modal);
            && c.Ok?
            && |c.value.values| == |t|
            && (forall i {:trigger c.value.values[i]} :: 0 <= i < |t| ==>
                  c.value.values[i] == (tv + t[(m + i) % |t|] - t[m]) % 12)
            && (forall i {:trigger c.value.structureValues[i]} :: 0 <= i < |t| ==>
                  c.value.structureValues[i] == Continued(t, m + i) - t[m])
  {
    RotationStructure(t, m, r);
    RotationSpan(t, m, r);
    RestackedNotes(tv, t, m, r, modal);
  }

  /** The reduced notes of the re-stacked scale, and their intervals, which
      are those of the rotated template. */
  lemma RestackedNotes(tv: int, t: seq<int>, m: nat, r: seq<int>, modal: seq<int>)
    requires 0 <= tv < 12 && AscendingTemplate(t) && m < |t|
    requires |r| == |t| && forall k {:trigger r[k]} :: 0 <= k < |t| ==> r[k] == t[(k + m) % |t|]
    requires modal == ModalValues(tv, r)
    ensures |Reduce(modal)| == |t|
    ensures forall i {:trigger Reduce(modal)[i]} :: 0 <= i < |t| ==>
              Reduce(modal)[i] == (tv + t[(m + i) % |t|] - t[m]) % 12
    ensures Intervals(Reduce(modal)) == Intervals(r)
  {
    RotationStructure(t, m, r);
    var sv := PrefixSums(Intervals(r));
    var w := Reduce(modal);
    var c := tv - t[m];
    forall i | 0 <= i < |w|
      ensures w[i] == (tv + t[(m + i) % |t|] - t[m]) % 12
      ensures (w[i] - r[i] - c) % 12 == 0
    {
      RestackedNote(tv, t, m, i, sv[i], modal[i], w[i], r[i]);
    }
    SameSteps(w, r, c);
  }

  lemma SameSteps(w: seq<int>, r: seq<int>, c: int)
    requires |w| == |r|
    requires forall i {:trigger w[i]} :: 0 <= i < |w| ==> (w[i] - r[i] - c) % 12 == 0
    ensures Intervals(w) == Intervals(r)
  {
    IntervalsOfTransposition(w, r, c);
  }

  /** One note of the re-stacked scale: the tonic plus the i-th running total,
      reduced, is the tonic plus the template entry's distance above entry m. */
  lemma RestackedNote(tv: int, t: seq<int>, m: nat, i: nat, s: int, x: int, w: int, e: int)
    requires AscendingTemplate(t) && m < |t| && i < |t|
    requires s == Continued(t, m + i) - t[m] && x == tv + s
    requires 0 <= w < 12 && (w - x) % 12 == 0
    requires e == t[(i + m) % |t|]
    ensures w == (tv + t[(m + i) % |t|] - t[m]) % 12
    ensures (w - e - (tv - t[m])) % 12 == 0
  {
    RotatedNote(t, m, i);
    ModUnique(x, w);
    ShiftedEntry(tv - t[m], Continued(t, m + i), t[(m + i) % |t|], w);
  }

  /** A template entry taken back into the octave names the same pitch as
      the continued entry. */
  lemma ShiftedEntry(d: int, c: int, e: int, w: int)
    requires e == c || e == c - 12
    requires w == (d + c) % 12
    ensures w == (d + e) % 12 && (w - e - d) % 12 == 0
  {
  }

  lemma RotationSpan(t: seq<int>, m: nat, r: seq<int>)
    requires AscendingTemplate(t) && m < |t|
    requires |r| == |t| && forall k {:trigger r[k]} :: 0 <= k < |t| ==> r[k] == t[(k + m) % |t|]
    ensures Sum(Intervals(r)) <= 11
  {
    RotationStructure(t, m, r);
    if m > 0 {
      assert Below(t, m - 1, m);
    }
  }

  /** The chromatic scale rotated to tonic index tv is built, and note i of
      it is tv + i, within the octave. */
  lemma CromaticOf(tv: int)
    requires 0 <= tv < 12
    ensures Invert(CHROMATIC, tv).Ok?
    ensures var c := Construct(Invert(CHROMATIC, tv).value);
            && c.Ok?
            && |c.value.values| == 12
            && forall i {:trigger c.value.values[i]} :: 0 <= i < 12 ==> c.value.values[i] == (tv + i) % 12
  {
    var r := Invert(CHROMATIC, tv).value;
    assert AscendingTemplate(CHROMATIC);
    RotatedSpan(CHROMATIC, tv);
    ChromaticEntries();
    forall i | 0 <= i < 12 ensures r[i] == (tv + i) % 12 && 0 <= r[i] < 12 {
      assert r[i] == CHROMATIC[(i + tv) % 12];
    }
    ReduceInRange(r);
  }

  /** A tonality is built exactly when the tonic, the scale type and the mode
      are all known; otherwise the first unknown one decides the error: an
      unknown tonic is a ValueError (NOTES.index), an unknown scale type a
      KeyError, an unknown mode a ValueError (DEGREES.index). When it is
      built, its two sets are the rotated chromatic scale and the re-stacked
      rotated template. */
  lemma TonalityBuildsIff(tonic: string, scaleType: string, mode: string)
    ensures MakeTonality(tonic, scaleType, mode).Ok? <==>
              tonic in NOTES && ScaleTypeListed(scaleType) && mode in DEGREES
    ensures tonic !in NOTES ==> MakeTonality(tonic, scaleType, mode) == Err(ValueError)
    ensures tonic in NOTES && !ScaleTypeListed(scaleType) ==> MakeTonality(tonic, scaleType, mode) == Err(KeyError)
    ensures tonic in NOTES && ScaleTypeListed(scaleType) && mode !in DEGREES ==>
              MakeTonality(tonic, scaleType, mode) == Err(ValueError)
  {
    BaseScaleFound(scaleType, 0);
    if tonic in NOTES {
      var tv := NoteIndex(tonic).value;
      CromaticOf(tv);
      if ScaleTypeListed(scaleType) && mode in DEGREES {
        ScaleOfTemplate(tv, BaseScale(scaleType, 0).value, DegreeIndex(mode).value);
      }
    }
  }

  /** A built tonality holds the chromatic scale rotated to its tonic... */
  lemma CromaticPart(tn: Tonality, tv: int)
    requires MakeTonality(tn.tonic, tn.scaleType, tn.mode) == Ok(tn)
    requires NoteIndex(tn.tonic) == Ok(tv)
    ensures 0 <= tv < 12
    ensures Invert(CHROMATIC, tv).Ok? && Construct(Invert(CHROMATIC, tv).value) == Ok(tn.cromatic)
  {
  }

  /** ... and the template rotated to its mode, re-stacked on the tonic. */
  lemma ScalePart(tn: Tonality, tv: int, t: seq<int>, m: int)
    requires MakeTonality(tn.tonic, tn.scaleType, tn.mode) == Ok(tn)
    requires NoteIndex(tn.tonic) == Ok(tv) && BaseScale(tn.scaleType, 0) == Ok(t) && DegreeIndex(tn.mode) == Ok(m)
    ensures 0 <= tv < 12 && AscendingTemplate(t) && 0 <= m < |t|
    ensures Invert(t, m).Ok? && Construct(ModalValues(tv, Invert(t, m).value)) == Ok(tn.scale)
  {
    BaseScaleFound(tn.scaleType, 0);
    InitScaleOf(tn);
    InitScaleParts(tn.tonic, tn.scaleType, tn.mode, tn.scale, tv, t, m);
  }

  lemma InitScaleOf(tn: Tonality)
    requires MakeTonality(tn.tonic, tn.scaleType, tn.mode) == Ok(tn)
    ensures InitScale(tn.tonic, tn.scaleType, tn.mode) == Ok(tn.scale)
  {
  }

  lemma InitScaleParts(tonic: string, scaleType: string, mode: string, sc: PitchSet, tv: int, t: seq<int>, m: int)
    requires InitScale(tonic, scaleType, mode) == Ok(sc)
    requires NoteIndex(tonic) == Ok(tv) && BaseScale(scaleType, 0) == Ok(t) && DegreeIndex(mode) == Ok(m)
    ensures Invert(t, m).Ok? && Construct(ModalValues(tv, Invert(t, m).value)) == Ok(sc)
  {
  }

  /** A built tonality keeps the tonic, scale type and mode it was given. */
  lemma TonalityFields(tonic: string, scaleType: string, mode: string, tn: Tonality)
    requires MakeTonality(tonic, scaleType, mode) == Ok(tn)
    ensures tn.tonic == tonic && tn.scaleType == scaleType && tn.mode == mode
  {
  }

  /** `Tonality(tonic).cromatic`: the twelve pitch classes counted up from the
      tonic, whose index is tv. */
  lemma CromaticFormula(tn: Tonality, tv: int)
    requires MakeTonality(tn.tonic, tn.scaleType, tn.mode) == Ok(tn)
    requires NoteIndex(tn.tonic) == Ok(tv)
    ensures |tn.cromatic.values| == 12
    ensures forall i {:trigger tn.cromatic.values[i]} :: 0 <= i < 12 ==> tn.cromatic.values[i] == (tv + i) % 12
  {
    CromaticPart(tn, tv);
    CromaticOf(tv);
  }

  /** `Tonality(tonic, scale_type, mode).scale`, for a tonic of index tv, a
      template t and a mode of index m: the scale has |t| notes, starts on
      the tonic, and note i is the tonic plus the distance from t[m] to
      t[(m + i) mod |t|]; its structure is the distance of each note above
      the mode's first entry, counted upwards through the template. */
  lemma ScaleFormula(tn: Tonality, tv: int, t: seq<int>, m: int)
    requires MakeTonality(tn.tonic, tn.scaleType, tn.mode) == Ok(tn)
    requires NoteIndex(tn.tonic) == Ok(tv) && BaseScale(tn.scaleType, 0) == Ok(t) && DegreeIndex(tn.mode) == Ok(m)
    ensures 0 <= m < |t|
    ensures |tn.scale.values| == |t| && |tn.scale.structureValues| == |t| && tn.scale.values[0] == tv
    ensures forall i {:trigger tn.scale.values[i]} :: 0 <= i < |t| ==>
              tn.scale.values[i] == (tv + t[(m + i) % |t|] - t[m]) % 12
    ensures forall i {:trigger tn.scale.structureValues[i]} :: 0 <= i < |t| ==>
              tn.scale.structureValues[i] == Continued(t, m + i) - t[m]
  {
    ScalePart(tn, tv, t, m);
    ScaleOfTemplate(tv, t, m);
    ScaleNotes(tv, t, m, tn.scale);
  }

  lemma ScaleNotes(tv: int, t: seq<int>, m: nat, sc: PitchSet)
    requires 0 <= tv < 12 && AscendingTemplate(t) && m < |t|
    requires |sc.values| == |t| && |sc.structureValues| == |t|
    requires forall i {:trigger sc.values[i]} :: 0 <= i < |t| ==> sc.values[i] == (tv + t[(m + i) % |t|] - t[m]) % 12
    requires forall i {:trigger sc.structureValues[i]} :: 0 <= i < |t| ==>
               sc.structureValues[i] == Continued(t, m + i) - t[m]
    ensures && |sc.values| == |t|
            && sc.values[0] == tv
            && (forall i {:trigger sc.values[i]} :: 0 <= i < |t| ==> sc.values[i] == (tv + t[(m + i) % |t|] - t[m]) % 12)
            && (forall i {:trigger sc.structureValues[i]} :: 0 <= i < |t| ==>
                  sc.structureValues[i] == Continued(t, m + i) - t[m])
  {
    ModBelow(m, |t|);
  }

  /** `Tonality("A", mode="VI").scale` is A natural minor: A B C D E F G. */
  lemma AMinorExample()
    ensures MakeTonality("A", "diatonic", "VI").Ok?
    ensures MakeTonality("A", "diatonic", "VI").value.scale.values == [9, 11, 0, 2, 4, 5, 7]
  {
    ALookups();
    TonalityBuildsIff("A", "diatonic", "VI");
    var tn := MakeTonality("A", "diatonic", "VI").value;
    TonalityFields("A", "diatonic", "VI", tn);
    var tv, t, m := 9, [0, 2, 4, 5, 7, 9, 11], 5;
    ScaleFormula(tn, tv, t, m);
    MinorSixth(tn.scale.values, tv, t, m);
  }

  /** The table lookups of `Tonality("A", "diatonic", "VI")`. */
  lemma ALookups()
    ensures NoteIndex("A") == Ok(9)
    ensures DegreeIndex("VI") == Ok(5)
    ensures BaseScale("diatonic", 0) == Ok([0, 2, 4, 5, 7, 9, 11])
  {
    assert NOTES[9] == "A";
    assert NOTES[0] != "A" && NOTES[1] != "A" && NOTES[2] != "A" && NOTES[3] != "A" && NOTES[4] != "A";
    assert NOTES[5] != "A" && NOTES[6] != "A" && NOTES[7] != "A" && NOTES[8] != "A";
    assert DEGREES[5] == "VI";
    assert DEGREES[0] != "VI" && DEGREES[1] != "VI" && DEGREES[2] != "VI" && DEGREES[3] != "VI" && DEGREES[4] != "VI";
    assert C_BASE_SCALES[0].0 != "diatonic" && C_BASE_SCALES[1] == ("diatonic", [0, 2, 4, 5, 7, 9, 11]);
  }

  /** The diatonic template from its sixth entry, re-stacked on A. */
  lemma MinorSixth(v: seq<int>, tv: int, t: seq<int>, m: int)
    requires tv == 9 && t == [0, 2, 4, 5, 7, 9, 11] && m == 5 && |v| == |t|
    requires forall i {:trigger v[i]} :: 0 <= i < |t| ==> v[i] == (tv + t[(m + i) % |t|] - t[m]) % 12
    ensures v == [9, 11, 0, 2, 4, 5, 7]
  {
    assert v[0] == (9 + t[5] - t[5]) % 12;
    assert v[1] == (9 + t[6] - t[5]) % 12;
    assert v[2] == (9 + t[0] - t[5]) % 12;
    assert v[3] == (9 + t[1] - t[5]) % 12;
    assert v[4] == (9 + t[2] - t[5]) % 12;
    assert v[5] == (9 + t[3] - t[5]) % 12;
    assert v[6] == (9 + t[4] - t[5]) % 12;
  }
}
