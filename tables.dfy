/** The static tables of the_real_script/constants.py that the current draft
    (utils.py) reads, and the lookups made on them. */
module Tables {
  import opened Outcomes

  /** Note names, indexed by pitch class. */
  const NOTES: seq<string> := ["C", "Db", "D", "Eb", "E", "F", "F#", "G", "Ab", "A", "Bb", "B"]

  /** Scale-degree names, indexed from 0. */
  const DEGREES: seq<string> := ["I", "II", "III", "IV", "V", "VI", "VII"]

  /** Interval names, indexed by a distance of 0 to 12 semitones. */
  const INTERVALS: seq<string> :=
    ["P1", "m2", "M2", "m3", "M3", "P4", "TT", "P5", "m6", "M6", "m7", "M7", "P8"]

  /** The chromatic scale 0, 1, ..., 11. */
  const CHROMATIC: seq<int> := [0, 1, 2, 3, 4, 5, 6, 7, 8, 9, 10, 11]

  /** Entry k of the chromatic template is k. */
  lemma ChromaticEntries()
    ensures |CHROMATIC| == 12 && forall k {:trigger CHROMATIC[k]} :: 0 <= k < 12 ==> CHROMATIC[k] == k
  {
  }

  /** Scale templates: ascending semitone offsets from a tonic of 0, by scale
      type. */
  const C_BASE_SCALES: seq<(string, seq<int>)> := [
    ("cromatic", CHROMATIC),
    ("diatonic", [0, 2, 4, 5, 7, 9, 11]),
    ("melodic minor", [0, 2, 3, 5, 7, 9, 11]),
    ("harmonic minor", [0, 2, 3, 5, 7, 8, 11])
  ]

  /** Quality suffix of a set and the successive intervals that identify it,
      in the order the table lists them. */
  const PITCHSET_INTERVALS: seq<(string, seq<int>)> := [
    ("", [4, 3]),
    ("m", [3, 4]),
    ("maj7", [4, 3, 4]),
    ("m7", [3, 4, 3]),
    ("7", [4, 3, 3]),
    ("m7b5", [3, 3, 4]),
    ("m7(maj7)", [3, 4, 4]),
    ("maj7(#5)", [4, 4, 3]),
    ("dim", [3, 3, 3]),
    (" cromatic", [1, 1, 1, 1, 1, 1, 1, 1, 1, 1, 1]),
    (" ionian", [2, 2, 1, 2, 2, 2]),
    (" harmonic minor", [2, 1, 2, 2, 1, 3]),
    (" melodic minor", [2, 1, 2, 2, 2, 2])
  ]

  /** The suffix an interval tuple maps to in the inverted table, if any,
      searching from entry `start` on. */
  function Lookup(table: seq<(string, seq<int>)>, key: seq<int>, start: nat): Option<string>
    decreases |table| - start
  {
    if start >= |table| then None
    else if table[start].1 == key then Some(table[start].0)
    else Lookup(table, key, start + 1)
  }

  /** The lookup finds an entry with the key exactly when one exists. */
  lemma {:induction false} LookupFinds(table: seq<(string, seq<int>)>, key: seq<int>, start: nat)
    ensures Lookup(table, key, start).None? <==> forall k :: start <= k < |table| ==> table[k].1 != key
    ensures Lookup(table, key, start).Some? ==>
              exists k :: start <= k < |table| && table[k] == (Lookup(table, key, start).value, key)
    decreases |table| - start
  {
    if start < |table| && table[start].1 != key {
      LookupFinds(table, key, start + 1);
    }
  }

  /** PITCHSET_NAMES[intervals]: the quality suffix of a set, or None where the
      dictionary lookup raises KeyError. */
  function QualitySuffix(intervals: seq<int>): Option<string>
  {
    Lookup(PITCHSET_INTERVALS, intervals, 0)
  }

  /** A set has a quality suffix exactly when its interval tuple is listed,
      and then the suffix is the one listed beside it. */
  lemma QualitySuffixListed(intervals: seq<int>)
    ensures QualitySuffix(intervals).None? <==>
              forall k :: 0 <= k < |PITCHSET_INTERVALS| ==> PITCHSET_INTERVALS[k].1 != intervals
    ensures QualitySuffix(intervals).Some? ==>
              exists k :: 0 <= k < |PITCHSET_INTERVALS| && PITCHSET_INTERVALS[k] == (QualitySuffix(intervals).value, intervals)
  {
    LookupFinds(PITCHSET_INTERVALS, intervals, 0);
  }

  /** No two table entries share an interval tuple, so inverting the table
      into a dictionary loses nothing. */
  lemma NameKeysDistinct()
    ensures forall i, j :: 0 <= i < j < |PITCHSET_INTERVALS| ==> PITCHSET_INTERVALS[i].1 != PITCHSET_INTERVALS[j].1
  {
  }

  /** Position of the first occurrence of x in s at or after `start`. */
  function IndexFrom(s: seq<string>, x: string, start: nat): (r: Option<nat>)
    ensures r.None? <==> forall j :: start <= j < |s| ==> s[j] != x
    ensures r.Some? ==> start <= r.value < |s| && s[r.value] == x
    ensures r.Some? ==> forall j :: start <= j < r.value ==> s[j] != x
    decreases |s| - start
  {
    if start >= |s| then None
    else if s[start] == x then Some(start)
    else IndexFrom(s, x, start + 1)
  }

  /** Position of the first occurrence of x in s, like Python's tuple.index. */
  function IndexOf(s: seq<string>, x: string): (r: Option<nat>)
    ensures r.None? <==> x !in s
    ensures r.Some? ==> r.value < |s| && s[r.value] == x
    ensures r.Some? ==> forall j :: 0 <= j < r.value ==> s[j] != x
  {
    IndexFrom(s, x, 0)
  }

  /** NOTES.index(name): the pitch class of a note name, or ValueError. */
  function NoteIndex(name: string): (r: Result<int>)
    ensures r.Ok? <==> name in NOTES
    ensures r.Ok? ==> 0 <= r.value < 12 && NOTES[r.value] == name
    ensures r.Err? ==> r.error == ValueError
  {
    match IndexOf(NOTES, name)
    case None => Err(ValueError)
    case Some(i) => Ok(i)
  }

  /** DEGREES.index(name): the position of a degree name, or ValueError. */
  function DegreeIndex(name: string): (r: Result<int>)
    ensures r.Ok? <==> name in DEGREES
    ensures r.Ok? ==> 0 <= r.value < 7 && DEGREES[r.value] == name
    ensures r.Err? ==> r.error == ValueError
  {
    match IndexOf(DEGREES, name)
    case None => Err(ValueError)
    case Some(i) => Ok(i)
  }

  /** Entry i of t lies below entry j. */
  predicate Below(t: seq<int>, i: nat, j: nat)
    requires i < |t| && j < |t|
  {
    t[i] < t[j]
  }

  /** Every scale template is strictly ascending inside one octave and has at
      least seven notes, so every mode I..VII of it exists. */
  predicate AscendingTemplate(t: seq<int>)
  {
    && 7 <= |t|
    && 0 <= t[0]
    && t[|t| - 1] < 12
    && forall i, j :: 0 <= i < j < |t| ==> Below(t, i, j)
  }

  /** Every scale template starts on the tonic (0) and is ascending. */
  lemma BaseScalesAscending()
    ensures forall k :: 0 <= k < |C_BASE_SCALES| ==> AscendingTemplate(C_BASE_SCALES[k].1)
    ensures forall k :: 0 <= k < |C_BASE_SCALES| ==> C_BASE_SCALES[k].1[0] == 0
  {
    assert AscendingTemplate(C_BASE_SCALES[0].1);
    assert AscendingTemplate(C_BASE_SCALES[1].1);
    assert AscendingTemplate(C_BASE_SCALES[2].1);
    assert AscendingTemplate(C_BASE_SCALES[3].1);
  }

  /** A scale type with a template. */
  predicate ScaleTypeListed(name: string)
  {
    exists k :: 0 <= k < |C_BASE_SCALES| && C_BASE_SCALES[k].0 == name
  }

  /** C_BASE_SCALES[name], searching from entry `start` on; KeyError when the
      scale type has no template. */
  function BaseScale(name: string, start: nat): Result<seq<int>>
    decreases |C_BASE_SCALES| - start
  {
    if start >= |C_BASE_SCALES| then Err(KeyError)
    else if C_BASE_SCALES[start].0 == name then Ok(C_BASE_SCALES[start].1)
    else BaseScale(name, start + 1)
  }

  /** The lookup succeeds exactly for listed scale types, and then returns an
      ascending template. */
  lemma {:induction false} BaseScaleFound(name: string, start: nat)
    ensures BaseScale(name, start).Ok? <==> exists k :: start <= k < |C_BASE_SCALES| && C_BASE_SCALES[k].0 == name
    ensures BaseScale(name, start).Err? ==> BaseScale(name, start).error == KeyError
    ensures BaseScale(name, start).Ok? ==> AscendingTemplate(BaseScale(name, start).value)
    decreases |C_BASE_SCALES| - start
  {
    BaseScalesAscending();
    if start < |C_BASE_SCALES| && C_BASE_SCALES[start].0 != name {
      BaseScaleFound(name, start + 1);
    }
  }

  /** Every template has seven notes except the chromatic one, which has
      twelve. */
  lemma {:induction false} BaseScaleSizes(name: string, start: nat)
    ensures BaseScale(name, start).Ok? ==> |BaseScale(name, start).value| == 7 || |BaseScale(name, start).value| == 12
    ensures BaseScale(name, start).Ok? ==> (|BaseScale(name, start).value| == 12 <==> name == "cromatic")
    decreases |C_BASE_SCALES| - start
  {
    if start < |C_BASE_SCALES| && C_BASE_SCALES[start].0 != name {
      BaseScaleSizes(name, start + 1);
    }
  }
}
