# The Real Script: pitch-class arithmetic, scales and chords

The Real Script is a small music-theory engine. It represents notes as pitch
classes 0..11 (C = 0, Db = 1, ..., B = 11). It builds named sets of notes (a
`PitchSet`), modes of scale templates on a tonic (a `Tonality`), and chords
that stack every other note of a scale. The repository holds two drafts of
this core, and both are modelled here:

- `the_real_script/utils.py` is the current draft:
  - `invert` and `calculate_intervals`;
  - `PitchSet`, with its name, third, arithmetic and inversion;
  - `Tonality`, with its chromatic set, its scale and `chords`.
- `the_real_script/main.py` is the earlier draft:
  - `flatten` and its own `calculate_intervals`;
  - a `Tonality` that reads its mode off the scale of the tonic and stacks every degree's chord in advance.

Modules:

- `outcomes.dfy` (`Outcomes`): the Python exceptions the core raises, as an `Error` datatype. It also holds the `Result` and `Option` wrappers.
- `tables.dfy` (`Tables`):
  - the tables of `constants.py`: `NOTES`, `DEGREES`, `INTERVALS`, `C_BASE_SCALES` and `PITCHSET_INTERVALS`;
  - the lookups made on them: `NOTES.index`, `DEGREES.index`, `C_BASE_SCALES[...]` and `PITCHSET_NAMES[...]`.
- `pitch_arith.dfy` (`PitchArith`):
  - reduction modulo 12, `invert`, `calculate_intervals` and the running totals;
  - Python's slices `s[a:b:2]` and `s[0:stop]`.
- `pitch_set.dfy` (`PitchSets`):
  - `PitchSet`, as a datatype whose fields are set once by the constructor;
  - the constructor, with its TypeError and IndexError paths;
  - name, third, `+`, `-`, reflected `-` and `invert`.
- `tonality.dfy` (`Tonalities`): `utils.Tonality` and its construction. It covers the chromatic set, `init_scale` and the error order.
- `chords.dfy` (`TonalityChords`):
  - `Tonality.chords` as a method with a loop over the requested degrees;
  - the chord formula;
  - which chord sizes build on which scales.
- `early_draft.dfy` (`EarlyDraft`):
  - `flatten`, as a method with two `while` loops;
  - `main.calculate_intervals`;
  - the earlier `Tonality`, its chord table and `get_chord_note_names`;
  - lemmas relating the two drafts.

Python exceptions are modelled as `Err(...)` values naming the exception class. Integers are unbounded.

## Model

Every member below that builds a `PitchSet` uses the corrected constructor `PitchSets.Construct`, which builds a one-note set. As written, a one-note set raises TypeError (see "## Findings" and `PitchSets.OneNoteAsWritten`). The members whose statements cover one-note sets are named under "## Left out".

| member | source | states |
|---|---|---|
| PitchArith.Reduce | the_real_script/utils.py:63 | `values % 12` keeps the length, and every element is in 0..11 and congruent to its input |
| PitchArith.ReduceIdempotent | the_real_script/utils.py:63 | reducing twice is reducing once |
| PitchArith.Invert | the_real_script/utils.py:16-21 | ValueError exactly when abs(k) > len - 1; otherwise the same length, with element i equal to v[(i + k) mod len], i.e. rotated left by k (right for negative k) |
| PitchArith.InvertRoundTrip | the_real_script/utils.py:16-21 | inverting by k and then by -k gives back the input |
| PitchArith.Intervals | the_real_script/utils.py:24-28 | len - 1 intervals (none for empty input), each in 0..11, each taking note i to note i + 1 up to octaves |
| PitchArith.IntervalsOfTransposition | the_real_script/utils.py:24-28 | two sequences that differ by one constant modulo 12 have the same intervals |
| PitchArith.PrefixSums | the_real_script/utils.py:65 | `hstack([0, cumsum(s)])` has len + 1 entries, starts at 0 and ends at the total |
| PitchArith.PrefixSumsBounded | the_real_script/utils.py:72 | for non-negative steps, every running total is within a bound iff the grand total is |
| PitchArith.CircleSpan | the_real_script/utils.py:16-28 | rotating values whose intervals add up to at most 12 gives values whose intervals still add up to at most 12 (the steps once around the circle total 0 or 12) |
| PitchArith.StructureCongruence | the_real_script/utils.py:64-65 | note 0 plus the i-th running total of the intervals is note i up to octaves |
| PitchArith.EveryOther | the_real_script/utils.py:172 | `s[start:stop:2]` has (min(stop, len) - start + 1) / 2 elements, element j being s[start + 2j] |
| PitchArith.SliceEnd | the_real_script/utils.py:173 | where `s[0:stop]` ends, including a negative stop counted from the end |
| Tables.NoteIndex | the_real_script/utils.py:148 | `NOTES.index(name)` succeeds exactly for a note name, with the index of that name in 0..11; ValueError otherwise |
| Tables.DegreeIndex | the_real_script/utils.py:149 | `DEGREES.index(mode)` succeeds exactly for I..VII, giving the index 0..6; ValueError otherwise |
| Tables.BaseScaleFound | the_real_script/utils.py:149 | `C_BASE_SCALES[scale_type]` succeeds exactly for a listed scale type (KeyError otherwise) and gives an ascending template within the octave |
| Tables.BaseScale | the_real_script/utils.py:149 | no contract of its own: `C_BASE_SCALES[scale_type]` as a search of the table, KeyError when the name is not listed; BaseScaleFound and BaseScaleSizes state what it returns |
| Tables.BaseScaleSizes | the_real_script/constants.py:3-8 | every template has 7 or 12 notes, and 12 exactly when it is the chromatic ("cromatic") one |
| Tables.BaseScalesAscending | the_real_script/constants.py:3-8 | every template starts at 0, ascends strictly within one octave and has at least 7 notes |
| Tables.QualitySuffixListed | the_real_script/utils.py:108 | `PITCHSET_NAMES[intervals]` is found exactly when some table entry has those intervals, and gives that entry's suffix |
| Tables.QualitySuffix | the_real_script/utils.py:108 | no contract of its own: `PITCHSET_NAMES[interval_values]`, with None where the dictionary raises KeyError; QualitySuffixListed states it |
| Tables.NameKeysDistinct | the_real_script/constants.py:16-38 | no two entries share an interval tuple, so inverting the table into `PITCHSET_NAMES` loses nothing |
| PitchSets.StructureFitsIff | the_real_script/utils.py:72 | every structure value names an interval iff the intervals add up to at most 12 |
| PitchSets.Construct | the_real_script/utils.py:62-73 | built iff the input is non-empty and its intervals add up to at most 12 (IndexError otherwise); the set is valid, keeps the length, and value i is input i modulo 12 |
| PitchSets.RawValues | the_real_script/utils.py:42-60 | TypeError exactly for an argument of another type or a sequence with a non-integer element |
| PitchSets.Build | the_real_script/utils.py:39-73 | the constructor's TypeError paths; an int n gives the set [n mod 12]; a sequence of ints or another PitchSet goes through the value constructor |
| PitchSets.ConstructReduced | the_real_script/utils.py:63 | building from reduced values builds the same set |
| PitchSets.ValidReconstructs | the_real_script/utils.py:51-65 | building from a valid set's values, or from the set itself, gives that set back |
| PitchSets.PitchSet.Tonic | the_real_script/utils.py:68 | no contract of its own: `NOTES[values[0]]` of a valid set; TransposeKeepsShape states how transposition moves it |
| PitchSets.PitchSet.Notes | the_real_script/utils.py:69 | one note name per value |
| PitchSets.PitchSet.IntervalNamesOf | the_real_script/utils.py:71 | one interval name per interval value |
| PitchSets.PitchSet.StructureNames | the_real_script/utils.py:72 | one interval name per structure value; StructureFitsIff states why every lookup succeeds on a valid set |
| PitchSets.PitchSet.Name | the_real_script/utils.py:105-110 | no contract of its own; NameMeaning states it |
| PitchSets.PitchSet.Third | the_real_script/utils.py:112-119 | no contract of its own; ThirdFromPitchContent states it |
| PitchSets.IntervalMeaning | the_real_script/utils.py:64 | interval i of a set is in 0..11 and takes value i to value i + 1 up to octaves |
| PitchSets.StructureMeaning | the_real_script/utils.py:65 | structure i is in 0..12, starts at 0, and is how far value i lies above the first value, up to octaves |
| PitchSets.NameMeaning | the_real_script/utils.py:105-110 | the name is known iff the table lists the intervals, and then it is tonic name plus suffix; otherwise it is Unknown with the note names; it never fails |
| PitchSets.ThirdFromPitchContent | the_real_script/utils.py:112-119 | minor iff some note lies 3 semitones above the first; else major iff some lies 4 above; else suspended |
| PitchSets.MajorTriadExample | the_real_script/utils.py:105-119 | [0, 4, 7] is named "C" and has a major third |
| PitchSets.MinorTriadExample | the_real_script/utils.py:105-119 | [0, 3, 7] is named "Cm" and has a minor third |
| PitchSets.UnknownSetExample | the_real_script/utils.py:112-119 | [0, 1, 6] has neither a 3 nor a 4 in its structure, so it is suspended |
| PitchSets.UnknownSetName | the_real_script/utils.py:109-110 | [0, 1, 6] is not in the table, so its name is Unknown(C, Db, F#) |
| PitchSets.Broadcast | the_real_script/utils.py:87 | element-wise + or - when the lengths agree or one side has one element (broadcast); ValueError otherwise |
| PitchSets.Combine | the_real_script/utils.py:85-95 | no contract of its own: build the operand, broadcast `+` or `-`, build the result; CombineRefused, CombineValues and TransposeValues state it |
| PitchSets.Add | the_real_script/utils.py:85-91 | no contract of its own: `a + b`, and `b + a` through `__radd__`; AddCommutes, CombineValues and TransposeValues state it |
| PitchSets.Sub | the_real_script/utils.py:93-95 | no contract of its own: `a - b`; CombineValues, TransposeValues and TransposeRoundTrip state it |
| PitchSets.RSub | the_real_script/utils.py:97-99 | no contract of its own: `n - a` builds `PitchSet(n)` and subtracts a from it; RSubValues and ReflectedTriadFails state it |
| PitchSets.CombineRefused | the_real_script/utils.py:85-99 | operands of different lengths, neither of length one, fail with ValueError |
| PitchSets.CombineValues | the_real_script/utils.py:85-99 | a successful sum or difference has, at each position, the sum or difference of the operands' values modulo 12, with a one-note side broadcast |
| PitchSets.BroadcastReduced | the_real_script/utils.py:87 | the set built from a broadcast sum or difference holds that sum or difference modulo 12 |
| PitchSets.BroadcastCommutes | the_real_script/utils.py:87-91 | broadcasting `+` does not depend on the operand order |
| PitchSets.AddCommutes | the_real_script/utils.py:85-91 | a + b and b + a are the same set |
| PitchSets.TransposedValues | the_real_script/utils.py:85-95 | transposing in-octave values by an int always builds, giving value i shifted by k modulo 12 with unchanged intervals and structure |
| PitchSets.TransposeValues | the_real_script/utils.py:85-95 | a + k and a - k always build, shift every value by k modulo 12, and keep the interval and structure values |
| PitchSets.TransposeKeepsShape | the_real_script/utils.py:85-95 | transposition keeps interval names, structure names and third; it moves the tonic by k; a known name stays known |
| PitchSets.TransposeRoundTrip | the_real_script/utils.py:85-95 | (a + k) - k == a and (a - k) + k == a |
| PitchSets.MirrorIntervals | the_real_script/utils.py:97-99 | reflecting values as n - v turns each interval i into 12 - i, modulo 12 |
| PitchSets.RSubValues | the_real_script/utils.py:97-99 | n - a builds iff the reflected values' intervals add up to at most 12 (IndexError otherwise), and then holds (n - v) mod 12 |
| PitchSets.ReflectedTriadFails | the_real_script/utils.py:97-99 | 0 - C major triad fails with IndexError, because its reflection's intervals exceed an octave |
| PitchSets.MirrorOfTriad | the_real_script/utils.py:97-99 | the reflection of [0, 4, 7] through 0 is [0, 8, 5] |
| PitchSets.InvertSet | the_real_script/utils.py:121-123 | PitchSet.invert fails with ValueError iff abs(k) > len - 1; otherwise a valid set always builds its inversion, whose values are its own rotated left by k |
| PitchSets.InvertSetRoundTrip | the_real_script/utils.py:121-123 | for a valid set and abs(k) <= len - 1, inverting by k and then by -k gives the set back |
| PitchSets.ConstructAsWritten | the_real_script/utils.py:65-72 | the constructor as written: TypeError on one value, the intended constructor otherwise |
| PitchSets.BuildAsWritten | the_real_script/utils.py:39-73 | no contract of its own: the constructor's type checks followed by the as-written constructor; OneNoteAsWritten states it |
| PitchSets.CombineAsWritten | the_real_script/utils.py:85-95 | no contract of its own: `+` and `-` through the as-written constructor; OneNoteAsWritten states it |
| PitchSets.RSubAsWritten | the_real_script/utils.py:97-99 | no contract of its own: `n - a` through the as-written constructor; OneNoteAsWritten states it |
| PitchSets.OneNoteAsWritten | the_real_script/utils.py:85-99 | as written, PitchSet(n), a + n, a - n and n - a fail with TypeError, while the intended constructor builds the first three |
| Tonalities.ContinuedRises | the_real_script/utils.py:149-151 | a template read on into its next octave strictly rises |
| Tonalities.ModeAscending | the_real_script/utils.py:149-151 | the structure of a mode of an ascending template is itself an ascending template |
| Tonalities.RotatedStructure | the_real_script/utils.py:149-151 | the running totals of the rotated template's intervals are the distances of the mode's notes above its first, read upwards |
| Tonalities.RotatedSpan | the_real_script/utils.py:149-151 | a mode's intervals add up to at most 11, so its scale always builds |
| Tonalities.CromaticOf | the_real_script/utils.py:139 | the chromatic set on tonic index t always builds, and note i is (t + i) mod 12 |
| Tonalities.ScaleOfTemplate | the_real_script/utils.py:146-152 | re-stacking mode m of template T on tonic t always builds, with note i = (t + T[(m + i) mod n] - T[m]) mod 12 |
| Tonalities.ModalValues | the_real_script/utils.py:151 | `hstack([t, t + cumsum(intervals)])` has one entry per running total; ScaleOfTemplate states the notes it gives |
| Tonalities.CromaticSet | the_real_script/utils.py:139 | no contract of its own: the chromatic scale inverted to the tonic index, ValueError for an unknown tonic; CromaticOf and CromaticFormula state it |
| Tonalities.InitScale | the_real_script/utils.py:146-152 | no contract of its own: look up tonic, template and mode, rotate, re-stack on the tonic; ScaleOfTemplate and ScaleFormula state it |
| Tonalities.MakeTonality | the_real_script/utils.py:129-140 | no contract of its own: the chromatic set, then the scale, the first failure deciding the error; TonalityBuildsIff, TonalityFields and ScaleFormula state it |
| Tonalities.TonalityBuildsIff | the_real_script/utils.py:129-152 | built iff the tonic, scale type and mode are known; the first unknown one decides the error (ValueError, KeyError, ValueError) |
| Tonalities.TonalityFields | the_real_script/utils.py:136-138 | a built tonality keeps the tonic, scale type and mode it was given |
| Tonalities.CromaticFormula | the_real_script/utils.py:139 | `cromatic.values[i] == (t + i) mod 12` |
| Tonalities.ScaleFormula | the_real_script/utils.py:146-152 | the scale has n notes and starts on the tonic; `scale.values[i] == (t + T[(m + i) mod n] - T[m]) mod 12`; its structure is each note's distance above the first |
| Tonalities.AMinorExample | the_real_script/utils.py:146-152 | `Tonality("A", mode="VI")` has the scale [9, 11, 0, 2, 4, 5, 7] |
| TonalityChords.DegreePosition | the_real_script/utils.py:163-169 | an int d stands for d - 1 and a name for its DEGREES index; ValueError unless that is in 0..6 |
| TonalityChords.StackedNotes | the_real_script/utils.py:171-172 | no contract of its own: `(list(scale) * 3)[dv:dv + 14:2]`; StackedChord states it |
| TonalityChords.ChordAt | the_real_script/utils.py:163-174 | no contract of its own: the degree position, the stacked notes cut to `[0:size]`, built into a PitchSet; ChordFormula and ChordBuildsIff state it |
| TonalityChords.StackedChord | the_real_script/utils.py:171-173 | on a scale of at least 7 notes, the cut chord has min(size, 7) notes (a negative size counts from the end), note j being the scale note 2j degrees up, wrapping |
| TonalityChords.ChordFormula | the_real_script/utils.py:163-174 | a built chord is valid and has SliceEnd(7, size) notes, with `chord[j] == scale[(d + 2j) mod n]` |
| TonalityChords.Chords | the_real_script/utils.py:154-179 | succeeds iff every requested chord builds; otherwise fails with the error of the first chord that does not; results come in request order; one degree gives a bare PitchSet |
| TonalityChords.ChordBuildsIff | the_real_script/utils.py:171-174 | on a scale read off an ascending structure, a chord builds iff it is non-empty and spans at most an octave; IndexError otherwise |
| TonalityChords.SevenNoteChords | the_real_script/utils.py:171-174 | on a 7-note scale exactly the chords of 1 to 4 notes build; 5 or more notes raise IndexError |
| TonalityChords.SevenSpan | the_real_script/utils.py:171-174 | on a 7-note structure, k stacked thirds span at most an octave iff k <= 4 |
| TonalityChords.ChromaticChords | the_real_script/utils.py:171-174 | on a scale of 12 or more notes, every non-empty chord builds |
| TonalityChords.WideSpan | the_real_script/utils.py:171-174 | on a 12-note structure, 7 stacked steps of two span at most an octave |
| TonalityChords.ScaleClimbs | the_real_script/utils.py:146-152 | a built tonality's scale has the template's length and climbs along its own structure |
| TonalityChords.TonalityChordSizes | the_real_script/utils.py:154-174 | on a built tonality, a chord builds iff it has 1 to 4 notes (7-note templates) or at least 1 note (the chromatic template); the error is IndexError |
| TonalityChords.CMajorBuilds | the_real_script/utils.py:154-179 | `Tonality("C").chords("I")` builds; `chords("I", 5)` raises IndexError |
| TonalityChords.CMajorScale | the_real_script/utils.py:146-152 | `Tonality("C").scale.values == [0, 2, 4, 5, 7, 9, 11]` |
| TonalityChords.CMajorNotes | the_real_script/utils.py:171-174 | the four-note chord on degree I of C major is [0, 4, 7, 11] |
| TonalityChords.SeventhName | the_real_script/utils.py:105-110 | a set on C E G B steps 4, 3, 4 and is named "Cmaj7" |
| TonalityChords.CMajorSeventh | the_real_script/utils.py:154-179 | `Tonality("C").chords("I")` is [0, 4, 7, 11], intervals [4, 3, 4], named "Cmaj7" |
| EarlyDraft.Flatten | the_real_script/main.py:50-56 | the two loops end, and the result is every note modulo 12 |
| EarlyDraft.LowerStep | the_real_script/main.py:52-53 | after k passes a note is still above 11 iff it has not yet had all its lowerings |
| EarlyDraft.RaiseStep | the_real_script/main.py:54-55 | after k passes a note is still below 0 iff it has not yet had all its raisings, and it never passes 11 |
| EarlyDraft.FlattenTranspositions | tests/test_the_real_script.py:26-36 | notes raised by a and lowered by b flatten alike iff a + b is a multiple of 12 |
| EarlyDraft.FlattenOctaves | the_real_script/main.py:50-56 | shifting by whole octaves does not change the flattened notes |
| EarlyDraft.FlattenTestPairs | tests/test_the_real_script.py:12-36 | for C major and every pair of the test, raising and lowering flatten alike, within 0..11 |
| EarlyDraft.CalculateIntervals | the_real_script/main.py:59-63 | the earlier draft's intervals are the current draft's intervals |
| EarlyDraft.NoteValue | the_real_script/main.py:86 | `NOTE_VALUES[tonic]` succeeds exactly for a note name, with its pitch class; KeyError otherwise |
| EarlyDraft.DegreeValue | the_real_script/main.py:29-30 | `DEGREE_VALUES[mode]` succeeds exactly for I..VIII, giving the index 0..7; KeyError otherwise |
| EarlyDraft.ScaleIndex | the_real_script/main.py:90 | no contract of its own: `SCALE_INDEX[scale_type]`, KeyError when not listed; ScaleIndexFound states it |
| EarlyDraft.NoteName | the_real_script/main.py:125 | `NOTE_NAMES.get(v)` is a name exactly for 0..11, the name whose value is v |
| EarlyDraft.ScaleIndexFound | the_real_script/main.py:90 | `SCALE_INDEX[scale_type]` succeeds exactly for a listed scale type (KeyError otherwise) and gives an ascending template of 5 or 7 notes |
| EarlyDraft.SharedTemplates | the_real_script/main.py:16-21 | a scale type known to both drafts has the same template in both |
| EarlyDraft.CromaticCount | the_real_script/main.py:84-86 | `cromatic_values[i] == (t + i) mod 12` |
| EarlyDraft.CromaticValues | the_real_script/main.py:84-86 | built iff the tonic is a note name; KeyError otherwise |
| EarlyDraft.CromaticDraftsAgree | the_real_script/main.py:84-86 | the chromatic values equal the current draft's chromatic set on the same tonic; an unknown tonic is KeyError here and ValueError there |
| EarlyDraft.ModeIndex | the_real_script/main.py:88-103 | no contract of its own: init_mode_index; ModeIndexFormula, ModeIndexErrors and EighthDegreeFails state it |
| EarlyDraft.ModeIndexFormula | the_real_script/main.py:88-103 | for template T and mode m, AttributeError iff m + 1 > n; otherwise n entries with entry i = T[(m + i) mod n] |
| EarlyDraft.ModeIndexErrors | the_real_script/main.py:90-92 | an unknown scale type, and then an unknown mode, raise KeyError |
| EarlyDraft.EighthDegreeFails | the_real_script/main.py:94-98 | mode "VIII" never has a mode index, since no template has eight notes |
| EarlyDraft.Take | the_real_script/main.py:105-107 | `values[index]` succeeds iff every index is within -len..len-1 (IndexError otherwise), giving the value at each index, negative indexes counted from the end |
| EarlyDraft.ChordValues | the_real_script/main.py:109-115 | one chord per mode note; ChordValuesFormula and ChordValuesLengths state the chords |
| EarlyDraft.ChordValuesFormula | the_real_script/main.py:109-115 | the chord on degree d has (min(d + 14, 3n) - d + 1) / 2 notes, with note j = mode[(d + 2j) mod n] |
| EarlyDraft.ChordValuesLengths | the_real_script/main.py:109-115 | every chord of a 7-note mode has 7 notes; a 5-note mode's chords have 7, 7, 7, 6 and 6 notes |
| EarlyDraft.EarlyTonalityErrors | the_real_script/main.py:84-92 | an unknown tonic, then an unknown scale type, then an unknown mode each raise KeyError |
| EarlyDraft.EarlyTonalityBuildsIff | the_real_script/main.py:88-107 | with all names known, built iff the mode is a degree of the template; AttributeError otherwise |
| EarlyDraft.MakeEarlyTonality | the_real_script/main.py:66-107 | no contract of its own: chromatic values, mode index, mode values and chord values in turn, the first failure deciding the error; EarlyTonalityErrors, EarlyTonalityBuildsIff, EarlyFields and EarlyModeValues state it |
| EarlyDraft.EarlyFields | the_real_script/main.py:76-78 | a built tonality keeps the tonic, scale type and mode it was given |
| EarlyDraft.EarlyModeValues | the_real_script/main.py:105-107 | `mode_values[i] == (t + T[(m + i) mod n]) mod 12`, so the mode starts on t + T[m], not on t |
| EarlyDraft.ChordNoteNames | the_real_script/main.py:121-126 | KeyError for an unknown degree, IndexError for a degree past the last chord, names otherwise |
| EarlyDraft.EarlyChordNames | the_real_script/main.py:121-126 | on a built tonality and a degree of it, the names of the first SliceEnd(len(chord), amount) chord notes, every one a note name; note j is the mode note 2j degrees up |
| EarlyDraft.DegreeTablesAgree | the_real_script/main.py:29-31 | a degree name of the current draft has the same index in the earlier draft's table |
| EarlyDraft.DraftModesAgree | the_real_script/main.py:105-107 | the earlier mode on tonic t is the current draft's scale on tonic t + T[m], for the same scale type and mode |
| EarlyDraft.EarlyCMajorBuilds | the_real_script/main.py:66-82 | `Tonality("C")` builds |
| EarlyDraft.EarlyCMajor | the_real_script/main.py:105-107 | `Tonality("C").mode_values == [0, 2, 4, 5, 7, 9, 11]` |
| EarlyDraft.EarlyAMinor | tests/test_the_real_script.py:9 | `Tonality("C", mode="VI").mode_values` is the A minor of the test module, [9, 11, 0, 2, 4, 5, 7] |
| EarlyDraft.EarlyDominantNames | the_real_script/main.py:121-126 | `Tonality("C").get_chord_note_names("V")` is G, B, D, F |
| EarlyDraft.PentatonicChords | the_real_script/main.py:109-115 | on C major pentatonic, the chords have 7, 7, 7, 6 and 6 notes, and mode VI raises AttributeError |

## Left out

- NumPy mechanics are modelled as sequences of integers:
  - arrays, `hstack`, `cumsum`, `vectorize` and dtypes;
  - broadcasting beyond equal lengths or a length-one operand;
  - two-dimensional inputs to `flatten`.
- Integers are unbounded; the 64-bit width of NumPy integers is not modelled. No input here comes near it.
- Exception messages are not modelled, only the exception class.
- `bool` counting as `int` is not modelled. A value handed to the constructor is an int, or something else.
- Degrees that are neither `str` nor `int` are not modelled; degrees are a datatype of the two accepted kinds. In the source (the_real_script/utils.py:161-169) such a degree raises UnboundLocalError when it comes first. Later in the list it silently reuses the previous degree's `degree_value`, so `chords(["I", 2.5])` returns the chord on I twice.
- `__repr__`, `__iter__` and `__getitem__` (the_real_script/utils.py:76-83, 101-103) are views of `notes` and `name`.
- The "Unknown set" text (the_real_script/utils.py:110) is modelled as a tagged `Unknown` value carrying the note names.
- Default arguments (`scale_type="diatonic"`, `mode="I"`, `size=4`, `amount=4`) are explicit parameters.
- The driver lines at the end of the_real_script/main.py (129-132) are not modelled.
- `get_note_names` (the_real_script/main.py:117-119) is not modelled.
- EarlyDraft.CromaticValues uses `Reduce` for `flatten`, because a function cannot call a method. `EarlyDraft.Flatten` is proved to compute `Reduce`.
- EarlyDraft.ChordNoteNames returns `NOTE_NAMES.get` results as `Option` values. On a built tonality all of them are names (`EarlyDraft.EarlyChordNames`).
- `np.vectorize` raises ValueError on an empty chord. No built tonality has an empty chord, so that path is left out.
- PitchSets.Construct: models the corrected constructor; as written, one value raises TypeError (`PitchSets.ConstructAsWritten`).
- PitchSets.Build: an int n gives the set [n mod 12] only with the corrected constructor; as written it raises TypeError.
- PitchSets.CombineValues: a one-note operand is broadcast with the corrected constructor; as written, building that operand raises TypeError.
- PitchSets.TransposedValues: holds for the corrected constructor; as written, `a + k` and `a - k` raise TypeError.
- PitchSets.TransposeValues: the corrected half of the finding; as written, `a + k` and `a - k` raise TypeError.
- PitchSets.TransposeKeepsShape: holds for the corrected constructor; as written, there is no transposed set to compare.
- PitchSets.TransposeRoundTrip: holds for the corrected constructor; as written, both sides raise TypeError.
- PitchSets.RSubValues: holds for the corrected constructor; as written, `n - a` raises TypeError while building `PitchSet(n)`.
- PitchSets.ReflectedTriadFails: the IndexError is the corrected constructor's; as written, `0 - a` raises TypeError first.
- TonalityChords.ChordFormula: size 1 builds only with the corrected constructor; as written, a one-note chord raises TypeError.
- TonalityChords.Chords: a requested size of 1 builds only with the corrected constructor; as written it raises TypeError.
- TonalityChords.ChordBuildsIff: a one-note chord builds only with the corrected constructor; as written it raises TypeError.
- TonalityChords.SevenNoteChords: the size-1 chord builds only with the corrected constructor; as written it raises TypeError.
- TonalityChords.ChromaticChords: the size-1 chord builds only with the corrected constructor; as written it raises TypeError.
- TonalityChords.TonalityChordSizes: the size-1 chord builds only with the corrected constructor; as written it raises TypeError.
- Operands of `+` and `-` are never modified. PitchSets are immutable values here, so this holds without a lemma.

## Findings

| source | as written | input that shows it | evidently intended | confidence | as-written member | corrected member |
|---|---|---|---|---|---|---|
| the_real_script/utils.py:65 | for one value, `np.cumsum(())` is a float array, so `structure_values` is `[0.]`; `INTERVALS[0.]` at line 72 then raises TypeError | `PitchSet(3)`, `a + 3`, `3 - a`, `chords("I", 1)` | a one-note set with structure [0], so integer transposition works | high (not executed) | PitchSets.OneNoteAsWritten | PitchSets.TransposeValues |
