/** utils.PitchSet: an ordered collection of pitch classes (a chord, a scale or
    a melody). Everything __init__ stores is determined by the reduced values
    and is never updated afterwards, so a PitchSet is a value: the numeric
    attributes are fields, the naming attributes are functions of them, and
    arithmetic returns a new PitchSet. */
module PitchSets {
  import opened Outcomes
  import opened Tables
  import opened PitchArith

  /** An element of a tuple, list or array handed to the constructor. */
  datatype Item = IntItem(n: int) | OtherItem

  /** What the constructor accepts: an int, a sequence, another PitchSet, or
      (refused) anything else. */
  datatype Input = IntArg(n: int) | SeqArg(items: seq<Item>) | SetArg(source: PitchSet) | OtherArg

  /** init_third's three answers: "minor", "major", "suspended". */
  datatype ThirdKind = Minor | Major | Suspended

  /** The name of a set: tonic plus quality suffix, or the "Unknown set"
      fallback carrying the note names. */
  datatype SetName = Known(text: string) | Unknown(notes: seq<string>)

  predicate InOctave(values: seq<int>)
  {
    forall i :: 0 <= i < |values| ==> 0 <= values[i] < 12
  }

  /** `values`, `interval_values` and `structure_values` (lines 63-65); the
      other attributes of lines 68-73 are the member functions below. */
  datatype PitchSet = PitchSet(values: seq<int>, intervalValues: seq<int>, structureValues: seq<int>)
  {
    /** What the constructor guarantees: non-empty values within one octave,
        their intervals, the running totals of the intervals, and totals
        small enough to be named (at most 12). */
    predicate Valid()
    {
      && |values| > 0
      && InOctave(values)
      && intervalValues == Intervals(values)
      && structureValues == PrefixSums(intervalValues)
      && Sum(intervalValues) <= 12
    }

    /** self.tonic (line 68). */
    function Tonic(): string
      requires Valid()
    {
      NOTES[values[0]]
    }

    /** self.notes (line 69). */
    function Notes(): (r: seq<string>)
      requires Valid()
      ensures |r| == |values|
    {
      NoteNames(values)
    }

    /** self.name, from init_name (lines 105-110). */
    function Name(): SetName
      requires Valid()
    {
      match QualitySuffix(intervalValues)
      case Some(suffix) => Known(Tonic() + suffix)
      case None => Unknown(Notes())
    }

    /** self.intervals (line 71). */
    function IntervalNamesOf(): (r: seq<string>)
      requires Valid()
      ensures |r| == |intervalValues|
    {
      IntervalNames(intervalValues)
    }

    /** self.structure (line 72). */
    function StructureNames(): (r: seq<string>)
      requires Valid()
      ensures |r| == |structureValues|
    {
      StructureFitsIff(values);
      IntervalNames(structureValues)
    }

    /** self.third, from init_third (lines 112-119): a 3 anywhere in the
        structure wins over a 4. */
    function Third(): ThirdKind
    {
      if 3 in structureValues then Minor
      else if 4 in structureValues then Major
      else Suspended
    }
  }

  function NoteNames(values: seq<int>): (r: seq<string>)
    requires InOctave(values)
    ensures |r| == |values|
  {
    seq(|values|, i requires 0 <= i < |values| => NOTES[values[i]])
  }

  /** Names of interval sizes 0..12. */
  function IntervalNames(xs: seq<int>): (r: seq<string>)
    requires forall i :: 0 <= i < |xs| ==> 0 <= xs[i] < |INTERVALS|
    ensures |r| == |xs|
  {
    seq(|xs|, i requires 0 <= i < |xs| => INTERVALS[xs[i]])
  }

  /** Every running total of the intervals can be named, i.e. indexes
      INTERVALS (line 72). */
  predicate StructureFits(values: seq<int>)
  {
    forall i :: 0 <= i < |PrefixSums(Intervals(values))| ==> PrefixSums(Intervals(values))[i] < |INTERVALS|
  }

  /** The running totals can all be named exactly when the intervals add up to
      at most 12, and they are never negative. */
  lemma StructureFitsIff(values: seq<int>)
    ensures StructureFits(values) <==> Sum(Intervals(values)) <= 12
    ensures forall i :: 0 <= i < |PrefixSums(Intervals(values))| ==> PrefixSums(Intervals(values))[i] >= 0
  {
    PrefixSumsBounded(Intervals(values), 12);
    PrefixSumsNonNegative(Intervals(values));
  }

  /** The constructor from line 62 on, given the integers: reduce them, then
      derive intervals and structure. It fails with IndexError on an empty
      input (`NOTES[self.values[0]]`, line 68) and when a running total of
      the intervals exceeds 12 and cannot name an interval (`INTERVALS` has 13
      entries, line 72). */
  function Construct(raw: seq<int>): (r: Result<PitchSet>)
    ensures r.Ok? <==> |raw| > 0 && Sum(Intervals(Reduce(raw))) <= 12
    ensures r.Err? ==> r.error == IndexError
    ensures r.Ok? ==> r.value.Valid() && |r.value.values| == |raw|
    ensures r.Ok? ==> forall i {:trigger r.value.values[i]} :: 0 <= i < |raw| ==>
              0 <= r.value.values[i] < 12 && (r.value.values[i] - raw[i]) % 12 == 0
  {
    var values := Reduce(raw);
    if |values| == 0 then Err(IndexError)
    else if Sum(Intervals(values)) > 12 then Err(IndexError)
    else Ok(PitchSet(values, Intervals(values), PrefixSums(Intervals(values))))
  }

  predicate AllInts(items: seq<Item>)
  {
    forall i :: 0 <= i < |items| ==> items[i].IntItem?
  }

  function IntsOf(items: seq<Item>): (r: seq<int>)
    requires AllInts(items)
    ensures |r| == |items|
  {
    seq(|items|, i requires 0 <= i < |items| => items[i].n)
  }

  /** The integers an input stands for, or TypeError (lines 42-60). */
  function RawValues(arg: Input): (r: Result<seq<int>>)
    ensures r.Err? <==> arg.OtherArg? || (arg.SeqArg? && !AllInts(arg.items))
    ensures r.Err? ==> r.error == TypeError
  {
    match arg
    case IntArg(n) => Ok([n])
    case SeqArg(items) => if AllInts(items) then Ok(IntsOf(items)) else Err(TypeError)
    case SetArg(p) => Ok(p.values)
    case OtherArg => Err(TypeError)
  }

  /** PitchSet(values): a single int is a one-note set, a PitchSet is copied,
      a sequence must hold only ints and is reduced modulo 12 element by
      element. */
  function Build(arg: Input): (r: Result<PitchSet>)
    ensures arg.OtherArg? || (arg.SeqArg? && !AllInts(arg.items)) ==> r == Err(TypeError)
    ensures arg.IntArg? ==> r.Ok? && r.value.values == [arg.n % 12]
    ensures arg.SeqArg? && AllInts(arg.items) ==> r == Construct(IntsOf(arg.items))
    ensures arg.SetArg? ==> r == Construct(arg.source.values)
  {
    var raw :- RawValues(arg);
    Construct(raw)
  }

  /** Construction only looks at the integers modulo 12. */
  lemma ConstructReduced(raw: seq<int>)
    ensures Construct(Reduce(raw)) == Construct(raw)
  {
    ReduceIdempotent(raw);
  }

  /** A valid set is what the constructor makes of its own values, so copying
      it with PitchSet(p) returns it unchanged. */
  lemma ValidReconstructs(p: PitchSet)
    requires p.Valid()
    ensures Construct(p.values) == Ok(p)
    ensures Build(SetArg(p)) == Ok(p)
  {
    ReduceInRange(p.values);
  }

  lemma StructureInRange(v: seq<int>, iv: seq<int>, sv: seq<int>)
    requires |v| > 0 && iv == Intervals(v) && sv == PrefixSums(iv) && Sum(iv) <= 12
    ensures |sv| == |v| && forall i {:trigger sv[i]} :: 0 <= i < |v| ==> 0 <= sv[i] <= 12
  {
    StructureFitsIff(v);
  }

  lemma IntervalsInRange(v: seq<int>, iv: seq<int>)
    requires |v| > 0 && iv == Intervals(v)
    ensures |iv| == |v| - 1
    ensures forall i :: 0 <= i < |iv| ==> 0 <= iv[i] < 12 && (v[i] + iv[i] - v[i + 1]) % 12 == 0
  {
  }

  lemma StructureCongruent(v: seq<int>, iv: seq<int>, sv: seq<int>)
    requires |v| > 0 && iv == Intervals(v) && sv == PrefixSums(iv)
    ensures |sv| == |v| && forall i {:trigger sv[i]} :: 0 <= i < |v| ==> (v[0] + sv[i] - v[i]) % 12 == 0
  {
    forall i | 0 <= i < |v| ensures (v[0] + sv[i] - v[i]) % 12 == 0 {
      StructureCongruence(v, i);
    }
  }

  /** The intervals of a valid set are the ascending steps between
      neighbouring notes, each within one octave. */
  lemma IntervalMeaning(p: PitchSet)
    requires p.Valid()
    ensures |p.intervalValues| == |p.values| - 1
    ensures forall i {:trigger p.intervalValues[i]} :: 0 <= i < |p.intervalValues| ==>
              0 <= p.intervalValues[i] < 12 && (p.values[i] + p.intervalValues[i] - p.values[i + 1]) % 12 == 0
  {
    IntervalsInRange(p.values, p.intervalValues);
  }

  /** The structure of a valid set is the distance of each note above the
      tonic: it starts at 0, stays within one octave (0..12) and agrees with
      values[i] - values[0] modulo 12. */
  lemma StructureMeaning(p: PitchSet)
    requires p.Valid()
    ensures |p.structureValues| == |p.values| && p.structureValues[0] == 0
    ensures forall i {:trigger p.structureValues[i]} :: 0 <= i < |p.values| ==> 0 <= p.structureValues[i] <= 12
    ensures forall i {:trigger p.structureValues[i]} :: 0 <= i < |p.values| ==>
              (p.values[0] + p.structureValues[i] - p.values[i]) % 12 == 0
  {
    StructureInRange(p.values, p.intervalValues, p.structureValues);
    StructureCongruent(p.values, p.intervalValues, p.structureValues);
  }

  /** How far note i lies above the tonic, in semitones within one octave. */
  function AboveTonic(v: seq<int>, i: nat): int
    requires i < |v|
  {
    (v[i] - v[0]) % 12
  }

  /** A running total s in 0..12 that is congruent to d names the same
      distance as d: it equals 3 (or 4) exactly when d does modulo 12. */
  lemma OctaveDistance(s: int, d: int, target: int)
    requires 0 <= s <= 12 && (s - d) % 12 == 0 && 1 <= target < 12
    ensures s == target <==> d % 12 == target
  {
  }

  /** init_third over any structure whose entries sv[i] lie in 0..12 and are
      congruent to v[i] - v[0]. */
  lemma ThirdOfDistances(p: PitchSet)
    requires |p.structureValues| == |p.values|
    requires forall i {:trigger p.structureValues[i]} :: 0 <= i < |p.values| ==> 0 <= p.structureValues[i] <= 12
    requires forall i {:trigger p.structureValues[i]} :: 0 <= i < |p.values| ==>
               (p.values[0] + p.structureValues[i] - p.values[i]) % 12 == 0
    ensures p.Third() == Minor <==> exists i :: 0 <= i < |p.values| && AboveTonic(p.values, i) == 3
    ensures p.Third() == Major <==>
              (forall i :: 0 <= i < |p.values| ==> AboveTonic(p.values, i) != 3) &&
              (exists i :: 0 <= i < |p.values| && AboveTonic(p.values, i) == 4)
    ensures p.Third() == Suspended <==>
              forall i :: 0 <= i < |p.values| ==> AboveTonic(p.values, i) != 3 && AboveTonic(p.values, i) != 4
  {
    var v, sv := p.values, p.structureValues;
    forall i | 0 <= i < |v|
      ensures sv[i] == 3 <==> AboveTonic(v, i) == 3
      ensures sv[i] == 4 <==> AboveTonic(v, i) == 4
    {
      OctaveDistance(sv[i], v[i] - v[0], 3);
      OctaveDistance(sv[i], v[i] - v[0], 4);
    }
    assert (3 in sv) <==> exists i :: 0 <= i < |v| && sv[i] == 3;
    assert (4 in sv) <==> exists i :: 0 <= i < |v| && sv[i] == 4;
  }

  /** init_third in terms of the notes themselves: the set is minor when some
      note lies a minor third (3 semitones, modulo octaves) above the tonic,
      otherwise major when some note lies a major third above it, otherwise
      suspended. */
  lemma ThirdFromPitchContent(p: PitchSet)
    requires p.Valid()
    ensures p.Third() == Minor <==> exists i :: 0 <= i < |p.values| && AboveTonic(p.values, i) == 3
    ensures p.Third() == Major <==>
              (forall i :: 0 <= i < |p.values| ==> AboveTonic(p.values, i) != 3) &&
              (exists i :: 0 <= i < |p.values| && AboveTonic(p.values, i) == 4)
    ensures p.Third() == Suspended <==>
              forall i :: 0 <= i < |p.values| ==> AboveTonic(p.values, i) != 3 && AboveTonic(p.values, i) != 4
  {
    StructureMeaning(p);
    ThirdOfDistances(p);
  }

  // Arithmetic (lines 85-99 and 121-123)

  datatype Op = Plus | Minus

  function Apply(op: Op, x: int, y: int): int
  {
    match op
    case Plus => x + y
    case Minus => x - y
  }

  /** `x + y` or `x - y` on two value arrays: element-wise when the lengths
      agree, with a one-element operand broadcast over the other, and a
      ValueError otherwise. */
  function Broadcast(x: seq<int>, y: seq<int>, op: Op): (r: Result<seq<int>>)
    ensures r.Ok? <==> |x| == |y| || |x| == 1 || |y| == 1
    ensures r.Err? ==> r.error == ValueError
    ensures r.Ok? ==> |r.value| == (if |x| == 1 then |y| else |x|)
    ensures r.Ok? && |x| == |y| ==>
              forall i {:trigger r.value[i]} :: 0 <= i < |x| ==> r.value[i] == Apply(op, x[i], y[i])
    ensures r.Ok? && |x| != |y| && |y| == 1 ==>
              forall i {:trigger r.value[i]} :: 0 <= i < |x| ==> r.value[i] == Apply(op, x[i], y[0])
    ensures r.Ok? && |x| != |y| && |x| == 1 ==>
              forall i {:trigger r.value[i]} :: 0 <= i < |y| ==> r.value[i] == Apply(op, x[0], y[i])
  {
    if |x| == |y| then Ok(seq(|x|, i requires 0 <= i < |x| => Apply(op, x[i], y[i])))
    else if |y| == 1 then Ok(seq(|x|, i requires 0 <= i < |x| => Apply(op, x[i], y[0])))
    else if |x| == 1 then Ok(seq(|y|, i requires 0 <= i < |y| => Apply(op, x[0], y[i])))
    else Err(ValueError)
  }

  /** `PitchSet(self.values OP PitchSet(operand).values)`: the operand is
      built first (and may fail as the constructor does), then combined with
      this set's values, and the result is built again. */
  function Combine(a: PitchSet, operand: Input, op: Op): Result<PitchSet>
  {
    var b :- Build(operand);
    var raw :- Broadcast(a.values, b.values, op);
    Construct(raw)
  }

  /** `a + operand`; `operand + a` reaches the same code through __radd__. */
  function Add(a: PitchSet, summand: Input): Result<PitchSet>
  {
    Combine(a, summand, Plus)
  }

  /** `a - operand`. */
  function Sub(a: PitchSet, subtrahend: Input): Result<PitchSet>
  {
    Combine(a, subtrahend, Minus)
  }

  /** `minuend - a` through __rsub__: the minuend is built into a PitchSet,
      which then subtracts a. */
  function RSub(a: PitchSet, minuend: Input): Result<PitchSet>
  {
    var m :- Build(minuend);
    Sub(m, SetArg(a))
  }

  /** `a.invert(k)`: the rotated values, built into a new set. A valid set
      always has a valid rotation. */
  function InvertSet(p: PitchSet, k: int): (r: Result<PitchSet>)
    ensures r == Err(ValueError) <==> Abs(k) > |p.values| - 1
    ensures p.Valid() && Abs(k) <= |p.values| - 1 ==> r.Ok?
    ensures r.Ok? && InOctave(p.values) ==>
              && |r.value.values| == |p.values|
              && forall i :: 0 <= i < |p.values| ==> r.value.values[i] == p.values[(i + k) % |p.values|]
  {
    var w :- Invert(p.values, k);
    assert p.Valid() ==> Construct(w).Ok? by {
      if p.Valid() {
        RotationBuilds(p, k);
      }
    }
    assert Construct(w).Ok? && InOctave(p.values) ==> Rotated(Construct(w).value.values, p.values, k) by {
      if Construct(w).Ok? && InOctave(p.values) {
        RotatedSetValues(p.values, w, k, Construct(w).value);
      }
    }
    Construct(w)
  }

  /** a is v rotated left by k. */
  predicate Rotated(a: seq<int>, v: seq<int>, k: int)
  {
    |a| == |v| && forall i :: 0 <= i < |v| ==> a[i] == v[(i + k) % |v|]
  }

  /** The set built from in-octave values rotated by k holds exactly those
      rotated values. */
  lemma RotatedSetValues(v: seq<int>, w: seq<int>, k: int, q: PitchSet)
    requires InOctave(v) && Invert(v, k) == Ok(w) && Construct(w) == Ok(q)
    ensures Rotated(q.values, v, k)
  {
    ReduceInRange(w);
  }

  /** The values of a valid set, rotated, are accepted by the constructor:
      their intervals still add up to at most an octave. */
  lemma RotationBuilds(p: PitchSet, k: int)
    requires p.Valid() && Abs(k) <= |p.values| - 1
    ensures Construct(Invert(p.values, k).value).Ok?
  {
    var v := p.values;
    var cut := if k >= 0 then k else |v| + k;
    var w := Invert(v, k).value;
    assert w == v[cut..] + v[..cut];
    ReduceInRange(w);
    CircleSpan(v, cut);
  }

  /** Combining with an operand is refused with ValueError when neither
      length is 1 and the lengths differ. */
  lemma CombineRefused(a: PitchSet, operand: Input, op: Op)
    requires Build(operand).Ok?
    ensures var b := Build(operand).value;
            !(|a.values| == |b.values| || |a.values| == 1 || |b.values| == 1) ==>
              Combine(a, operand, op) == Err(ValueError)
  {
  }

  /** Otherwise the result has the longer length and is the element-wise sum
      or difference, reduced, with a one-note operand (or a one-note set)
      stretched over the other. */
  lemma CombineValues(a: PitchSet, operand: Input, op: Op)
    requires Build(operand).Ok?
    ensures var b, r := Build(operand).value, Combine(a, operand, op);
            r.Ok? ==>
              && |r.value.values| == (if |a.values| == 1 then |b.values| else |a.values|)
              && (|a.values| == |b.values| ==>
                    forall i {:trigger r.value.values[i]} :: 0 <= i < |a.values| ==>
                      r.value.values[i] == Apply(op, a.values[i], b.values[i]) % 12)
              && (|a.values| != |b.values| && |b.values| == 1 ==>
                    forall i {:trigger r.value.values[i]} :: 0 <= i < |a.values| ==>
                      r.value.values[i] == Apply(op, a.values[i], b.values[0]) % 12)
              && (|a.values| != |b.values| && |a.values| == 1 ==>
                    forall i {:trigger r.value.values[i]} :: 0 <= i < |b.values| ==>
                      r.value.values[i] == Apply(op, a.values[0], b.values[i]) % 12)
  {
    BroadcastReduced(a.values, Build(operand).value.values, op);
  }

  lemma BroadcastReduced(x: seq<int>, y: seq<int>, op: Op)
    ensures var r := Broadcast(x, y, op);
            r.Ok? && Construct(r.value).Ok? ==>
              var c := Construct(r.value).value.values;
              && |c| == (if |x| == 1 then |y| else |x|)
              && (|x| == |y| ==> forall i {:trigger c[i]} :: 0 <= i < |x| ==> c[i] == Apply(op, x[i], y[i]) % 12)
              && (|x| != |y| && |y| == 1 ==> forall i {:trigger c[i]} :: 0 <= i < |x| ==> c[i] == Apply(op, x[i], y[0]) % 12)
              && (|x| != |y| && |x| == 1 ==> forall i {:trigger c[i]} :: 0 <= i < |y| ==> c[i] == Apply(op, x[0], y[i]) % 12)
  {
    var r := Broadcast(x, y, op);
    if r.Ok? && Construct(r.value).Ok? {
      ReducedValues(r.value, Construct(r.value).value.values);
    }
  }

  /** Values of one octave congruent to raw are raw reduced. */
  lemma ReducedValues(raw: seq<int>, c: seq<int>)
    requires |c| == |raw|
    requires forall i {:trigger c[i]} :: 0 <= i < |raw| ==> 0 <= c[i] < 12 && (c[i] - raw[i]) % 12 == 0
    ensures forall i {:trigger c[i]} :: 0 <= i < |c| ==> c[i] == raw[i] % 12
  {
    forall i | 0 <= i < |c| ensures c[i] == raw[i] % 12 {
      ModUnique(raw[i], c[i]);
    }
  }

  lemma BroadcastCommutes(x: seq<int>, y: seq<int>)
    ensures Broadcast(x, y, Plus) == Broadcast(y, x, Plus)
  {
    var r, s := Broadcast(x, y, Plus), Broadcast(y, x, Plus);
    if r.Ok? {
      assert r.value == s.value;
    }
  }

  /** Adding two sets gives the same set in either order. */
  lemma AddCommutes(a: PitchSet, b: PitchSet)
    requires a.Valid() && b.Valid()
    ensures Add(a, SetArg(b)) == Add(b, SetArg(a))
  {
    ValidReconstructs(a);
    ValidReconstructs(b);
    BroadcastCommutes(a.values, b.values);
  }

  /** Building the element-wise sum or difference of in-octave values v and
      one note k: every note moves by k, so every interval stays. */
  lemma TransposedValues(v: seq<int>, k: int, op: Op)
    requires |v| > 0 && InOctave(v) && Sum(Intervals(v)) <= 12
    ensures Broadcast(v, [k % 12], op).Ok?
    ensures var c := Construct(Broadcast(v, [k % 12], op).value);
            && c.Ok?
            && |c.value.values| == |v|
            && (forall i {:trigger c.value.values[i]} :: 0 <= i < |v| ==> c.value.values[i] == Apply(op, v[i], k) % 12)
            && c.value.intervalValues == Intervals(v)
            && c.value.structureValues == PrefixSums(Intervals(v))
  {
    var raw := Broadcast(v, [k % 12], op).value;
    var w := Reduce(raw);
    var shift := Apply(op, 0, k);
    forall i | 0 <= i < |v| ensures w[i] == Apply(op, v[i], k) % 12 && (w[i] - v[i] - shift) % 12 == 0 {
      ShiftedNote(v[i], k, op, raw[i], w[i]);
    }
    IntervalsOfTransposition(w, v, shift);
    assert Construct(raw) == Ok(PitchSet(w, Intervals(v), PrefixSums(Intervals(v))));
  }

  lemma ShiftedNote(x: int, k: int, op: Op, raw: int, w: int)
    requires raw == Apply(op, x, k % 12) && w == raw % 12
    ensures w == Apply(op, x, k) % 12 && (w - x - Apply(op, 0, k)) % 12 == 0
  {
    ModUnique(Apply(op, x, k), w);
  }

  /** Transposing a set by k (`a + k`, `k + a`) or by -k (`a - k`) moves every
      note by k and keeps the intervals and the structure. */
  lemma TransposeValues(a: PitchSet, k: int, op: Op)
    requires a.Valid()
    ensures Combine(a, IntArg(k), op).Ok?
    ensures var t := Combine(a, IntArg(k), op).value;
            && t.Valid()
            && |t.values| == |a.values|
            && (forall i {:trigger t.values[i]} :: 0 <= i < |a.values| ==> t.values[i] == Apply(op, a.values[i], k) % 12)
            && t.intervalValues == a.intervalValues
            && t.structureValues == a.structureValues
  {
    TransposedValues(a.values, k, op);
  }

  /** So it keeps the shape of the set: same interval names, structure names
      and third, a tonic moved by k, and a name found in the table exactly
      when the original's is. */
  lemma TransposeKeepsShape(a: PitchSet, k: int, op: Op)
    requires a.Valid()
    ensures Combine(a, IntArg(k), op).Ok?
    ensures var t := Combine(a, IntArg(k), op).value;
            && t.Valid()
            && t.IntervalNamesOf() == a.IntervalNamesOf()
            && t.StructureNames() == a.StructureNames()
            && t.Third() == a.Third()
            && t.Tonic() == NOTES[Apply(op, a.values[0], k) % 12]
            && t.Name().Known? == a.Name().Known?
  {
    TransposeValues(a, k, op);
  }

  function Inverse(op: Op): Op
  {
    match op
    case Plus => Minus
    case Minus => Plus
  }

  /** Moving in-octave notes by k and back again returns them. */
  lemma ShiftBack(v: seq<int>, w: seq<int>, u: seq<int>, k: int, op: Op)
    requires InOctave(v) && |w| == |v| && |u| == |v|
    requires forall i {:trigger w[i]} :: 0 <= i < |v| ==> w[i] == Apply(op, v[i], k) % 12
    requires forall i {:trigger u[i]} :: 0 <= i < |v| ==> u[i] == Apply(Inverse(op), w[i], k) % 12
    ensures u == v
  {
    forall i | 0 <= i < |v| ensures u[i] == v[i] {
      ModUnique(Apply(Inverse(op), w[i], k), v[i]);
    }
  }

  /** `(a + k) - k` and `(a - k) + k` give back a. */
  lemma TransposeRoundTrip(a: PitchSet, k: int, op: Op)
    requires a.Valid()
    ensures Combine(a, IntArg(k), op).Ok?
    ensures Combine(Combine(a, IntArg(k), op).value, IntArg(k), Inverse(op)) == Ok(a)
  {
    TransposeValues(a, k, op);
    var t := Combine(a, IntArg(k), op).value;
    TransposeValues(t, k, Inverse(op));
    var u := Combine(t, IntArg(k), Inverse(op)).value;
    ShiftBack(a.values, t.values, u.values, k, op);
  }

  /** Each note of `n - a`, reflected about n. */
  function Mirror(v: seq<int>, n: int): (r: seq<int>)
    ensures |r| == |v|
  {
    seq(|v|, i requires 0 <= i < |v| => (n - v[i]) % 12)
  }

  /** Reflection turns every ascending interval into its complement: the
      step from note i to note i + 1 becomes the step back down. */
  lemma MirrorIntervals(v: seq<int>, n: int)
    ensures |Intervals(Mirror(v, n))| == |Intervals(v)|
    ensures forall i {:trigger Intervals(v)[i]} :: 0 <= i < |Intervals(v)| ==>
              Intervals(Mirror(v, n))[i] == (12 - Intervals(v)[i]) % 12
  {
    var m, iv := Mirror(v, n), Intervals(v);
    forall i | 0 <= i < |iv| ensures Intervals(m)[i] == (12 - iv[i]) % 12 {
      ReflectStep(n, v[i], v[i + 1]);
    }
  }

  lemma ReflectStep(n: int, x: int, y: int)
    ensures ((n - y) % 12 - (n - x) % 12) % 12 == (12 - (y - x) % 12) % 12
  {
    var p, q, d := (n - y) % 12, (n - x) % 12, (y - x) % 12;
    assert (p - q) % 12 == (x - y) % 12 by {
      assert p - q == x - y + 12 * ((n - x) / 12 - (n - y) / 12);
    }
    assert (12 - d) % 12 == (x - y) % 12 by {
      assert 12 - d == x - y + 12 * ((y - x) / 12 + 1);
    }
  }

  /** `n - a` (through __rsub__) reflects every note about n. It is built
      exactly when the reflected intervals still add up to at most 12, and
      fails with IndexError otherwise. */
  lemma RSubValues(a: PitchSet, n: int)
    requires a.Valid()
    ensures RSub(a, IntArg(n)).Ok? <==> Sum(Intervals(Mirror(a.values, n))) <= 12
    ensures RSub(a, IntArg(n)).Err? ==> RSub(a, IntArg(n)).error == IndexError
    ensures RSub(a, IntArg(n)).Ok? ==> RSub(a, IntArg(n)).value.values == Mirror(a.values, n)
  {
    ValidReconstructs(a);
    var raw := Broadcast([n % 12], a.values, Minus).value;
    assert forall i :: 0 <= i < |raw| ==> raw[i] == n % 12 - a.values[i];
    ReflectedReduces(raw, a.values, n);
  }

  lemma ReflectedReduces(raw: seq<int>, v: seq<int>, n: int)
    requires |raw| == |v|
    requires forall i :: 0 <= i < |raw| ==> raw[i] == n % 12 - v[i]
    ensures Reduce(raw) == Mirror(v, n)
  {
    forall i | 0 <= i < |raw| ensures Reduce(raw)[i] == Mirror(v, n)[i] {
      assert (n % 12 - v[i] - (n - v[i])) % 12 == 0;
    }
  }

  /** `0 - PitchSet([0, 4, 7])`: reflecting the C major triad gives the notes
      0, 8, 5, whose running totals 0, 8, 17 run past the octave, so the
      construction fails. */
  lemma ReflectedTriadFails()
    ensures RSub(PitchSet([0, 4, 7], [4, 3], [0, 4, 7]), IntArg(0)) == Err(IndexError)
  {
    var a := PitchSet([0, 4, 7], [4, 3], [0, 4, 7]);
    Triad(0, 4, 7);
    MirrorOfTriad();
    ThreeNoteSteps(0, 8, 5);
    TwoSteps(8, 9);
    assert Sum(Intervals(Mirror(a.values, 0))) == 17;
    RSubValues(a, 0);
  }

  lemma MirrorOfTriad()
    ensures Mirror([0, 4, 7], 0) == [0, 8, 5]
  {
    var m := Mirror([0, 4, 7], 0);
    assert m[1] == (0 - 4) % 12;
    assert m[2] == (0 - 7) % 12;
  }

  lemma ThreeNoteSteps(x: int, y: int, z: int)
    ensures Intervals([x, y, z]) == [(y - x) % 12, (z - y) % 12]
  {
    var v := [x, y, z];
    assert Intervals(v)[0] == (v[1] - v[0]) % 12;
    assert Intervals(v)[1] == (v[2] - v[1]) % 12;
  }

  /** Concrete running totals of two steps. */
  lemma TwoSteps(x: int, y: int)
    ensures Sum([x, y]) == x + y
    ensures PrefixSums([x, y]) == [0, x, x + y]
  {
    assert [x, y][..1] == [x];
    assert [x][..0] == [];
    PrefixSumsStep([x, y], 0);
    PrefixSumsStep([x, y], 1);
  }

  /** A three-note input within one octave whose steps add up to at most 12. */
  lemma Triad(x: int, y: int, z: int)
    requires 0 <= x < 12 && 0 <= y < 12 && 0 <= z < 12
    requires (y - x) % 12 + (z - y) % 12 <= 12
    ensures Intervals([x, y, z]) == [(y - x) % 12, (z - y) % 12]
    ensures Construct([x, y, z]) ==
              Ok(PitchSet([x, y, z], [(y - x) % 12, (z - y) % 12], [0, (y - x) % 12, (y - x) % 12 + (z - y) % 12]))
  {
    var v := [x, y, z];
    ThreeNoteSteps(x, y, z);
    TwoSteps((y - x) % 12, (z - y) % 12);
    ReduceInRange(v);
  }

  /** `p.invert(k)` followed by `.invert(-k)` gives back p. */
  lemma InvertSetRoundTrip(p: PitchSet, k: int)
    requires p.Valid() && Abs(k) <= |p.values| - 1
    ensures InvertSet(InvertSet(p, k).value, -k) == Ok(p)
  {
    var w := Invert(p.values, k).value;
    ReduceInRange(w);
    InvertRoundTrip(p.values, k);
    ValidReconstructs(p);
  }

  /** init_name: a set is named exactly when its interval tuple is listed,
      and then its name is the tonic followed by the suffix listed beside
      that tuple; otherwise the name carries the note names. */
  lemma NameMeaning(p: PitchSet)
    requires p.Valid()
    ensures p.Name().Known? <==>
              exists k :: 0 <= k < |PITCHSET_INTERVALS| && PITCHSET_INTERVALS[k].1 == p.intervalValues
    ensures p.Name().Known? ==>
              exists k :: 0 <= k < |PITCHSET_INTERVALS| && PITCHSET_INTERVALS[k].1 == p.intervalValues &&
                p.Name().text == p.Tonic() + PITCHSET_INTERVALS[k].0
    ensures p.Name().Unknown? ==> p.Name().notes == p.Notes()
  {
    QualitySuffixListed(p.intervalValues);
  }

  /** The examples of init_name and init_third: C E G is "C" and major,
      C Eb G is "Cm" and minor, and C Db F# has no name and no third. */
  lemma MajorTriadExample()
    ensures Construct([0, 4, 7]) == Ok(PitchSet([0, 4, 7], [4, 3], [0, 4, 7]))
    ensures PitchSet([0, 4, 7], [4, 3], [0, 4, 7]).Name() == Known("C")
    ensures PitchSet([0, 4, 7], [4, 3], [0, 4, 7]).Third() == Major
  {
    Triad(0, 4, 7);
    assert QualitySuffix([4, 3]) == Some("");
  }

  lemma MinorTriadExample()
    ensures Construct([0, 3, 7]) == Ok(PitchSet([0, 3, 7], [3, 4], [0, 3, 7]))
    ensures PitchSet([0, 3, 7], [3, 4], [0, 3, 7]).Name() == Known("Cm")
    ensures PitchSet([0, 3, 7], [3, 4], [0, 3, 7]).Third() == Minor
  {
    Triad(0, 3, 7);
    assert QualitySuffix([3, 4]) == Some("m");
  }

  lemma UnknownSetExample()
    ensures Construct([0, 1, 6]) == Ok(PitchSet([0, 1, 6], [1, 5], [0, 1, 6]))
    ensures PitchSet([0, 1, 6], [1, 5], [0, 1, 6]).Third() == Suspended
  {
    Triad(0, 1, 6);
  }

  lemma UnknownSetName()
    ensures PitchSet([0, 1, 6], [1, 5], [0, 1, 6]).Valid()
    ensures PitchSet([0, 1, 6], [1, 5], [0, 1, 6]).Name() == Unknown(["C", "Db", "F#"])
  {
    var p := PitchSet([0, 1, 6], [1, 5], [0, 1, 6]);
    Triad(0, 1, 6);
    assert p.Notes() == ["C", "Db", "F#"];
    UnlistedSteps();
  }

  /** No listed set steps up by a semitone and then a fourth. */
  lemma UnlistedSteps()
    ensures QualitySuffix([1, 5]) == None
  {
    QualitySuffixListed([1, 5]);
    forall k | 0 <= k < |PITCHSET_INTERVALS| ensures PITCHSET_INTERVALS[k].1 != [1, 5] {
      var t := PITCHSET_INTERVALS[k].1;
      if |t| == 2 {
        assert t[0] != 1;
      }
    }
  }

  // The constructor as written (lines 63-72) on a one-note input

  /** As written, `np.cumsum` of the empty interval tuple of a one-note set is
      a float array, so `structure_values` is `[0.]` and naming it with
      `INTERVALS[0.]` (line 72) raises TypeError. Inputs of two or more notes
      behave as Construct. */
  function ConstructAsWritten(raw: seq<int>): (r: Result<PitchSet>)
    ensures |raw| == 1 ==> r == Err(TypeError)
    ensures |raw| != 1 ==> r == Construct(raw)
  {
    if |raw| == 0 then Err(IndexError)
    else if |raw| == 1 then Err(TypeError)
    else Construct(raw)
  }

  function BuildAsWritten(arg: Input): Result<PitchSet>
  {
    var raw :- RawValues(arg);
    ConstructAsWritten(raw)
  }

  function CombineAsWritten(a: PitchSet, operand: Input, op: Op): Result<PitchSet>
  {
    var b :- BuildAsWritten(operand);
    var raw :- Broadcast(a.values, b.values, op);
    ConstructAsWritten(raw)
  }

  function RSubAsWritten(a: PitchSet, minuend: Input): Result<PitchSet>
  {
    var m :- BuildAsWritten(minuend);
    CombineAsWritten(m, SetArg(a), Minus)
  }

  /** As written, every one-note set is refused, so `PitchSet(3)` and with it
      `a + 3`, `a - 3` and `3 - a` fail, while the intended constructor builds
      the first three (see TransposeValues). */
  lemma OneNoteAsWritten(a: PitchSet, n: int, op: Op)
    requires a.Valid()
    ensures BuildAsWritten(IntArg(n)) == Err(TypeError)
    ensures Build(IntArg(n)).Ok?
    ensures CombineAsWritten(a, IntArg(n), op) == Err(TypeError)
    ensures Combine(a, IntArg(n), op).Ok?
    ensures RSubAsWritten(a, IntArg(n)) == Err(TypeError)
  {
    TransposeValues(a, n, op);
  }
}
