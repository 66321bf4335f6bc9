/** Integer arithmetic on pitch classes shared by both drafts: octave reduction,
    rotation ("inversion"), ascending intervals, prefix sums and the step-2
    slices that stack every other note. */
module PitchArith {
  import opened Outcomes

  /** The reduction `values % 12` applied element-wise. Python's `%` with a
      positive modulus agrees with Dafny's. */
  function Reduce(s: seq<int>): (r: seq<int>)
    ensures |r| == |s|
    ensures forall i {:trigger r[i]} :: 0 <= i < |s| ==> 0 <= r[i] < 12 && (r[i] - s[i]) % 12 == 0
  {
    seq(|s|, i requires 0 <= i < |s| => s[i] % 12)
  }

  /** A value of [0, 12) congruent to x is x % 12. */
  lemma ModUnique(x: int, r: int)
    requires 0 <= r < 12 && (r - x) % 12 == 0
    ensures r == x % 12
  {
  }

  lemma ReduceIdempotent(s: seq<int>)
    ensures Reduce(Reduce(s)) == Reduce(s)
  {
  }

  /** Facts about `%` by a modulus that is not a literal. */
  lemma ModBelow(x: int, n: int)
    requires 0 <= x < n
    ensures x % n == x
  {
  }

  lemma ModAbove(x: int, n: int)
    requires n <= x < 2 * n
    ensures x % n == x - n
  {
    assert (x - n) % n == x - n;
  }

  lemma ModNegative(x: int, n: int)
    requires -n <= x < 0
    ensures x % n == x + n
  {
    assert (x + n) % n == x + n;
  }

  function Abs(k: int): nat { if k < 0 then -k else k }

  /** utils.invert: `values[k:] + values[:k]` with Python's negative-index
      slicing, refused when |k| exceeds len(values) - 1. The result is the
      input rotated left by k (right by -k when k is negative). */
  function Invert(v: seq<int>, k: int): (r: Result<seq<int>>)
    ensures r.Ok? <==> Abs(k) <= |v| - 1
    ensures r.Err? ==> r.error == ValueError
    ensures r.Ok? ==> |r.value| == |v|
    ensures r.Ok? ==> forall i :: 0 <= i < |v| ==> r.value[i] == v[(i + k) % |v|]
  {
    if Abs(k) > |v| - 1 then Err(ValueError)
    else
      var cut := if k >= 0 then k else |v| + k;
      var w := v[cut..] + v[..cut];
      assert forall i :: 0 <= i < |v| ==> w[i] == v[(i + k) % |v|] by {
        forall i | 0 <= i < |v| ensures w[i] == v[(i + k) % |v|] {
          if i + k < 0 {
            ModNegative(i + k, |v|);
          } else if i + k < |v| {
            ModBelow(i + k, |v|);
          } else {
            ModAbove(i + k, |v|);
          }
        }
      }
      Ok(w)
  }

  /** Rotating left by k and then left by -k is the identity. */
  lemma RotateBack(v: seq<int>, w: seq<int>, u: seq<int>, k: int)
    requires |w| == |v| && |u| == |v| && Abs(k) <= |v| - 1
    requires forall i :: 0 <= i < |v| ==> w[i] == v[(i + k) % |v|]
    requires forall i :: 0 <= i < |v| ==> u[i] == w[(i - k) % |v|]
    ensures u == v
  {
    var n := |v|;
    forall i | 0 <= i < n ensures u[i] == v[i] {
      var j: int;
      if i - k < 0 {
        ModNegative(i - k, n);
        j := i - k + n;
        ModAbove(j + k, n);
      } else if i - k < n {
        ModBelow(i - k, n);
        j := i - k;
        ModBelow(j + k, n);
      } else {
        ModAbove(i - k, n);
        j := i - k - n;
        ModNegative(j + k, n);
      }
      assert u[i] == w[j];
    }
  }

  /** Inverting by k and then by -k gives back the original sequence. */
  lemma InvertRoundTrip(v: seq<int>, k: int)
    requires Invert(v, k).Ok?
    ensures Invert(Invert(v, k).value, -k) == Ok(v)
  {
    var w := Invert(v, k).value;
    RotateBack(v, w, Invert(w, -k).value, k);
  }

  /** utils.calculate_intervals: the ascending distance from each value to the
      next one, as `(next - note) % 12`. */
  function Intervals(v: seq<int>): (r: seq<int>)
    ensures |r| == if |v| == 0 then 0 else |v| - 1
    ensures forall i :: 0 <= i < |r| ==> 0 <= r[i] < 12 && (v[i] + r[i] - v[i + 1]) % 12 == 0
  {
    if |v| == 0 then [] else seq(|v| - 1, i requires 0 <= i < |v| - 1 => (v[i + 1] - v[i]) % 12)
  }

  /** Interval i is the step from note i to note i + 1 brought into the
      octave. */
  lemma IntervalAt(v: seq<int>, i: nat)
    requires i + 1 < |v|
    ensures Intervals(v)[i] == (v[i + 1] - v[i]) % 12
  {
  }

  /** Two sequences whose elements differ by the same amount modulo 12 (one is
      a transposition of the other) have the same intervals. */
  lemma IntervalsOfTransposition(u: seq<int>, v: seq<int>, c: int)
    requires |u| == |v|
    requires forall i :: 0 <= i < |u| ==> (u[i] - v[i] - c) % 12 == 0
    ensures Intervals(u) == Intervals(v)
  {
    var a, b := Intervals(u), Intervals(v);
    forall i | 0 <= i < |a| ensures a[i] == b[i] {
      IntervalAt(u, i);
      IntervalAt(v, i);
      CongruentSteps(u[i], u[i + 1], v[i], v[i + 1], c);
    }
  }

  /** Steps between notes that are all shifted by c (up to octaves) are the
      same steps up to octaves. */
  lemma CongruentSteps(u0: int, u1: int, v0: int, v1: int, c: int)
    requires (u0 - v0 - c) % 12 == 0 && (u1 - v1 - c) % 12 == 0
    ensures (u1 - u0) % 12 == (v1 - v0) % 12
  {
    assert (u1 - u0) - (v1 - v0) == (u1 - v1 - c) - (u0 - v0 - c);
  }

  function Sum(s: seq<int>): int
  {
    if |s| == 0 then 0 else Sum(s[..|s| - 1]) + s[|s| - 1]
  }

  /** `np.hstack([0, np.cumsum(s)])`: 0 followed by the running totals of s. */
  function PrefixSums(s: seq<int>): (r: seq<int>)
    ensures |r| == |s| + 1 && r[0] == 0 && r[|s|] == Sum(s)
  {
    assert s[..|s|] == s;
    seq(|s| + 1, i requires 0 <= i <= |s| => Sum(s[..i]))
  }

  /** Each running total adds the next step to the previous total. */
  lemma PrefixSumsStep(s: seq<int>, i: nat)
    requires i < |s|
    ensures PrefixSums(s)[i + 1] == PrefixSums(s)[i] + s[i]
  {
    assert s[..i + 1][..i] == s[..i];
  }

  /** Running totals of non-negative steps are non-negative. */
  lemma PrefixSumsNonNegative(s: seq<int>)
    requires forall i :: 0 <= i < |s| ==> s[i] >= 0
    ensures forall i :: 0 <= i < |PrefixSums(s)| ==> PrefixSums(s)[i] >= 0
  {
    var p := PrefixSums(s);
    var i := 0;
    while i < |s|
      invariant 0 <= i <= |s|
      invariant forall j :: 0 <= j <= i ==> p[j] >= 0
    {
      PrefixSumsStep(s, i);
      i := i + 1;
    }
  }

  /** Elements already inside one octave are left alone by the reduction. */
  lemma ReduceInRange(s: seq<int>)
    requires forall i :: 0 <= i < |s| ==> 0 <= s[i] < 12
    ensures Reduce(s) == s
  {
  }

  /** The running totals of non-negative steps never decrease, so they all stay
      within a bound exactly when the grand total does. */
  lemma {:induction false} PrefixSumsBounded(s: seq<int>, bound: int)
    requires forall i :: 0 <= i < |s| ==> s[i] >= 0
    ensures (forall i :: 0 <= i < |PrefixSums(s)| ==> PrefixSums(s)[i] <= bound) <==> Sum(s) <= bound
  {
    var p := PrefixSums(s);
    if Sum(s) <= bound {
      var i := |s|;
      while i > 0
        invariant 0 <= i <= |s|
        invariant forall j :: i <= j <= |s| ==> p[j] <= bound
      {
        PrefixSumsStep(s, i - 1);
        i := i - 1;
      }
    }
  }

  /** Running totals of steps w that each move v[k] to v[k+1] up to octaves
      keep v[0] + (the i-th total) equal to v[i] up to octaves. */
  lemma {:induction false} RunningTotalCongruence(v: seq<int>, w: seq<int>, i: nat)
    requires i < |v| && |w| == |v| - 1
    requires forall k :: 0 <= k < |w| ==> (v[k] + w[k] - v[k + 1]) % 12 == 0
    ensures (v[0] + PrefixSums(w)[i] - v[i]) % 12 == 0
  {
    if i > 0 {
      RunningTotalCongruence(v, w, i - 1);
      PrefixSumsStep(w, i - 1);
      AddOctaves(v[0] + PrefixSums(w)[i - 1] - v[i - 1], v[i - 1] + w[i - 1] - v[i]);
    }
  }

  /** Running totals of the differences of c are the distances from c[0]. */
  lemma Telescoping(s: seq<int>, c: seq<int>)
    requires |c| == |s| + 1
    requires forall k {:trigger s[k]} :: 0 <= k < |s| ==> s[k] == c[k + 1] - c[k]
    ensures forall i {:trigger PrefixSums(s)[i]} :: 0 <= i <= |s| ==> PrefixSums(s)[i] == c[i] - c[0]
  {
    var p := PrefixSums(s);
    var i := 0;
    while i < |s|
      invariant 0 <= i <= |s|
      invariant forall j :: 0 <= j <= i ==> p[j] == c[j] - c[0]
    {
      PrefixSumsStep(s, i);
      i := i + 1;
    }
  }

  lemma AddOctaves(x: int, y: int)
    requires x % 12 == 0 && y % 12 == 0
    ensures (x + y) % 12 == 0
  {
  }

  /** The prefix sums of the intervals of v rebuild v from its first value:
      v[0] + (the i-th running total) is v[i] up to octaves. */
  lemma StructureCongruence(v: seq<int>, i: nat)
    requires i < |v|
    ensures (v[0] + PrefixSums(Intervals(v))[i] - v[i]) % 12 == 0
  {
    RunningTotalCongruence(v, Intervals(v), i);
  }

  /** The total of a concatenation is the sum of the totals. */
  lemma {:induction false} SumConcat(a: seq<int>, b: seq<int>)
    ensures Sum(a + b) == Sum(a) + Sum(b)
    decreases |b|
  {
    if |b| > 0 {
      assert (a + b)[..|a + b| - 1] == a + b[..|b| - 1];
      SumConcat(a, b[..|b| - 1]);
    } else {
      assert a + b == a;
    }
  }

  /** The steps once around the circle of v: from each value to the next, and
      from the last value back to the first. */
  function CyclicSteps(v: seq<int>): (r: seq<int>)
    requires |v| > 0
    ensures |r| == |v|
    ensures forall i :: 0 <= i < |r| ==> 0 <= r[i] < 12
  {
    Intervals(v + [v[0]])
  }

  /** Going once around the circle covers whole octaves: the steps add up to
      a multiple of 12, namely the intervals of v plus the step back from the
      last value to the first. */
  lemma CyclicStepsSum(v: seq<int>)
    requires |v| > 0
    ensures Sum(CyclicSteps(v)) == Sum(Intervals(v)) + CyclicSteps(v)[|v| - 1]
    ensures Sum(CyclicSteps(v)) % 12 == 0
  {
    var n := |v|;
    var c, u := CyclicSteps(v), v + [v[0]];
    assert c[..n - 1] == Intervals(v) by {
      forall i | 0 <= i < n - 1 ensures c[i] == Intervals(v)[i] {
        IntervalAt(u, i);
        IntervalAt(v, i);
      }
    }
    IntervalAt(u, n - 1);
    var total := Sum(Intervals(v));
    StructureCongruence(v, n - 1);
    AddOctaves(v[0] + total - v[n - 1], (v[0] - v[n - 1]) % 12 - (v[0] - v[n - 1]));
  }

  /** Rotating v left by cut rotates its circle of steps the same way, and
      the rotation's intervals are all of those steps but the last. */
  lemma RotatedSteps(v: seq<int>, cut: nat)
    requires cut < |v|
    ensures Intervals(v[cut..] + v[..cut]) == (CyclicSteps(v)[cut..] + CyclicSteps(v)[..cut])[..|v| - 1]
  {
    var n, w, u := |v|, v[cut..] + v[..cut], v + [v[0]];
    var c := CyclicSteps(v);
    var r := c[cut..] + c[..cut];
    forall i | 0 <= i < n - 1 ensures Intervals(w)[i] == r[i] {
      IntervalAt(w, i);
      if i + cut < n {
        IntervalAt(u, i + cut);
      } else {
        IntervalAt(u, i + cut - n);
      }
    }
  }

  /** Rotating values whose intervals add up to at most an octave keeps them
      within an octave: the steps around the circle total 0 or 12, and the
      rotation leaves out one non-negative step. */
  lemma CircleSpan(v: seq<int>, cut: nat)
    requires cut < |v| && Sum(Intervals(v)) <= 12
    ensures Sum(Intervals(v[cut..] + v[..cut])) <= 12
  {
    var n, c := |v|, CyclicSteps(v);
    var r := c[cut..] + c[..cut];
    CircleTotal(v);
    RotatedTotal(c, cut);
    DropLast(r);
    RotatedSteps(v, cut);
  }

  /** Once around the circle of values whose intervals add up to at most an
      octave is 0 or 12 semitones. */
  lemma CircleTotal(v: seq<int>)
    requires |v| > 0 && Sum(Intervals(v)) <= 12
    ensures Sum(CyclicSteps(v)) <= 12
  {
    var c := CyclicSteps(v);
    CyclicStepsSum(v);
    PrefixSumsNonNegative(c);
    assert PrefixSums(c)[|c|] == Sum(c);
    WholeOctaves(Sum(c));
  }

  /** A rotation of non-negative steps has the same total, and its last step
      is non-negative. */
  lemma RotatedTotal(c: seq<int>, cut: nat)
    requires cut < |c| && forall i :: 0 <= i < |c| ==> c[i] >= 0
    ensures |c[cut..] + c[..cut]| == |c|
    ensures Sum(c[cut..] + c[..cut]) == Sum(c)
    ensures (c[cut..] + c[..cut])[|c| - 1] >= 0
  {
    SumConcat(c[cut..], c[..cut]);
    SumConcat(c[..cut], c[cut..]);
    assert c[..cut] + c[cut..] == c;
  }

  /** Leaving out a non-negative last element does not raise the total. */
  lemma DropLast(s: seq<int>)
    requires |s| > 0 && s[|s| - 1] >= 0
    ensures Sum(s[..|s| - 1]) <= Sum(s)
  {
  }

  /** A multiple of 12 in [0, 24) is at most 12. */
  lemma WholeOctaves(x: int)
    requires 0 <= x < 24 && x % 12 == 0
    ensures x <= 12
  {
  }

  function Min(a: int, b: int): int { if a <= b then a else b }

  /** Python's `s[start:stop:2]` for a non-negative start and stop (the only
      slices the core takes): the elements at start, start + 2, ... below both
      stop and |s|. */
  function EveryOther(s: seq<int>, start: nat, stop: nat): (r: seq<int>)
    ensures |r| == if start < Min(stop, |s|) then (Min(stop, |s|) - start + 1) / 2 else 0
    ensures forall j :: 0 <= j < |r| ==> start + 2 * j < Min(stop, |s|) && r[j] == s[start + 2 * j]
  {
    var end := Min(stop, |s|);
    if start < end then seq((end - start + 1) / 2, j requires 0 <= j < (end - start + 1) / 2 => s[start + 2 * j])
    else []
  }

  /** Where Python's `s[0:stop]` ends: a negative stop counts from the end. */
  function SliceEnd(len: nat, stop: int): (e: nat)
    ensures e <= len
    ensures stop >= 0 ==> e == Min(stop, len)
    ensures stop < 0 ==> e + Min(-stop, len) == len
  {
    if stop >= 0 then Min(stop, len) else if len + stop < 0 then 0 else len + stop
  }

  /** Python's `s[0:stop]`. */
  function Head<T>(s: seq<T>, stop: int): seq<T>
  {
    s[..SliceEnd(|s|, stop)]
  }
}
