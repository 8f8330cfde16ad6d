/** A model of the German Tank Problem simulation: draw a population size N,
    draw a sample size k, number the tanks 0..N-1, shuffle them in place,
    take the first k as a sample drawn without replacement, and estimate N
    from the sample maximum kmax as kmax + kmax/k - 1 (integer division).

    Randomness is injected: every random draw is a parameter of the model,
    and the shuffle is numpy's in-place Fisher-Yates driven by those draws. */
module GermanTank {

  /** The upper bound passed to the first draw: N is drawn from [0, 50000). */
  const UpperBound: int := 50000

  datatype Error =
    /** randint(low, high) was asked for an empty range (low >= high). */
    | EmptyRange(low: int, high: int)

  datatype Result<T> = Ok(value: T) | Err(error: Error)

  /** What one run reports: the sample size, the sample maximum, the
      estimate and the true population size. The sample itself is kept too,
      so that its properties can be stated. */
  datatype Report = Report(k: int, kmax: int, estimate: int, n: int, sample: seq<int>)

  // ---------------------------------------------------------------------
  // Random draws

  /** randint(low, high): a value in [low, high), chosen by `choice`.
      An empty range is an error, as numpy raises on it. */
  function DrawInRange(low: int, high: int, choice: nat): (r: Result<int>)
    ensures r.Ok? <==> low < high
    ensures r.Ok? ==> low <= r.value < high
    ensures r.Err? ==> r.error == EmptyRange(low, high)
  {
    if low < high then Ok(low + choice % (high - low)) else Err(EmptyRange(low, high))
  }

  /** Every value of a non-empty range can be drawn: the injected choice
      loses none of the outcomes the random primitive can produce. */
  lemma DrawInRangeReachesAll(low: int, high: int, v: int)
    requires low <= v < high
    ensures DrawInRange(low, high, v - low) == Ok(v)
  {
    assert (v - low) % (high - low) == v - low;
  }

  /** The sample-size draw randint(1, N) succeeds exactly when N >= 2, and
      then gives 1 <= k <= N - 1. */
  lemma SampleSizeDraw(n: int, choice: nat)
    ensures DrawInRange(1, n, choice).Ok? <==> n >= 2
    ensures DrawInRange(1, n, choice).Ok? ==> 1 <= DrawInRange(1, n, choice).value <= n - 1
  {
  }

  // ---------------------------------------------------------------------
  // Serial numbers and their permutations

  /** The serial numbers 0, 1, ..., n-1 in order (the value of arange(n)). */
  function Serials(n: nat): (r: seq<int>)
    ensures |r| == n
    ensures forall i :: 0 <= i < n ==> r[i] == i
  {
    if n == 0 then [] else Serials(n - 1) + [n - 1]
  }

  /** Each serial below n occurs exactly once in Serials(n), nothing else occurs. */
  lemma {:induction false} SerialsMultiplicity(n: nat, v: int)
    ensures multiset(Serials(n))[v] == if 0 <= v < n then 1 else 0
  {
    if n > 0 {
      SerialsMultiplicity(n - 1, v);
      assert Serials(n) == Serials(n - 1) + [n - 1];
      assert multiset(Serials(n)) == multiset(Serials(n - 1)) + multiset{n - 1};
    }
  }

  /** No value occurs twice. */
  predicate Distinct(s: seq<int>)
  {
    forall i, j :: 0 <= i < j < |s| ==> s[i] != s[j]
  }

  /** Every value is a serial number below n. */
  predicate AllBelow(s: seq<int>, n: int)
  {
    forall i :: 0 <= i < |s| ==> 0 <= s[i] < n
  }

  /** s holds each of 0..n-1 exactly once, in some order. */
  predicate IsPermutationOfSerials(s: seq<int>, n: nat)
  {
    multiset(s) == multiset(Serials(n))
  }

  /** A value at two different positions occurs at least twice. */
  lemma {:induction false} TwoPositions(s: seq<int>, i: int, j: int)
    requires 0 <= i < j < |s| && s[i] == s[j]
    ensures multiset(s)[s[i]] >= 2
  {
    assert s == s[..i] + [s[i]] + s[i + 1..];
    assert s[i + 1..][j - i - 1] == s[j];
    assert s[j] in multiset(s[i + 1..]);
    assert multiset(s) == multiset(s[..i]) + multiset{s[i]} + multiset(s[i + 1..]);
  }

  /** A permutation of the serials has length n, no duplicates, and only
      values in [0, n). */
  lemma PermutationOfSerials(s: seq<int>, n: nat)
    requires IsPermutationOfSerials(s, n)
    ensures |s| == n && Distinct(s) && AllBelow(s, n)
  {
    assert |s| == |multiset(s)| == |multiset(Serials(n))| == n;
    forall i | 0 <= i < |s|
      ensures 0 <= s[i] < n
    {
      assert s[i] in multiset(s);
      SerialsMultiplicity(n, s[i]);
    }
    forall i, j | 0 <= i < j < |s|
      ensures s[i] != s[j]
    {
      if s[i] == s[j] {
        TwoPositions(s, i, j);
        SerialsMultiplicity(n, s[i]);
      }
    }
  }

  // ---------------------------------------------------------------------
  // Counting: the pigeonhole facts behind the bound on kmax

  /** Dropping the element at position p keeps the others in order. */
  function RemoveAt(s: seq<int>, p: nat): (r: seq<int>)
    requires p < |s|
    ensures |r| == |s| - 1
    ensures forall i :: 0 <= i < p ==> r[i] == s[i]
    ensures forall i :: p <= i < |r| ==> r[i] == s[i + 1]
  {
    s[..p] + s[p + 1..]
  }

  /** Pigeonhole: distinct naturals that are all at most top number at
      most top + 1. */
  lemma {:induction false} Pigeonhole(s: seq<int>, top: int)
    requires top >= -1 && Distinct(s)
    requires forall i :: 0 <= i < |s| ==> 0 <= s[i] <= top
    ensures |s| <= top + 1
    decreases top + 1
  {
    if s != [] {
      assert 0 <= s[0] <= top;
      if p :| 0 <= p < |s| && s[p] == top {
        // every other element is distinct from s[p], hence below top
        var r := RemoveAt(s, p);
        forall i | 0 <= i < |r|
          ensures 0 <= r[i] <= top - 1
        {
          if i < p { assert r[i] == s[i]; } else { assert r[i] == s[i + 1]; }
        }
        forall i, j | 0 <= i < j < |r|
          ensures r[i] != r[j]
        {
          var i' := if i < p then i else i + 1;
          var j' := if j < p then j else j + 1;
          assert r[i] == s[i'] && r[j] == s[j'];
        }
        Pigeonhole(r, top - 1);
      } else {
        forall i | 0 <= i < |s|
          ensures 0 <= s[i] <= top - 1
        {
          assert s[i] != top;
        }
        Pigeonhole(s, top - 1);
      }
    }
  }

  // ---------------------------------------------------------------------
  // The sample and its maximum

  /** Python's slice s[:k]: the first k elements, or all of s when k exceeds
      its length. */
  function Prefix(s: seq<int>, k: nat): (t: seq<int>)
    ensures |t| == if k <= |s| then k else |s|
    ensures forall i :: 0 <= i < |t| ==> t[i] == s[i]
  {
    if k <= |s| then s[..k] else s
  }

  /** A prefix of a permutation of 0..n-1 of length k < n is a sample of
      exactly k distinct serials drawn from [0, n). */
  lemma SampleWithoutReplacement(tanks: seq<int>, n: nat, k: nat)
    requires IsPermutationOfSerials(tanks, n)
    requires k < n
    ensures |Prefix(tanks, k)| == k
    ensures Distinct(Prefix(tanks, k)) && AllBelow(Prefix(tanks, k), n)
  {
    PermutationOfSerials(tanks, n);
  }

  /** np.max: the largest element of a non-empty sequence. */
  function Max(s: seq<int>): (m: int)
    requires |s| > 0
    ensures m in s
    ensures forall i :: 0 <= i < |s| ==> s[i] <= m
  {
    if |s| == 1 then s[0]
    else
      var rest := Max(s[1..]);
      if s[0] >= rest then s[0] else rest
  }

  /** The bound on the sample maximum: k distinct serials below n have a
      maximum of at least k - 1 and at most n - 1. */
  lemma SampleMaxBounds(t: seq<int>, n: int)
    requires |t| > 0 && Distinct(t) && AllBelow(t, n)
    ensures |t| - 1 <= Max(t) <= n - 1
  {
    var m := Max(t);
    assert 0 <= m < n by {
      var p :| 0 <= p < |t| && t[p] == m;
    }
    Pigeonhole(t, m);
  }

  /** The lower bound is tight: the sample 0..k-1 has maximum exactly k - 1. */
  lemma SampleMaxTight(k: nat)
    requires k > 0
    ensures Max(Serials(k)) == k - 1
  {
    assert Serials(k)[k - 1] == k - 1;
  }

  // ---------------------------------------------------------------------
  // The estimator

  /** -1 + kmax + kmax/k with Python 2 integer division. kmax and k are
      non-negative here, so floor division agrees with Dafny's `/`. */
  function Estimate(kmax: int, k: int): (e: int)
    requires kmax >= 0 && k >= 1
    ensures kmax - 1 <= e <= 2 * kmax - 1
  {
    -1 + kmax + kmax / k
  }

  /** For a fixed k the estimate does not decrease as kmax grows. */
  lemma EstimateMonotoneInMax(kmax1: int, kmax2: int, k: int)
    requires 0 <= kmax1 <= kmax2 && k >= 1
    ensures Estimate(kmax1, k) <= Estimate(kmax2, k)
  {
    var q1 := kmax1 / k;
    assert q1 * k <= kmax1;
    assert q1 * k <= kmax2;
    DivLowerBound(kmax2, k, q1);
  }

  /** For a fixed kmax the estimate does not increase as k grows. */
  lemma EstimateAntitoneInSize(kmax: int, k1: int, k2: int)
    requires kmax >= 0 && 1 <= k1 <= k2
    ensures Estimate(kmax, k2) <= Estimate(kmax, k1)
  {
    var q2 := kmax / k2;
    assert q2 * k2 <= kmax;
    assert q2 >= 0;
    assert q2 * k1 <= q2 * k2;
    DivLowerBound(kmax, k1, q2);
  }

  /** Any q with q * k <= x is at most x / k. */
  lemma DivLowerBound(x: int, k: int, q: int)
    requires x >= 0 && k >= 1 && q * k <= x
    ensures q <= x / k
  {
    var d := x / k;
    assert x < (d + 1) * k;
    assert (q - (d + 1)) * k < 0;
  }

  /** A boundary case of the formula alone: a sample of every tank (k = n,
      kmax = n - 1) estimates n - 2, as the integer division drops the
      fraction (n - 1) / n. A run never draws k = n, since k < n. */
  lemma EstimateFullSample(n: int)
    requires n >= 1
    ensures Estimate(n - 1, n) == n - 2
  {
  }

  /** Two worked examples: kmax 9 from k 5 estimates 9 (floor division drops
      the 0.8), and kmax 2 from k 1 estimates 3. */
  lemma EstimateExamples()
    ensures Estimate(9, 5) == 9
    ensures Estimate(2, 1) == 3
  {
  }

  /** The estimate from a sample drawn without replacement lies between
      the lower bound forced by the pigeonhole fact and twice the true size. */
  lemma EstimateOfSampleBounds(t: seq<int>, n: int)
    requires |t| > 0 && Distinct(t) && AllBelow(t, n)
    ensures |t| - 1 <= Max(t) <= n - 1
    ensures Max(t) - 1 <= Estimate(Max(t), |t|) <= 2 * n - 3
  {
    SampleMaxBounds(t, n);
    assert 0 <= Max(t) by {
      var p :| 0 <= p < |t| && t[p] == Max(t);
    }
  }

  // ---------------------------------------------------------------------
  // The in-place steps: arange and shuffle

  /** np.arange(n): a new array holding 0, 1, ..., n-1. */
  method Arange(n: nat) returns (a: array<int>)
    ensures fresh(a)
    ensures a[..] == Serials(n)
  {
    a := new int[n];
    var i := 0;
    while i < n
      invariant 0 <= i <= n
      invariant forall p :: 0 <= p < i ==> a[p] == p
    {
      a[i] := i;
      i := i + 1;
    }
  }

  /** np.random.shuffle: numpy's Fisher-Yates pass, from the last position
      down to position 1, swapping position i with a position j drawn from
      [0, i]. The draw for position i is `draw(i)` reduced to that range. */
  method Shuffle(a: array<int>, draw: nat -> nat)
    modifies a
    ensures multiset(a[..]) == old(multiset(a[..]))
  {
    var i := a.Length;
    while i > 1
      invariant 0 <= i <= a.Length
      invariant multiset(a[..]) == old(multiset(a[..]))
    {
      i := i - 1;
      var j := draw(i) % (i + 1);
      a[i], a[j] := a[j], a[i];
    }
  }

  /** arange followed by shuffle leaves every serial 0..n-1 exactly once. */
  method ShuffledSerials(n: nat, draw: nat -> nat) returns (tanks: array<int>)
    ensures fresh(tanks)
    ensures tanks.Length == n
    ensures IsPermutationOfSerials(tanks[..], n)
  {
    tanks := Arange(n);
    Shuffle(tanks, draw);
  }

  // ---------------------------------------------------------------------
  // One run of the script

  /** The whole run: N := randint(50000); k := randint(1, N); shuffle
      arange(N); sample its first k; report k, kmax, the estimate and N.
      The run fails exactly when N <= 1, as randint(1, N) does. */
  method Simulate(nChoice: nat, kChoice: nat, draw: nat -> nat) returns (r: Result<Report>)
    ensures var n := nChoice % UpperBound;
      r.Err? <==> n <= 1
    ensures r.Err? ==> r.error == EmptyRange(1, nChoice % UpperBound)
    ensures r.Ok? ==> var rep := r.value;
      && rep.n == nChoice % UpperBound
      && rep.k == DrawInRange(1, rep.n, kChoice).value
      && 1 <= rep.k <= rep.n - 1
      && (exists tanks :: IsPermutationOfSerials(tanks, rep.n) && rep.sample == Prefix(tanks, rep.k))
      && |rep.sample| == rep.k
      && Distinct(rep.sample) && AllBelow(rep.sample, rep.n)
      && rep.kmax == Max(rep.sample)
      && rep.kmax in rep.sample
      && (forall i :: 0 <= i < |rep.sample| ==> rep.sample[i] <= rep.kmax)
      && rep.k - 1 <= rep.kmax <= rep.n - 1
      && rep.estimate == Estimate(rep.kmax, rep.k)
      && rep.kmax - 1 <= rep.estimate
  {
    var nDraw := DrawInRange(0, UpperBound, nChoice);
    var n := nDraw.value;
    var kDraw := DrawInRange(1, n, kChoice);
    if kDraw.Err? {
      return Err(kDraw.error);
    }
    var k := kDraw.value;
    var tanks := ShuffledSerials(n, draw);
    var t := Prefix(tanks[..], k);
    SampleWithoutReplacement(tanks[..], n, k);
    var kmax := Max(t);
    SampleMaxBounds(t, n);
    var estimate := Estimate(kmax, k);
    assert IsPermutationOfSerials(tanks[..], n) && t == Prefix(tanks[..], k);
    r := Ok(Report(k, kmax, estimate, n, t));
  }
}
