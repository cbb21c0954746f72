/** Proper scoring of signals, in exact reals: Brier, its Murphy decomposition
    over bins, and the PM's signal weights. */
module Scoring {
  import opened Records

  const MAX_BINS := 10
  const MIN_PER_BIN := 20

  // ---- sums over index lists ----

  function Sum(v: seq<real>): real {
    if v == [] then 0.0 else Sum(v[..|v| - 1]) + v[|v| - 1]
  }

  ghost predicate Indexes(idx: seq<nat>, n: nat) { forall i | 0 <= i < |idx| :: idx[i] < n }

  /** v[idx].sum() */
  function Over(v: seq<real>, idx: seq<nat>): real
    requires Indexes(idx, |v|)
  {
    if idx == [] then 0.0 else v[idx[0]] + Over(v, idx[1..])
  }

  // Products, squares and quotients by a count are named, so that a proof over
  // lists can leave them folded and do its algebra on plain numbers.

  function Times(x: real, y: real): real { x * y }

  function Square(x: real): real { x * x }

  function Per(x: real, n: nat): real
    requires n > 0
  {
    x / n as real
  }

  /** v[idx].mean() */
  function MeanOver(v: seq<real>, idx: seq<nat>): real
    requires Indexes(idx, |v|) && idx != []
  {
    Per(Over(v, idx), |idx|)
  }

  function UpTo(n: nat): (r: seq<nat>)
    ensures |r| == n && forall i | 0 <= i < n :: r[i] == i
  {
    seq(n, i => i)
  }

  function Flatten(bins: seq<seq<nat>>): seq<nat> {
    if bins == [] then [] else bins[0] + Flatten(bins[1..])
  }

  /** Every index below n lies in exactly one bin, once; no bin is empty. */
  ghost predicate Partition(bins: seq<seq<nat>>, n: nat) {
    && multiset(Flatten(bins)) == multiset(UpTo(n))
    && forall k | 0 <= k < |bins| :: bins[k] != []
  }

  // ---- brier ----

  function SquaredErrors(p: seq<real>, o: seq<real>): (r: seq<real>)
    requires |p| == |o|
    ensures |r| == |p|
  {
    seq(|p|, i requires 0 <= i < |p| => Square(p[i] - o[i]))
  }

  /** The mean squared error; no value on no data. */
  function Brier(p: seq<real>, o: seq<real>): Option<real>
    requires |p| == |o|
  {
    if p == [] then None else Some(Per(Sum(SquaredErrors(p, o)), |p|))
  }

  // ---- the two binnings ----

  /** Where index i goes among indexes already sorted by value: after every
      value not above its own. */
  function Place(p: seq<real>, sorted: seq<nat>, i: nat): seq<nat>
    requires Indexes(sorted, |p|) && i < |p|
  {
    if sorted == [] then [i]
    else if p[i] < p[sorted[|sorted| - 1]] then Place(p, sorted[..|sorted| - 1], i) + [sorted[|sorted| - 1]]
    else sorted + [i]
  }

  lemma {:induction false} PlaceIsPermutation(p: seq<real>, sorted: seq<nat>, i: nat)
    requires Indexes(sorted, |p|) && i < |p|
    ensures multiset(Place(p, sorted, i)) == multiset(sorted) + multiset{i}
    ensures |Place(p, sorted, i)| == |sorted| + 1 && Indexes(Place(p, sorted, i), |p|)
    decreases |sorted|
  {
    if sorted != [] && p[i] < p[sorted[|sorted| - 1]] {
      var front := sorted[..|sorted| - 1];
      PlaceIsPermutation(p, front, i);
      assert sorted == front + [sorted[|sorted| - 1]];
    }
  }

  /** np.argsort(p, kind="stable"), of the first n values. */
  function ArgSort(p: seq<real>, n: nat): (r: seq<nat>)
    requires n <= |p|
    ensures Indexes(r, |p|) && |r| == n
  {
    if n == 0 then []
    else
      PlaceIsPermutation(p, ArgSort(p, n - 1), n - 1);
      Place(p, ArgSort(p, n - 1), n - 1)
  }

  lemma {:induction false} ArgSortPermutes(p: seq<real>, n: nat)
    requires n <= |p|
    ensures multiset(ArgSort(p, n)) == multiset(UpTo(n))
  {
    if n > 0 {
      ArgSortPermutes(p, n - 1);
      PlaceIsPermutation(p, ArgSort(p, n - 1), n - 1);
      assert UpTo(n) == UpTo(n - 1) + [n - 1];
    }
  }

  /** Where the k-th of `parts` near-equal slices of n items begins. */
  function Start(n: nat, parts: nat, k: nat): nat
    requires parts > 0
  {
    k * (n / parts) + if k < n % parts then k else n % parts
  }

  lemma StartSteps(n: nat, parts: nat, k: nat)
    requires parts > 0 && k < parts
    ensures Start(n, parts, 0) == 0 && Start(n, parts, parts) == n
    ensures Start(n, parts, k + 1) == Start(n, parts, k) + n / parts + if k < n % parts then 1 else 0
  {
    var q := n / parts;
    assert (k + 1) * q == k * q + q;
    assert n == parts * q + n % parts;
  }

  lemma {:induction false} StartWithin(n: nat, parts: nat, k: nat)
    requires parts > 0 && k <= parts
    ensures Start(n, parts, k) <= n
    decreases parts - k
  {
    if k < parts {
      StartSteps(n, parts, k);
      StartWithin(n, parts, k + 1);
    } else {
      StartSteps(n, parts, 0);
    }
  }

  /** np.array_split, through the k-th slice: the first n % parts get one more. */
  function SplitTo(order: seq<nat>, parts: nat, k: nat): seq<seq<nat>>
    requires parts > 0 && k <= parts
  {
    if k == 0 then []
    else
      StartWithin(|order|, parts, k);
      StartSteps(|order|, parts, k - 1);
      SplitTo(order, parts, k - 1) + [order[Start(|order|, parts, k - 1)..Start(|order|, parts, k)]]
  }

  function NonEmpty(bins: seq<seq<nat>>): seq<seq<nat>> {
    if bins == [] then [] else (if bins[0] == [] then [] else [bins[0]]) + NonEmpty(bins[1..])
  }

  function EqualMassBins(p: seq<real>, parts: nat): seq<seq<nat>>
    requires parts > 0
  {
    NonEmpty(SplitTo(ArgSort(p, |p|), parts, parts))
  }

  function InsertSorted(vs: seq<real>, v: real): seq<real> {
    if vs == [] then [v]
    else if v < vs[0] then [v] + vs
    else if v == vs[0] then vs
    else [vs[0]] + InsertSorted(vs[1..], v)
  }

  /** np.unique(p): the distinct values, ascending. */
  function Unique(p: seq<real>): seq<real> {
    if p == [] then [] else InsertSorted(Unique(p[..|p| - 1]), p[|p| - 1])
  }

  /** np.flatnonzero(p == v), of the first n values. */
  function Where(p: seq<real>, v: real, n: nat): seq<nat>
    requires n <= |p|
  {
    if n == 0 then []
    else if p[n - 1] == v then Where(p, v, n - 1) + [n - 1]
    else Where(p, v, n - 1)
  }

  function BinsByValue(p: seq<real>, values: seq<real>): seq<seq<nat>> {
    if values == [] then [] else [Where(p, values[0], |p|)] + BinsByValue(p, values[1..])
  }

  function BinCount(n: nat): (r: nat)
    ensures 1 <= r <= MAX_BINS
  {
    if n / MIN_PER_BIN < 1 then 1 else if n / MIN_PER_BIN > MAX_BINS then MAX_BINS else n / MIN_PER_BIN
  }

  predicate ByValue(p: seq<real>) { |Unique(p)| <= BinCount(|p|) }

  function Bins(p: seq<real>): seq<seq<nat>> {
    if ByValue(p) then BinsByValue(p, Unique(p)) else EqualMassBins(p, BinCount(|p|))
  }

  // ---- the decomposition ----

  ghost predicate BinsWithin(bins: seq<seq<nat>>, n: nat) {
    forall k | 0 <= k < |bins| :: bins[k] != [] && Indexes(bins[k], n)
  }

  function Mean(v: seq<real>): real
    requires v != []
  {
    Per(Sum(v), |v|)
  }

  function AbsDiff(x: real, y: real): real { if x < y then y - x else x - y }

  function Share(bin: seq<nat>, n: nat): real
    requires n > 0
  {
    Per(|bin| as real, n)
  }

  function Gap(p: seq<real>, o: seq<real>, bin: seq<nat>): real
    requires |p| == |o| && bin != [] && Indexes(bin, |p|)
  {
    MeanOver(p, bin) - MeanOver(o, bin)
  }

  function Reliability(p: seq<real>, o: seq<real>, bins: seq<seq<nat>>): real
    requires |p| == |o| > 0 && BinsWithin(bins, |p|)
  {
    if bins == [] then 0.0
    else
      var last := bins[|bins| - 1];
      Reliability(p, o, bins[..|bins| - 1]) + Times(Share(last, |p|), Square(Gap(p, o, last)))
  }

  function Resolution(o: seq<real>, bins: seq<seq<nat>>): real
    requires |o| > 0 && BinsWithin(bins, |o|)
  {
    if bins == [] then 0.0
    else
      var last := bins[|bins| - 1];
      Resolution(o, bins[..|bins| - 1]) + Times(Share(last, |o|), Square(MeanOver(o, last) - Mean(o)))
  }

  function CalibrationError(p: seq<real>, o: seq<real>, bins: seq<seq<nat>>): real
    requires |p| == |o| > 0 && BinsWithin(bins, |p|)
  {
    if bins == [] then 0.0
    else
      var last := bins[|bins| - 1];
      CalibrationError(p, o, bins[..|bins| - 1])
      + Times(Share(last, |p|), AbsDiff(MeanOver(p, last), MeanOver(o, last)))
  }

  function Uncertainty(o: seq<real>): real
    requires o != []
  {
    Times(Mean(o), 1.0 - Mean(o))
  }

  datatype Decomposition =
    | Undefined          // fewer than MIN_PER_BIN calls: every field is NaN
    | Murphy(reliability: real, resolution: real, uncertainty: real, ece: real, nBins: nat)

  // ---- partitions ----

  lemma {:induction false} OverConcat(v: seq<real>, a: seq<nat>, b: seq<nat>)
    requires Indexes(a, |v|) && Indexes(b, |v|)
    ensures Indexes(a + b, |v|) && Over(v, a + b) == Over(v, a) + Over(v, b)
    decreases |a|
  {
    if a == [] {
      assert a + b == b;
    } else {
      assert (a + b)[1..] == a[1..] + b;
      OverConcat(v, a[1..], b);
    }
  }

  lemma RemoveAt(v: seq<real>, b: seq<nat>, j: nat)
    requires Indexes(b, |v|) && j < |b|
    ensures var rest := b[..j] + b[j + 1..];
            && Indexes(rest, |v|) && Over(v, b) == v[b[j]] + Over(v, rest)
            && multiset(b) == multiset{b[j]} + multiset(rest)
  {
    var front, back := b[..j], b[j + 1..];
    assert b == front + ([b[j]] + back);
    assert ([b[j]] + back)[1..] == back;
    OverConcat(v, front, [b[j]] + back);
    OverConcat(v, front, back);
    assert multiset(b) == multiset(front) + multiset([b[j]] + back);
  }

  /** A sum over indexes depends only on which they are, not their order. */
  lemma {:induction false} OverPermutation(v: seq<real>, a: seq<nat>, b: seq<nat>)
    requires Indexes(a, |v|) && Indexes(b, |v|) && multiset(a) == multiset(b)
    ensures Over(v, a) == Over(v, b)
    decreases |a|
  {
    if a == [] {
      assert |multiset(b)| == 0;
    } else {
      assert a[0] in multiset(b);
      var j :| 0 <= j < |b| && b[j] == a[0];
      RemoveAt(v, b, j);
      var rest := b[..j] + b[j + 1..];
      assert a == [a[0]] + a[1..];
      assert multiset(a) == multiset{a[0]} + multiset(a[1..]);
      assert multiset(a[1..]) == multiset(a) - multiset{a[0]} == multiset(rest);
      OverPermutation(v, a[1..], rest);
    }
  }

  lemma {:induction false} OverAll(v: seq<real>, n: nat)
    requires n <= |v|
    ensures Over(v, UpTo(n)) == Sum(v[..n])
  {
    if n == 0 {
      assert UpTo(0) == [];
    } else {
      OverAll(v, n - 1);
      assert UpTo(n) == UpTo(n - 1) + [n - 1];
      OverConcat(v, UpTo(n - 1), [n - 1]);
      assert [n - 1][1..] == [];
      assert v[..n][..n - 1] == v[..n - 1];
    }
  }

  function OverBins(v: seq<real>, bins: seq<seq<nat>>): real
    requires BinsWithin(bins, |v|)
  {
    if bins == [] then 0.0 else OverBins(v, bins[..|bins| - 1]) + Over(v, bins[|bins| - 1])
  }

  lemma {:induction false} FlattenSnoc(bins: seq<seq<nat>>, last: seq<nat>)
    ensures Flatten(bins + [last]) == Flatten(bins) + last
  {
    if bins == [] {
      assert [last][1..] == [] && [] + [last] == [last];
      assert last + [] == last;
    } else {
      assert (bins + [last])[1..] == bins[1..] + [last];
      FlattenSnoc(bins[1..], last);
    }
  }

  lemma {:induction false} OverBinsIsOver(v: seq<real>, bins: seq<seq<nat>>)
    requires BinsWithin(bins, |v|)
    ensures Indexes(Flatten(bins), |v|) && Over(v, Flatten(bins)) == OverBins(v, bins)
  {
    if bins != [] {
      var front, last := bins[..|bins| - 1], bins[|bins| - 1];
      OverBinsIsOver(v, front);
      assert bins == front + [last];
      FlattenSnoc(front, last);
      OverConcat(v, Flatten(front), last);
    }
  }

  lemma {:induction false} FlattenHas(bins: seq<seq<nat>>, k: nat, j: nat)
    requires k < |bins| && j < |bins[k]|
    ensures bins[k][j] in Flatten(bins)
  {
    if k == 0 {
      assert Flatten(bins)[j] == bins[0][j];
    } else {
      FlattenHas(bins[1..], k - 1, j);
    }
  }

  lemma PartitionIsWithin(bins: seq<seq<nat>>, n: nat)
    requires Partition(bins, n)
    ensures BinsWithin(bins, n)
  {
    forall k, j | 0 <= k < |bins| && 0 <= j < |bins[k]| ensures bins[k][j] < n {
      FlattenHas(bins, k, j);
      assert bins[k][j] in multiset(UpTo(n));
    }
  }

  /** Adding up bin by bin over a partition adds up everything once. */
  lemma OverPartition(v: seq<real>, bins: seq<seq<nat>>)
    requires Partition(bins, |v|)
    ensures BinsWithin(bins, |v|) && OverBins(v, bins) == Sum(v)
  {
    PartitionIsWithin(bins, |v|);
    OverBinsIsOver(v, bins);
    OverPermutation(v, Flatten(bins), UpTo(|v|));
    OverAll(v, |v|);
    assert v[..|v|] == v;
  }
}
