/** The Murphy identity over any partition, and that both binnings are one. */
module ScoringFacts {
  import opened Records
  import opened Scoring

  // ---- both binnings partition the calls ----

  lemma {:induction false} UpToCounts(n: nat, i: nat)
    ensures multiset(UpTo(n))[i] == if i < n then 1 else 0
  {
    if n == 0 {
      assert UpTo(0) == [];
    } else {
      assert UpTo(n) == UpTo(n - 1) + [n - 1];
      UpToCounts(n - 1, i);
    }
  }

  lemma SnocCounts(a: seq<nat>, x: nat, i: nat)
    ensures multiset(a + [x])[i] == multiset(a)[i] + if x == i then 1 else 0
  {
  }

  lemma {:induction false} WhereCounts(p: seq<real>, v: real, n: nat, i: nat)
    requires n <= |p|
    ensures multiset(Where(p, v, n))[i] == if i < n && p[i] == v then 1 else 0
  {
    if n > 0 {
      WhereCounts(p, v, n - 1, i);
      SnocCounts(Where(p, v, n - 1), n - 1, i);
    }
  }

  ghost predicate Ascending(vs: seq<real>) { forall i, j | 0 <= i < j < |vs| :: vs[i] < vs[j] }

  lemma {:induction false} InsertKeepsAscending(vs: seq<real>, v: real)
    requires Ascending(vs)
    ensures Ascending(InsertSorted(vs, v))
    ensures forall x :: x in InsertSorted(vs, v) <==> x == v || x in vs
  {
    if vs != [] && v > vs[0] {
      InsertKeepsAscending(vs[1..], v);
      var r := InsertSorted(vs[1..], v);
      forall j | 0 <= j < |r| ensures vs[0] < r[j] {
        assert r[j] in r;
        assert r[j] in vs[1..] ==> exists k :: 0 < k < |vs| && vs[k] == r[j];
      }
      assert forall x :: x in vs <==> x == vs[0] || x in vs[1..];
    }
  }

  /** np.unique: each value once, in order. */
  lemma {:induction false} UniqueValues(p: seq<real>)
    ensures Ascending(Unique(p)) && forall x :: x in Unique(p) <==> x in p
  {
    if p != [] {
      UniqueValues(p[..|p| - 1]);
      InsertKeepsAscending(Unique(p[..|p| - 1]), p[|p| - 1]);
    }
  }

  lemma {:induction false} ByValueCounts(p: seq<real>, vs: seq<real>, i: nat)
    requires Ascending(vs)
    ensures multiset(Flatten(BinsByValue(p, vs)))[i] == if i < |p| && p[i] in vs then 1 else 0
  {
    if vs != [] {
      ByValueCounts(p, vs[1..], i);
      WhereCounts(p, vs[0], |p|, i);
      assert vs[0] !in vs[1..];
      assert forall x :: x in vs <==> x == vs[0] || x in vs[1..];
    }
  }

  lemma {:induction false} ByValueBin(p: seq<real>, vs: seq<real>, k: nat)
    requires k < |vs|
    ensures |BinsByValue(p, vs)| == |vs| && BinsByValue(p, vs)[k] == Where(p, vs[k], |p|)
  {
    if k > 0 {
      ByValueBin(p, vs[1..], k - 1);
    } else if |vs| > 1 {
      ByValueBin(p, vs[1..], 0);
    }
  }

  lemma SameCounts(a: seq<nat>, b: seq<nat>)
    requires forall i: nat :: multiset(a)[i] == multiset(b)[i]
    ensures multiset(a) == multiset(b)
  {
  }

  lemma ByValueBinsAreFull(p: seq<real>, k: nat)
    requires k < |BinsByValue(p, Unique(p))|
    ensures BinsByValue(p, Unique(p))[k] != []
  {
    hide Unique, BinsByValue, Where;
    var vs := Unique(p);
    UniqueValues(p);
    ByValueSize(p, vs);
    ByValueBin(p, vs, k);
    assert vs[k] in p;
    var i :| 0 <= i < |p| && p[i] == vs[k];
    WhereCounts(p, vs[k], |p|, i);
  }

  lemma {:induction false} ByValueSize(p: seq<real>, vs: seq<real>)
    ensures |BinsByValue(p, vs)| == |vs|
  {
    if vs != [] { ByValueSize(p, vs[1..]); }
  }

  lemma ByValuePartitions(p: seq<real>)
    ensures Partition(BinsByValue(p, Unique(p)), |p|)
  {
    hide Unique, BinsByValue, Flatten, UpTo;
    var bins := BinsByValue(p, Unique(p));
    UniqueValues(p);
    forall i: nat ensures multiset(Flatten(bins))[i] == multiset(UpTo(|p|))[i] {
      ByValueCounts(p, Unique(p), i);
      UpToCounts(|p|, i);
      if i < |p| {
        var x := p[i];
        assert x in p && x in Unique(p);
      }
    }
    SameCounts(Flatten(bins), UpTo(|p|));
    forall k | 0 <= k < |bins| ensures bins[k] != [] { ByValueBinsAreFull(p, k); }
  }

  /** The k-th slice, and its size. */
  lemma SplitLast(order: seq<nat>, parts: nat, k: nat)
    requires 0 < k <= parts
    ensures Start(|order|, parts, k - 1) <= Start(|order|, parts, k) <= |order|
    ensures var last := order[Start(|order|, parts, k - 1)..Start(|order|, parts, k)];
            && SplitTo(order, parts, k) == SplitTo(order, parts, k - 1) + [last]
            && |order| / parts <= |last| <= |order| / parts + 1
  {
    StartWithin(|order|, parts, k);
    StartSteps(|order|, parts, k - 1);
    hide Start;
  }

  lemma {:induction false} SplitCovers(order: seq<nat>, parts: nat, k: nat)
    requires parts > 0 && k <= parts
    ensures Start(|order|, parts, k) <= |order|
    ensures Flatten(SplitTo(order, parts, k)) == order[..Start(|order|, parts, k)]
  {
    if k > 0 {
      SplitLast(order, parts, k);
      SplitCovers(order, parts, k - 1);
      hide Start, SplitTo, Flatten;
      var a, b := Start(|order|, parts, k - 1), Start(|order|, parts, k);
      FlattenSnoc(SplitTo(order, parts, k - 1), order[a..b]);
      assert order[..a] + order[a..b] == order[..b];
    } else {
      StartSteps(|order|, parts, 0);
    }
  }

  lemma {:induction false} NonEmptyKeeps(bins: seq<seq<nat>>)
    ensures Flatten(NonEmpty(bins)) == Flatten(bins)
    ensures forall k | 0 <= k < |NonEmpty(bins)| :: NonEmpty(bins)[k] != [] && NonEmpty(bins)[k] in bins
  {
    if bins != [] {
      NonEmptyKeeps(bins[1..]);
      if bins[0] == [] {
        assert [] + Flatten(bins[1..]) == Flatten(bins[1..]);
        assert [] + NonEmpty(bins[1..]) == NonEmpty(bins[1..]);
      } else {
        assert ([bins[0]] + NonEmpty(bins[1..]))[1..] == NonEmpty(bins[1..]);
      }
    }
  }

  lemma EqualMassPartitions(p: seq<real>, parts: nat)
    requires parts > 0
    ensures Partition(EqualMassBins(p, parts), |p|)
  {
    var order := ArgSort(p, |p|);
    ArgSortPermutes(p, |p|);
    SplitCovers(order, parts, parts);
    StartSteps(|order|, parts, 0);
    assert order[..|order|] == order;
    NonEmptyKeeps(SplitTo(order, parts, parts));
  }

  lemma BinsPartition(p: seq<real>)
    ensures Partition(Bins(p), |p|)
  {
    if ByValue(p) { ByValuePartitions(p); } else { EqualMassPartitions(p, BinCount(|p|)); }
  }

  // ---- equal mass, in order ----

  /** i comes before j in a stable sort by value. */
  predicate Before(p: seq<real>, i: nat, j: nat)
    requires i < |p| && j < |p|
  {
    p[i] < p[j] || (p[i] == p[j] && i < j)
  }

  /** Sorted by value, ties in their original order. */
  ghost predicate StablySorted(p: seq<real>, order: seq<nat>)
    requires Indexes(order, |p|)
  {
    forall i, j | 0 <= i < j < |order| :: Before(p, order[i], order[j])
  }

  lemma {:induction false} PlaceHas(p: seq<real>, sorted: seq<nat>, i: nat, x: nat)
    requires Indexes(sorted, |p|) && i < |p| && x in Place(p, sorted, i)
    ensures x == i || x in sorted
    decreases |sorted|
  {
    if sorted != [] && p[i] < p[sorted[|sorted| - 1]] {
      if x != sorted[|sorted| - 1] { PlaceHas(p, sorted[..|sorted| - 1], i, x); }
    }
  }

  lemma {:induction false} PlaceKeepsSorted(p: seq<real>, sorted: seq<nat>, i: nat)
    requires Indexes(sorted, |p|) && i < |p| && StablySorted(p, sorted)
    requires forall k | 0 <= k < |sorted| :: sorted[k] < i
    ensures Indexes(Place(p, sorted, i), |p|) && StablySorted(p, Place(p, sorted, i))
    decreases |sorted|
  {
    PlaceIsPermutation(p, sorted, i);
    if sorted != [] && p[i] < p[sorted[|sorted| - 1]] {
      var front, last := sorted[..|sorted| - 1], sorted[|sorted| - 1];
      PlaceKeepsSorted(p, front, i);
      var r := Place(p, front, i);
      assert Place(p, sorted, i) == r + [last];
      forall k | 0 <= k < |r| ensures Before(p, r[k], last) {
        PlaceHas(p, front, i, r[k]);
        if r[k] != i {
          var j :| 0 <= j < |front| && front[j] == r[k];
          assert Before(p, sorted[j], sorted[|sorted| - 1]);
        }
      }
    } else if sorted != [] {
      var last := sorted[|sorted| - 1];
      forall k | 0 <= k < |sorted| ensures Before(p, sorted[k], i) {
        assert k == |sorted| - 1 || Before(p, sorted[k], last);
      }
    }
  }

  lemma {:induction false} ArgSortBelow(p: seq<real>, n: nat, x: nat)
    requires n <= |p| && x in ArgSort(p, n)
    ensures x < n
  {
    if n > 0 {
      PlaceHas(p, ArgSort(p, n - 1), n - 1, x);
      if x != n - 1 { ArgSortBelow(p, n - 1, x); }
    }
  }

  lemma {:induction false} ArgSortIsStable(p: seq<real>, n: nat)
    requires n <= |p|
    ensures StablySorted(p, ArgSort(p, n))
  {
    if n > 0 {
      hide Place, StablySorted;
      ArgSortIsStable(p, n - 1);
      var sorted := ArgSort(p, n - 1);
      forall k | 0 <= k < |sorted| ensures sorted[k] < n - 1 { ArgSortBelow(p, n - 1, sorted[k]); }
      PlaceKeepsSorted(p, sorted, n - 1);
    } else {
      assert |ArgSort(p, 0)| == 0;
    }
  }

  lemma {:induction false} SlicesAreNearEqual(order: seq<nat>, parts: nat, k: nat, b: seq<nat>)
    requires parts > 0 && k <= parts && b in SplitTo(order, parts, k)
    ensures |order| / parts <= |b| <= |order| / parts + 1
  {
    assert k > 0;
    SplitLast(order, parts, k);
    if b in SplitTo(order, parts, k - 1) {
      SlicesAreNearEqual(order, parts, k - 1, b);
    } else {
      hide Start, SplitTo;
    }
  }

  /** The equal-mass bins are slices of the calls in stable order of forecast,
      and no two differ in size by more than one. */
  lemma EqualMassBinsAreSlices(p: seq<real>, parts: nat)
    requires parts > 0
    ensures Indexes(Flatten(EqualMassBins(p, parts)), |p|) && StablySorted(p, Flatten(EqualMassBins(p, parts)))
    ensures forall b, c | b in EqualMassBins(p, parts) && c in EqualMassBins(p, parts) :: |b| <= |c| + 1
  {
    var order := ArgSort(p, |p|);
    var slices := SplitTo(order, parts, parts);
    SplitCovers(order, parts, parts);
    StartSteps(|order|, parts, 0);
    assert order[..|order|] == order;
    NonEmptyKeeps(slices);
    ArgSortIsStable(p, |p|);
    forall b | b in EqualMassBins(p, parts) ensures |order| / parts <= |b| <= |order| / parts + 1 {
      SlicesAreNearEqual(order, parts, parts, b);
    }
  }

  // ---- the identity ----

  /** The part of the squared error a bin's means do not explain. */
  function Within(p: seq<real>, o: seq<real>, idx: seq<nat>, pk: real, ok: real): real
    requires |p| == |o| && Indexes(idx, |p|)
  {
    if idx == [] then 0.0
    else
      Square(p[idx[0]] - pk) - 2.0 * Times(p[idx[0]] - pk, o[idx[0]] - ok)
      + Within(p, o, idx[1..], pk, ok)
  }

  function WithinBins(p: seq<real>, o: seq<real>, bins: seq<seq<nat>>): real
    requires |p| == |o| && BinsWithin(bins, |p|)
  {
    if bins == [] then 0.0
    else
      var last := bins[|bins| - 1];
      WithinBins(p, o, bins[..|bins| - 1]) + Within(p, o, last, MeanOver(p, last), MeanOver(o, last))
  }

  function Squares(v: seq<real>): (r: seq<real>)
    ensures |r| == |v|
  {
    seq(|v|, i requires 0 <= i < |v| => Square(v[i]))
  }

  /** How n calls' squared errors split around any m and q, given the sums of
      forecasts, outcomes and squared outcomes. */
  predicate SplitLaw(n: real, m: real, q: real, sp: real, so: real, ss: real, err: real, w: real) {
    err == w + 2.0 * (m - q) * (sp - n * m) + n * (m * m) - 2.0 * m * so + ss
  }

  lemma ErrorSplits(p: real, o: real, m: real, q: real)
    ensures (p - o) * (p - o)
            == (p - m) * (p - m) - 2.0 * ((p - m) * (o - q)) + 2.0 * (m - q) * (p - m) + m * m - 2.0 * m * o + o * o
  {
    var a, b, c := p - m, m - q, o - q;
    assert p - o == a + b - c;
    assert (a + b - c) * (a + b - c) == a * a + b * b + c * c + 2.0 * a * b - 2.0 * a * c - 2.0 * b * c;
    assert m * m - 2.0 * m * o + o * o == (m - o) * (m - o);
    assert m - o == b - c;
    assert (b - c) * (b - c) == b * b - 2.0 * b * c + c * c;
  }

  lemma SplitStep(pi: real, oi: real, n: real, m: real, q: real, sp: real, so: real, ss: real, err: real, w: real)
    requires SplitLaw(n, m, q, sp, so, ss, err, w)
    ensures SplitLaw(n + 1.0, m, q, pi + sp, oi + so, Square(oi) + ss, Square(pi - oi) + err,
                     Square(pi - m) - 2.0 * Times(pi - m, oi - q) + w)
  {
    ErrorSplits(pi, oi, m, q);
    var g := 2.0 * (m - q);
    assert (n + 1.0) * m == n * m + m;
    assert g * ((pi + sp) - (n * m + m)) == g * (sp - n * m) + g * (pi - m);
    assert (n + 1.0) * (m * m) == n * (m * m) + m * m;
    assert 2.0 * m * (oi + so) == 2.0 * m * oi + 2.0 * m * so;
  }

  lemma NothingSplits(m: real, q: real)
    ensures SplitLaw(0.0, m, q, 0.0, 0.0, 0.0, 0.0, 0.0)
  {
  }

  lemma {:induction false} BinSplits(p: seq<real>, o: seq<real>, idx: seq<nat>, m: real, q: real)
    requires |p| == |o| && Indexes(idx, |p|)
    ensures SplitLaw(|idx| as real, m, q, Over(p, idx), Over(o, idx), Over(Squares(o), idx),
                     Over(SquaredErrors(p, o), idx), Within(p, o, idx, m, q))
    decreases |idx|
  {
    hide SplitLaw, Square, Times;
    if idx == [] {
      NothingSplits(m, q);
    } else {
      var i, rest := idx[0], idx[1..];
      BinSplits(p, o, rest, m, q);
      SplitStep(p[i], o[i], |rest| as real, m, q, Over(p, rest), Over(o, rest), Over(Squares(o), rest),
                Over(SquaredErrors(p, o), rest), Within(p, o, rest, m, q));
      assert |idx| as real == |rest| as real + 1.0;
    }
  }

  lemma PerTimes(x: real, n: nat)
    requires n > 0
    ensures Times(n as real, Per(x, n)) == x
  {
  }

  lemma MeanTimes(v: seq<real>, idx: seq<nat>)
    requires Indexes(idx, |v|) && idx != []
    ensures Times(|idx| as real, MeanOver(v, idx)) == Over(v, idx)
  {
    PerTimes(Over(v, idx), |idx|);
  }

  lemma AtTheMeans(k: real, m: real, q: real, sp: real, so: real, ss: real, err: real, w: real)
    requires SplitLaw(k, m, q, sp, so, ss, err, w) && Times(k, m) == sp && Times(k, q) == so
    ensures err == w + Times(k, Square(m - q)) + ss - Times(k, Square(q))
  {
    assert Square(m - q) == m * m - 2.0 * (m * q) + q * q;
    assert k * Square(m - q) == k * (m * m) - 2.0 * (k * (m * q)) + k * (q * q);
    assert 2.0 * m * (k * q) == 2.0 * (k * (m * q));
    assert 2.0 * (m - q) * 0.0 == 0.0;
  }

  /** At a bin's own means, its squared error is the unexplained part, plus its
      size times its squared calibration gap, plus what its outcomes fix. */
  lemma BinIdentity(p: seq<real>, o: seq<real>, idx: seq<nat>, m: real, q: real)
    requires |p| == |o| && Indexes(idx, |p|) && idx != []
    requires m == MeanOver(p, idx) && q == MeanOver(o, idx)
    ensures Over(SquaredErrors(p, o), idx)
            == Within(p, o, idx, m, q) + Times(|idx| as real, Square(m - q))
               + Over(Squares(o), idx) - Times(|idx| as real, Square(q))
  {
    hide SplitLaw, Square, Times, Over, Within, MeanOver, Squares, SquaredErrors;
    BinSplits(p, o, idx, m, q);
    MeanTimes(p, idx);
    MeanTimes(o, idx);
    AtTheMeans(|idx| as real, m, q, Over(p, idx), Over(o, idx), Over(Squares(o), idx),
               Over(SquaredErrors(p, o), idx), Within(p, o, idx, m, q));
  }

  lemma ShareTimes(bin: seq<nat>, n: nat, x: real)
    requires n > 0
    ensures Times(n as real, Times(Share(bin, n), x)) == Times(|bin| as real, x)
  {
    PerTimes(|bin| as real, n);
    assert n as real * (Share(bin, n) * x) == (n as real * Share(bin, n)) * x;
  }

  lemma Distribute(n: real, x: real, y: real)
    ensures Times(n, x + y) == Times(n, x) + Times(n, y)
  {
  }

  lemma TimesZero(n: real)
    ensures Times(n, 0.0) == 0.0
  {
  }

  /** Σ |bin| ok², bin by bin. */
  function SquaredMeans(o: seq<real>, bins: seq<seq<nat>>): real
    requires BinsWithin(bins, |o|)
  {
    if bins == [] then 0.0
    else
      var last := bins[|bins| - 1];
      SquaredMeans(o, bins[..|bins| - 1]) + Times(|last| as real, Square(MeanOver(o, last)))
  }

  lemma {:induction false} ErrorOverBins(p: seq<real>, o: seq<real>, bins: seq<seq<nat>>)
    requires |p| == |o| > 0 && BinsWithin(bins, |p|)
    ensures OverBins(SquaredErrors(p, o), bins)
            == WithinBins(p, o, bins) + Times(|p| as real, Reliability(p, o, bins))
               + OverBins(Squares(o), bins) - SquaredMeans(o, bins)
  {
    hide Over, MeanOver, Within, Square, Times, SquaredErrors, Squares, Share;
    if bins == [] {
      TimesZero(|p| as real);
    } else {
      var front, last := bins[..|bins| - 1], bins[|bins| - 1];
      ErrorOverBins(p, o, front);
      BinIdentity(p, o, last, MeanOver(p, last), MeanOver(o, last));
      var x := Square(Gap(p, o, last));
      ShareTimes(last, |p|, x);
      Distribute(|p| as real, Reliability(p, o, front), Times(Share(last, |p|), x));
    }
  }

  /** n times the resolution, from the sums the bins give. */
  predicate ResolutionLaw(total: real, sq: real, a: real, so: real, f: real) {
    total == sq - 2.0 * Times(a, so) + Times(f, Square(a))
  }

  lemma Expand(k: real, x: real, y: real)
    ensures Times(k, Square(x - y)) == Times(k, Square(x)) - 2.0 * Times(y, Times(k, x)) + Times(k, Square(y))
  {
    assert (x - y) * (x - y) == x * x - 2.0 * (x * y) + y * y;
    assert k * (x * x - 2.0 * (x * y) + y * y) == k * (x * x) - 2.0 * (k * (x * y)) + k * (y * y);
    assert k * (x * y) == y * (k * x);
  }

  lemma Collect(x: real, y: real, k: real)
    ensures Times(x + y, k) == Times(x, k) + Times(y, k)
  {
  }

  lemma ResolutionStep(total: real, sq: real, a: real, so: real, f: real, k: real, q: real, sk: real)
    requires ResolutionLaw(total, sq, a, so, f) && Times(k, q) == sk
    ensures ResolutionLaw(total + Times(k, Square(q - a)), sq + Times(k, Square(q)), a, so + sk, f + k)
  {
    hide Times, Square;
    Expand(k, q, a);
    Distribute(a, so, sk);
    Collect(f, k, Square(a));
  }

  lemma NothingResolves(n: real, a: real)
    ensures ResolutionLaw(Times(n, 0.0), 0.0, a, 0.0, 0.0)
  {
  }

  lemma {:induction false} ResolutionOverBins(o: seq<real>, bins: seq<seq<nat>>)
    requires |o| > 0 && BinsWithin(bins, |o|)
    ensures ResolutionLaw(Times(|o| as real, Resolution(o, bins)), SquaredMeans(o, bins), Mean(o),
                          OverBins(o, bins), |Flatten(bins)| as real)
  {
    hide Over, MeanOver, Square, Times, Share, Flatten, Mean, ResolutionLaw, Per;
    if bins == [] {
      assert Flatten(bins) == [] by { NoBinsNothing(); }
      NothingResolves(|o| as real, Mean(o));
    } else {
      var front, last := bins[..|bins| - 1], bins[|bins| - 1];
      ResolutionOverBins(o, front);
      assert bins == front + [last];
      FlattenSnoc(front, last);
      var a, q := Mean(o), MeanOver(o, last);
      ShareTimes(last, |o|, Square(q - a));
      MeanTimes(o, last);
      Distribute(|o| as real, Resolution(o, front), Times(Share(last, |o|), Square(q - a)));
      ResolutionStep(Times(|o| as real, Resolution(o, front)), SquaredMeans(o, front), a, OverBins(o, front),
                     |Flatten(front)| as real, |last| as real, q, Over(o, last));
    }
  }

  lemma NoBinsNothing()
    ensures Flatten([]) == []
  {
  }

  ghost predicate Binary(o: seq<real>) { forall i | 0 <= i < |o| :: o[i] == 0.0 || o[i] == 1.0 }

  lemma BinarySquares(o: seq<real>)
    requires Binary(o)
    ensures Squares(o) == o
  {
  }

  lemma FlattenSize(bins: seq<seq<nat>>, n: nat)
    requires Partition(bins, n)
    ensures |Flatten(bins)| == n
  {
    assert |multiset(Flatten(bins))| == |multiset(UpTo(n))|;
  }

  lemma MeanOfTotal(n: nat, err: real, within: real, rel: real, res: real, sq: real, so: real)
    requires n > 0
    requires err == within + Times(n as real, rel) + so - sq
    requires ResolutionLaw(Times(n as real, res), sq, Per(so, n), so, n as real)
    ensures Per(err, n) == rel - res + Times(Per(so, n), 1.0 - Per(so, n)) + Per(within, n)
  {
    var k, a := n as real, Per(so, n);
    PerTimes(so, n);
    assert a * (k * a) == k * (a * a);
    assert k * (a * (1.0 - a)) == k * a - k * (a * a);
    var x := rel - res + a * (1.0 - a);
    assert k * x == k * rel - k * res + k * (a * (1.0 - a));
    PerTimes(within, n);
    PerTimes(err, n);
    assert k * (x + Per(within, n)) == k * x + k * Per(within, n);
    CancelLeft(k, Per(err, n), x + Per(within, n));
  }

  /** Murphy's decomposition over any partition of the calls: the Brier score
      is reliability - resolution + uncertainty plus the mean unexplained
      within-bin part. */
  lemma MurphyIdentity(p: seq<real>, o: seq<real>, bins: seq<seq<nat>>)
    requires |p| == |o| > 0 && Partition(bins, |p|) && Binary(o)
    ensures BinsWithin(bins, |p|)
    ensures Brier(p, o) == Some(
              Reliability(p, o, bins) - Resolution(o, bins) + Uncertainty(o)
              + Per(WithinBins(p, o, bins), |p|))
  {
    hide Partition, OverBins, Reliability, Resolution, WithinBins, SquaredMeans, Flatten, Sum, Times, Per,
         ResolutionLaw, Squares, SquaredErrors;
    PartitionIsWithin(bins, |p|);
    OverPartition(SquaredErrors(p, o), bins);
    OverPartition(o, bins);
    BinarySquares(o);
    ErrorOverBins(p, o, bins);
    ResolutionOverBins(o, bins);
    FlattenSize(bins, |p|);
    MeanOfTotal(|p|, Sum(SquaredErrors(p, o)), WithinBins(p, o, bins), Reliability(p, o, bins),
                Resolution(o, bins), SquaredMeans(o, bins), Sum(o));
  }

  // ---- exact on the unique-value branch ----

  lemma {:induction false} ConstantBin(p: seq<real>, idx: seq<nat>, v: real)
    requires Indexes(idx, |p|) && forall i | 0 <= i < |idx| :: p[idx[i]] == v
    ensures Over(p, idx) == Times(|idx| as real, v)
    decreases |idx|
  {
    if idx != [] {
      ConstantBin(p, idx[1..], v);
      assert |idx| as real == |idx[1..]| as real + 1.0;
    }
  }

  lemma {:induction false} NothingWithin(p: seq<real>, o: seq<real>, idx: seq<nat>, v: real, ok: real)
    requires |p| == |o| && Indexes(idx, |p|) && forall i | 0 <= i < |idx| :: p[idx[i]] == v
    ensures Within(p, o, idx, v, ok) == 0.0
    decreases |idx|
  {
    if idx != [] { NothingWithin(p, o, idx[1..], v, ok); }
  }

  lemma {:induction false} WhereIsConstant(p: seq<real>, v: real, n: nat)
    requires n <= |p|
    ensures Indexes(Where(p, v, n), |p|) && forall i | 0 <= i < |Where(p, v, n)| :: p[Where(p, v, n)[i]] == v
  {
    if n > 0 { WhereIsConstant(p, v, n - 1); }
  }

  ghost predicate OneForecast(p: seq<real>, bin: seq<nat>) { exists v :: bin == Where(p, v, |p|) }

  ghost predicate OneForecastEach(p: seq<real>, bins: seq<seq<nat>>) {
    forall k | 0 <= k < |bins| :: OneForecast(p, bins[k])
  }

  lemma {:induction false} NothingWithinBins(p: seq<real>, o: seq<real>, bins: seq<seq<nat>>)
    requires |p| == |o| && BinsWithin(bins, |p|)
    requires OneForecastEach(p, bins)
    ensures WithinBins(p, o, bins) == 0.0
  {
    if bins != [] {
      var front, last := bins[..|bins| - 1], bins[|bins| - 1];
      NothingWithinBins(p, o, front);
      assert OneForecast(p, last);
      var v :| last == Where(p, v, |p|);
      WhereIsConstant(p, v, |p|);
      ConstantBin(p, last, v);
      PerTimes(Over(p, last), |last|);
      CancelLeft(|last| as real, MeanOver(p, last), v);
      NothingWithin(p, o, last, v, MeanOver(o, last));
    }
  }

  lemma CancelLeft(k: real, x: real, y: real)
    requires k > 0.0 && Times(k, x) == Times(k, y)
    ensures x == y
  {
    var d := x - y;
    assert k * d == 0.0;
    assert (d > 0.0 ==> k * d > 0.0) && (d < 0.0 ==> k * d < 0.0);
  }

  lemma PerZero(n: nat)
    requires n > 0
    ensures Per(0.0, n) == 0.0
  {
    PerTimes(0.0, n);
    TimesZero(n as real);
    CancelLeft(n as real, Per(0.0, n), 0.0);
  }

  lemma BinsHoldOneForecast(p: seq<real>)
    requires ByValue(p)
    ensures OneForecastEach(p, Bins(p))
  {
    hide Unique, BinsByValue, Where, BinCount;
    var vs := Unique(p);
    ByValueSize(p, vs);
    forall k | 0 <= k < |Bins(p)| ensures OneForecast(p, Bins(p)[k]) {
      ByValueBin(p, vs, k);
    }
  }

  /** With few distinct forecasts the decomposition is exact. */
  lemma ExactOnUniqueValues(p: seq<real>, o: seq<real>)
    requires |p| == |o| > 0 && Binary(o) && ByValue(p)
    ensures BinsWithin(Bins(p), |p|)
    ensures Brier(p, o) == Some(Reliability(p, o, Bins(p)) - Resolution(o, Bins(p)) + Uncertainty(o))
  {
    hide Bins, Partition, Reliability, Resolution, WithinBins, ByValue, Brier, OneForecastEach, Per;
    BinsPartition(p);
    MurphyIdentity(p, o, Bins(p));
    BinsHoldOneForecast(p);
    NothingWithinBins(p, o, Bins(p));
    PerZero(|p|);
  }

  // ---- the calibration error never exceeds the root of reliability ----

  /** Σ w (|gap| - c)² */
  function Spread(p: seq<real>, o: seq<real>, bins: seq<seq<nat>>, c: real): real
    requires |p| == |o| > 0 && BinsWithin(bins, |p|)
  {
    if bins == [] then 0.0
    else
      var last := bins[|bins| - 1];
      Spread(p, o, bins[..|bins| - 1], c)
      + Times(Share(last, |p|), Square(AbsDiff(MeanOver(p, last), MeanOver(o, last)) - c))
  }

  predicate SpreadLaw(spread: real, rel: real, c: real, ece: real, f: real) {
    spread >= 0.0 && spread == rel - 2.0 * Times(c, ece) + Times(f, Square(c))
  }

  lemma NothingSpreads(c: real)
    ensures SpreadLaw(0.0, 0.0, c, 0.0, 0.0)
  {
  }

  lemma SpreadStep(spread: real, rel: real, c: real, ece: real, f: real, w: real, d: real)
    requires SpreadLaw(spread, rel, c, ece, f) && w >= 0.0
    ensures SpreadLaw(spread + Times(w, Square(d - c)), rel + Times(w, Square(d)), c, ece + Times(w, d), f + w)
  {
    hide Times, Square;
    Expand(w, d, c);
    SquareNonNegative(w, d - c);
    Distribute(c, ece, Times(w, d));
    Collect(f, w, Square(c));
  }

  lemma SquareNonNegative(w: real, x: real)
    requires w >= 0.0
    ensures Times(w, Square(x)) >= 0.0
  {
    assert x * x >= 0.0;
  }

  lemma SquareOfDiff(x: real, y: real)
    ensures Square(AbsDiff(x, y)) == Square(x - y)
  {
  }

  lemma {:induction false} SpreadExpands(p: seq<real>, o: seq<real>, bins: seq<seq<nat>>, c: real)
    requires |p| == |o| > 0 && BinsWithin(bins, |p|)
    ensures SpreadLaw(Spread(p, o, bins, c), Reliability(p, o, bins), c, CalibrationError(p, o, bins),
                      Share(Flatten(bins), |p|))
  {
    hide Over, MeanOver, Square, Times, Share, Flatten, AbsDiff, SpreadLaw;
    if bins == [] {
      NoBinsNothing();
      NoShare(|p|);
      NothingSpreads(c);
    } else {
      var front, last := bins[..|bins| - 1], bins[|bins| - 1];
      SpreadExpands(p, o, front, c);
      assert bins == front + [last];
      FlattenSnoc(front, last);
      SharesAdd(Flatten(front), last, |p|);
      var m, q := MeanOver(p, last), MeanOver(o, last);
      SquareOfDiff(m, q);
      SpreadStep(Spread(p, o, front, c), Reliability(p, o, front), c, CalibrationError(p, o, front),
                 Share(Flatten(front), |p|), Share(last, |p|), AbsDiff(m, q));
    }
  }

  lemma NoShare(n: nat)
    requires n > 0
    ensures Share([], n) == 0.0
  {
    PerZero(n);
  }

  lemma NonNegativePer(x: real, n: nat)
    requires n > 0 && x >= 0.0
    ensures Per(x, n) >= 0.0
  {
  }

  lemma SharesAdd(a: seq<nat>, b: seq<nat>, n: nat)
    requires n > 0
    ensures Share(a + b, n) == Share(a, n) + Share(b, n)
    ensures Share(b, n) >= 0.0
  {
    PerTimes(|a + b| as real, n);
    PerTimes(|a| as real, n);
    PerTimes(|b| as real, n);
    Distribute(n as real, Share(a, n), Share(b, n));
    assert |a + b| as real == |a| as real + |b| as real;
    CancelLeft(n as real, Share(a + b, n), Share(a, n) + Share(b, n));
    NonNegativePer(|b| as real, n);
  }

  lemma AllShared(bins: seq<seq<nat>>, n: nat)
    requires n > 0 && |Flatten(bins)| == n
    ensures Share(Flatten(bins), n) == 1.0
  {
    PerTimes(n as real, n);
    CancelLeft(n as real, Per(n as real, n), 1.0);
  }

  lemma AtTheMean(spread: real, rel: real, e: real)
    requires SpreadLaw(spread, rel, e, e, 1.0)
    ensures Square(e) <= rel
  {
  }

  lemma EceIsBounded(p: seq<real>, o: seq<real>, bins: seq<seq<nat>>)
    requires |p| == |o| > 0 && Partition(bins, |p|)
    ensures BinsWithin(bins, |p|)
    ensures Square(CalibrationError(p, o, bins)) <= Reliability(p, o, bins)
  {
    hide CalibrationError, Reliability, Spread, Partition, Flatten, Share, SpreadLaw, Square;
    PartitionIsWithin(bins, |p|);
    FlattenSize(bins, |p|);
    AllShared(bins, |p|);
    var e := CalibrationError(p, o, bins);
    SpreadExpands(p, o, bins, e);
    AtTheMean(Spread(p, o, bins, e), Reliability(p, o, bins), e);
  }

  // ---- murphy_decomposition as written ----

  method MurphyDecomposition(p: seq<real>, o: seq<real>) returns (r: Decomposition)
    requires |p| == |o|
    ensures r.Undefined? <==> |p| < MIN_PER_BIN
    ensures r.Murphy? ==>
              && BinsWithin(Bins(p), |p|)
              && r == Murphy(Reliability(p, o, Bins(p)), Resolution(o, Bins(p)), Uncertainty(o),
                             CalibrationError(p, o, Bins(p)), |Bins(p)|)
    ensures r.Murphy? && Binary(o) && ByValue(p) ==>
              Brier(p, o) == Some(r.reliability - r.resolution + r.uncertainty)
    ensures r.Murphy? ==> Square(r.ece) <= r.reliability
  {
    hide Bins, Partition, Unique, BinCount, Over, Sum, Times, Square, Per, AbsDiff, ByValue;
    var n := |p|;
    if n < MIN_PER_BIN { return Undefined; }
    BinsPartition(p);
    PartitionIsWithin(Bins(p), n);
    var bins := Bins(p);
    var obar := Mean(o);
    var rel, res, ece := 0.0, 0.0, 0.0;
    for k := 0 to |bins|
      invariant BinsWithin(bins[..k], n)
      invariant rel == Reliability(p, o, bins[..k])
      invariant res == Resolution(o, bins[..k])
      invariant ece == CalibrationError(p, o, bins[..k])
    {
      assert bins[..k + 1][..k] == bins[..k];
      var pk, ok := MeanOver(p, bins[k]), MeanOver(o, bins[k]);
      var w := Share(bins[k], n);
      rel := rel + Times(w, Square(pk - ok));
      res := res + Times(w, Square(ok - obar));
      ece := ece + Times(w, AbsDiff(pk, ok));
    }
    assert bins[..|bins|] == bins;
    r := Murphy(rel, res, Times(obar, 1.0 - obar), ece, |bins|);
    EceIsBounded(p, o, bins);
    if Binary(o) && ByValue(p) { ExactOnUniqueValues(p, o); }
  }
}
