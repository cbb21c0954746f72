/** Python dicts, as lists of entries in insertion order. */
module Dicts {

  /** A Python dict: keys in insertion order, each once. */
  type Dict<V> = seq<(string, V)>

  function SetKey<V>(d: Dict<V>, k: string, v: V): Dict<V> {
    if d == [] then [(k, v)]
    else if d[0].0 == k then [(k, v)] + d[1..]
    else [d[0]] + SetKey(d[1..], k, v)
  }

  function Values<V>(d: Dict<V>): (r: seq<V>)
    ensures |r| == |d| && forall i | 0 <= i < |d| :: r[i] == d[i].1
  {
    seq(|d|, i requires 0 <= i < |d| => d[i].1)
  }

  function Get<V>(d: Dict<V>, k: string, missing: V): V {
    if d == [] then missing else if d[0].0 == k then d[0].1 else Get(d[1..], k, missing)
  }

  predicate Has<V>(d: Dict<V>, k: string) {
    d != [] && (d[0].0 == k || Has(d[1..], k))
  }

  ghost predicate OncePerKey<V>(d: Dict<V>) { forall i, j | 0 <= i < j < |d| :: d[i].0 != d[j].0 }

  lemma InTail<V>(d: Dict<V>, e: (string, V))
    requires d != [] && OncePerKey(d)
    ensures e in d <==> e == d[0] || e in d[1..]
    ensures e in d[1..] ==> e.0 != d[0].0
  {
    if e in d[1..] {
      var i :| 0 <= i < |d[1..]| && d[1..][i] == e;
      assert d[i + 1] == e;
    }
  }

  lemma {:induction false} SetKeyHas<V>(d: Dict<V>, k: string, v: V, e: (string, V))
    requires OncePerKey(d)
    ensures e in SetKey(d, k, v) <==> e == (k, v) || (e in d && e.0 != k)
  {
    if d != [] {
      InTail(d, e);
      if d[0].0 != k { SetKeyHas(d[1..], k, v, e); }
    }
  }

  lemma {:induction false} SetKeyKeeps<V>(d: Dict<V>, k: string, v: V)
    requires OncePerKey(d)
    ensures OncePerKey(SetKey(d, k, v)) && SetKey(d, k, v) != []
  {
    if d != [] && d[0].0 != k {
      SetKeyKeeps(d[1..], k, v);
      var r := SetKey(d[1..], k, v);
      forall j | 0 <= j < |r| ensures r[j].0 != d[0].0 {
        var e := r[j];
        SetKeyHas(d[1..], k, v, e);
        InTail(d, e);
      }
    }
  }

  lemma {:induction false} SetKeyFresh<V>(d: Dict<V>, k: string, v: V)
    requires forall i | 0 <= i < |d| :: d[i].0 != k
    ensures SetKey(d, k, v) == d + [(k, v)]
  {
    if d != [] {
      SetKeyFresh(d[1..], k, v);
      assert d == [d[0]] + d[1..];
    }
  }

  lemma {:induction false} GetSetKey<V>(d: Dict<V>, k: string, v: V, j: string, missing: V)
    ensures Get(SetKey(d, k, v), j, missing) == if j == k then v else Get(d, j, missing)
    ensures Has(SetKey(d, k, v), j) == (j == k || Has(d, j))
  {
    if d != [] && d[0].0 != k { GetSetKey(d[1..], k, v, j, missing); }
  }

  lemma {:induction false} HasIff<V>(d: Dict<V>, k: string)
    ensures Has(d, k) <==> exists i :: 0 <= i < |d| && d[i].0 == k
  {
    if d != [] {
      HasIff(d[1..], k);
      if Has(d[1..], k) {
        var i :| 0 <= i < |d[1..]| && d[1..][i].0 == k;
        assert d[i + 1].0 == k;
      }
      forall i | 0 <= i < |d| && d[i].0 == k ensures Has(d, k) {
        if i > 0 { assert d[1..][i - 1].0 == k; }
      }
    }
  }
}
