/** The PM's signal weights: floored, normalised skill, in exact reals. */
module PmWeights {
  import opened Records
  import opened Scoring
  import opened Dicts

  /** `skill` is bss_shrunk; None when it is not finite. */
  datatype Score = Score(seat: string, graded: int, skill: Option<real>)

  function MaxReal(a: real, b: real): real { if a >= b then a else b }

  /** A track record too short to trust has no value of its own. */
  function Clipped(s: Score, minGraded: int): Option<real> {
    if s.graded < minGraded || s.skill.None? then None else Some(MaxReal(s.skill.value, 0.0))
  }

  function Raw(scores: seq<Score>, minGraded: int): Dict<Option<real>> {
    if scores == [] then []
    else
      var last := scores[|scores| - 1];
      SetKey(Raw(scores[..|scores| - 1], minGraded), last.seat, Clipped(last, minGraded))
  }

  function Known(vs: seq<Option<real>>): seq<real> {
    if vs == [] then []
    else
      var last := vs[|vs| - 1];
      Known(vs[..|vs| - 1]) + if last.Some? then [last.value] else []
  }

  function MeanKnown(vs: seq<Option<real>>): real {
    if Known(vs) == [] then 1.0 else Mean(Known(vs))
  }

  /** Seats without a value of their own get m. */
  function Fill(vs: seq<Option<real>>, m: real): (r: seq<real>)
    ensures |r| == |vs| && forall i | 0 <= i < |vs| :: r[i] == if vs[i].Some? then vs[i].value else m
  {
    seq(|vs|, i requires 0 <= i < |vs| => if vs[i].Some? then vs[i].value else m)
  }

  function Filled(vs: seq<Option<real>>): (r: seq<real>)
    ensures |r| == |vs|
  {
    Fill(vs, MeanKnown(vs))
  }

  function Raise(vs: seq<real>, floor: real): (r: seq<real>)
    ensures |r| == |vs| && forall i | 0 <= i < |vs| :: r[i] == MaxReal(vs[i], floor)
  {
    seq(|vs|, i requires 0 <= i < |vs| => MaxReal(vs[i], floor))
  }

  function Floored(vs: seq<Option<real>>, fraction: real): (r: seq<real>)
    requires vs != []
    ensures |r| == |vs|
  {
    Raise(Filled(vs), Times(fraction, Mean(Filled(vs))))
  }

  function Normalise(vs: seq<real>): (r: seq<real>)
    requires vs != []
    ensures |r| == |vs|
  {
    var total := Sum(vs);
    seq(|vs|, i requires 0 <= i < |vs| => if total <= 0.0 then Per(1.0, |vs|) else vs[i] / total)
  }

  function Weigh(vs: seq<Option<real>>, fraction: real): (r: seq<real>)
    requires vs != []
    ensures |r| == |vs|
  {
    Normalise(Floored(vs, fraction))
  }

  function Zip(d: Dict<Option<real>>, ws: seq<real>): (r: Dict<real>)
    requires |d| == |ws|
    ensures |r| == |d| && forall i | 0 <= i < |d| :: r[i] == (d[i].0, ws[i])
  {
    seq(|d|, i requires 0 <= i < |d| => (d[i].0, ws[i]))
  }

  /** pm_weights as a function of the scores. */
  function WeightsOf(scores: seq<Score>, fraction: real, minGraded: int): Dict<real> {
    var raw := Raw(scores, minGraded);
    if raw == [] then [] else Zip(raw, Weigh(Values(raw), fraction))
  }

  /** pm_weights as written: one loop fills the dict, the rest are expressions. */
  method PmWeightsMethod(scores: seq<Score>, fraction: real, minGraded: int) returns (w: Dict<real>)
    ensures w == WeightsOf(scores, fraction, minGraded)
  {
    if scores == [] { return []; }
    var raw: Dict<Option<real>> := [];
    for i := 0 to |scores|
      invariant raw == Raw(scores[..i], minGraded)
    {
      assert scores[..i + 1][..i] == scores[..i];
      if scores[i].graded < minGraded || scores[i].skill.None? {
        raw := SetKey(raw, scores[i].seat, None);
      } else {
        raw := SetKey(raw, scores[i].seat, Some(MaxReal(scores[i].skill.value, 0.0)));
      }
    }
    assert scores[..|scores|] == scores;
    w := if raw == [] then [] else Zip(raw, Weigh(Values(raw), fraction));
  }

  // ---- the dict: one entry a seat, the last score deciding ----

  function LastScore(scores: seq<Score>, seat: string): Option<Score> {
    if scores == [] then None
    else if scores[|scores| - 1].seat == seat then Some(scores[|scores| - 1])
    else LastScore(scores[..|scores| - 1], seat)
  }

  /** Each seat appears once, with what its last score is worth. */
  lemma {:induction false} RawIsLastScore(scores: seq<Score>, minGraded: int)
    ensures OncePerKey(Raw(scores, minGraded)) && (Raw(scores, minGraded) == [] <==> scores == [])
    ensures forall e :: e in Raw(scores, minGraded) <==>
              LastScore(scores, e.0).Some? && e.1 == Clipped(LastScore(scores, e.0).value, minGraded)
  {
    if scores != [] {
      var front, last := scores[..|scores| - 1], scores[|scores| - 1];
      RawIsLastScore(front, minGraded);
      SetKeyKeeps(Raw(front, minGraded), last.seat, Clipped(last, minGraded));
      forall e: (string, Option<real>)
        ensures e in Raw(scores, minGraded) <==>
                LastScore(scores, e.0).Some? && e.1 == Clipped(LastScore(scores, e.0).value, minGraded)
      {
        SetKeyHas(Raw(front, minGraded), last.seat, Clipped(last, minGraded), e);
      }
    }
  }

  ghost predicate NonNegative(vs: seq<Option<real>>) {
    forall i | 0 <= i < |vs| && vs[i].Some? :: vs[i].value >= 0.0
  }

  lemma RawIsNonNegative(scores: seq<Score>, minGraded: int)
    ensures NonNegative(Values(Raw(scores, minGraded)))
  {
    var raw := Raw(scores, minGraded);
    RawIsLastScore(scores, minGraded);
    forall i | 0 <= i < |raw| && raw[i].1.Some? ensures raw[i].1.value >= 0.0 { assert raw[i] in raw; }
  }
}
