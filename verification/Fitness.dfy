// The fitness score of backend/workflow_dna, over the reals: always in
// [0, 100], and never improved by an abort, a resume, a second or a dollar.
module Fitness {

  datatype Stats = Stats(logTimeMin: real, logTimeMax: real, costMin: real, costMax: real)

  /** The counts and totals of one execution. */
  datatype Run = Run(aborts: nat, starts: int, resumes: nat, seconds: real, cost: real)

  function Max(a: real, b: real): real { if a >= b then a else b }
  function Min(a: real, b: real): real { if a <= b then a else b }

  /** Scale into [0, 1] and clip; 0.5 for a range without width. */
  function MinMax(value: real, lo: real, hi: real): (r: real)
    ensures 0.0 <= r <= 1.0
  {
    if hi <= lo then 0.5 else Max(0.0, Min(1.0, (value - lo) / (hi - lo)))
  }

  function Quality(aborts: nat, starts: int): (r: real)
    ensures 0.0 <= r <= 1.0
  {
    var attempts := if starts >= 1 then starts else 1;
    RatioIsPositive(aborts as real, attempts as real);
    Max(0.0, 1.0 - aborts as real / attempts as real)
  }

  function Speed(seconds: real, s: Stats, log1p: real -> real): (r: real)
    ensures 0.0 <= r <= 1.0
  {
    1.0 - MinMax(log1p(Max(seconds, 0.0)), s.logTimeMin, s.logTimeMax)
  }

  function Cost(cost: real, s: Stats): (r: real)
    ensures 0.0 <= r <= 1.0
  {
    1.0 - MinMax(cost, s.costMin, s.costMax)
  }

  function Reliability(aborts: nat, resumes: nat): (r: real)
    ensures 0.0 <= r <= 1.0
  {
    Max(0.0, 1.0 - (aborts + resumes) as real / 5.0)
  }

  /** 40% quality, 30% speed, 20% cost, 10% reliability. */
  function Weighted(r: Run, s: Stats, log1p: real -> real): (w: real)
    ensures 0.0 <= w <= 1.0
  {
    0.40 * Quality(r.aborts, r.starts) + 0.30 * Speed(r.seconds, s, log1p)
    + 0.20 * Cost(r.cost, s) + 0.10 * Reliability(r.aborts, r.resumes)
  }

  function ComputeFitness(r: Run, s: Stats, log1p: real -> real, round: real -> real): real {
    round(Weighted(r, s, log1p) * 100.0)
  }

  /** The range record_actual_execution picks for each execution anew. */
  function OwnStats(cost: real): Stats {
    Stats(0.0, 20.0, 0.0, Max(cost, 250000.0))
  }

  function RecordedFitness(r: Run, log1p: real -> real, round: real -> real): real {
    ComputeFitness(r, OwnStats(r.cost), log1p, round)
  }

  ghost predicate Rising(f: real -> real) {
    forall x, y | x <= y :: f(x) <= f(y)
  }

  lemma RatioIsPositive(a: real, b: real)
    requires a >= 0.0 && b > 0.0
    ensures a / b >= 0.0
  {
  }

  lemma ProductIsNegative(d: real, b: real)
    requires d < 0.0 && b > 0.0
    ensures d * b < 0.0
  {
  }

  lemma DivisionRises(a: real, a': real, b: real)
    requires a <= a' && b > 0.0
    ensures a / b <= a' / b
  {
    var q, q' := a / b, a' / b;
    assert q * b == a && q' * b == a';
    assert (q' - q) * b == a' - a;
    if q' < q { ProductIsNegative(q' - q, b); }
  }

  lemma RatioGrows(a: real, a': real, b: real, b': real)
    requires 0.0 <= a <= a' && 0.0 < b' <= b
    ensures a / b <= a' / b'
  {
    DivisionRises(a, a', b);
    assert a' / b <= a' / b' by { assert (a' / b) * b == a' && (a' / b') * b' == a'; RatioIsPositive(a', b); }
  }

  lemma MinMaxRises(v: real, v': real, lo: real, hi: real)
    requires v <= v'
    ensures MinMax(v, lo, hi) <= MinMax(v', lo, hi)
  {
    if hi > lo { DivisionRises(v - lo, v' - lo, hi - lo); }
  }

  /** A dearer execution stretches its own range, and still does not score better. */
  lemma OwnCostFalls(cost: real, cost': real)
    requires cost <= cost'
    ensures Cost(cost', OwnStats(cost')) <= Cost(cost, OwnStats(cost))
  {
    var hi, hi' := Max(cost, 250000.0), Max(cost', 250000.0);
    if cost' <= 250000.0 {
      MinMaxRises(cost, cost', 0.0, 250000.0);
    } else {
      assert (cost' - 0.0) / (hi' - 0.0) == 1.0;
    }
  }

  /** The recorded score lies in [0, 100]. */
  lemma FitnessInRange(r: Run, log1p: real -> real, round: real -> real)
    requires Rising(round) && round(0.0) == 0.0 && round(100.0) == 100.0
    ensures 0.0 <= RecordedFitness(r, log1p, round) <= 100.0
  {
    var w := Weighted(r, OwnStats(r.cost), log1p);
    assert round(0.0) <= round(w * 100.0) <= round(100.0);
  }

  /** `r'` is no better than `r` in any respect the score looks at. */
  predicate NoBetter(r': Run, r: Run) {
    r.aborts <= r'.aborts && r'.starts <= r.starts && r.resumes <= r'.resumes && r.seconds <= r'.seconds && r.cost <= r'.cost
  }

  /** More aborts or resumes, fewer starts, longer time or higher cost never raise the recorded score. */
  lemma FitnessFalls(r: Run, r': Run, log1p: real -> real, round: real -> real)
    requires Rising(log1p) && Rising(round) && NoBetter(r', r)
    ensures RecordedFitness(r', log1p, round) <= RecordedFitness(r, log1p, round)
  {
    var n, n' := if r.starts >= 1 then r.starts else 1, if r'.starts >= 1 then r'.starts else 1;
    RatioGrows(r.aborts as real, r'.aborts as real, n as real, n' as real);
    RatioGrows((r.aborts + r.resumes) as real, (r'.aborts + r'.resumes) as real, 5.0, 5.0);
    assert log1p(Max(r.seconds, 0.0)) <= log1p(Max(r'.seconds, 0.0));
    MinMaxRises(log1p(Max(r.seconds, 0.0)), log1p(Max(r'.seconds, 0.0)), 0.0, 20.0);
    OwnCostFalls(r.cost, r'.cost);
    var w, w' := Weighted(r, OwnStats(r.cost), log1p), Weighted(r', OwnStats(r'.cost), log1p);
    assert w' <= w;
    assert round(w' * 100.0) <= round(w * 100.0);
  }

  /** What each part is worth: the score of a flawless run, and of one that loses one part entirely. */
  lemma FitnessParts(log1p: real -> real, round: real -> real, slow: real)
    requires log1p(0.0) == 0.0 && log1p(slow) == 20.0 && slow >= 0.0
    ensures RecordedFitness(Run(0, 1, 0, 0.0, 0.0), log1p, round) == round(100.0)
    ensures RecordedFitness(Run(0, 1, 5, 0.0, 0.0), log1p, round) == round(90.0)
    ensures RecordedFitness(Run(0, 1, 0, 0.0, 250000.0), log1p, round) == round(80.0)
    ensures RecordedFitness(Run(0, 1, 0, slow, 0.0), log1p, round) == round(70.0)
    ensures RecordedFitness(Run(5, 5, 0, 0.0, 0.0), log1p, round) == round(50.0)
  {
    assert MinMax(0.0, 0.0, 20.0) == 0.0 && MinMax(20.0, 0.0, 20.0) == 1.0;
    assert Cost(0.0, OwnStats(0.0)) == 1.0 && Cost(250000.0, OwnStats(250000.0)) == 0.0;
    assert Quality(0, 1) == 1.0 && Quality(5, 5) == 0.0;
    assert Reliability(0, 0) == 1.0 && Reliability(0, 5) == 0.0 && Reliability(5, 0) == 0.0;
  }
}
