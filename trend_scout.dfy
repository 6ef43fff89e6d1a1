/** The Viral Velocity Score of app/agents/trend_scout.py (`_calculate_vvs`):
    an average engagement over raw platform signals, mapped to a 0-10 scale
    and classified. */
module TrendScout {
  import opened Common

  /** One raw signal; each metric may be missing from the record. */
  datatype Signal = Signal(engagement: Option<real>, likes: Option<real>, views: Option<real>)

  datatype Acceleration = Stagnant | Rising | Peaking

  datatype ViralVelocity = ViralVelocity(score: real, acceleration: Acceleration, engagementRate: real)

  /** `s.get(key, 0)` */
  function MetricOrZero(m: Option<real>): real
  {
    if m.Some? then m.value else 0.0
  }

  /** The engagement weight of one signal: engagement, plus likes over 10,
      plus views over 1000, missing metrics counting as 0. */
  function SignalWeight(s: Signal): real
  {
    MetricOrZero(s.engagement) + MetricOrZero(s.likes) / 10.0 + MetricOrZero(s.views) / 1000.0
  }

  /** The accumulated engagement of the signals, in list order. */
  function TotalEngagement(signals: seq<Signal>): real
  {
    if signals == [] then 0.0
    else TotalEngagement(signals[..|signals| - 1]) + SignalWeight(signals[|signals| - 1])
  }

  /** `min(avg / 100, 10.0)` */
  function RawScore(avgEngagement: real): (score: real)
    ensures score <= 10.0
    ensures avgEngagement >= 0.0 ==> score >= 0.0
    ensures score == 10.0 || score == avgEngagement / 100.0
  {
    if avgEngagement / 100.0 < 10.0 then avgEngagement / 100.0 else 10.0
  }

  /** The acceleration label of an (unrounded) score. */
  function Classify(score: real): (a: Acceleration)
    ensures a == Peaking <==> score > 7.0
    ensures a == Rising <==> 3.0 < score <= 7.0
    ensures a == Stagnant <==> score <= 3.0
  {
    if score > 7.0 then Peaking else if score > 3.0 then Rising else Stagnant
  }

  /** What `_calculate_vvs` returns. `round2` stands for `round(x, 2)`; it is
      applied to the returned score and rate only. */
  function Vvs(signals: seq<Signal>, round2: real -> real): (v: ViralVelocity)
    ensures signals == [] ==> v == ViralVelocity(0.0, Stagnant, 0.0)
  {
    if signals == [] then ViralVelocity(0.0, Stagnant, 0.0)
    else
      var avg := TotalEngagement(signals) / (|signals| as real);
      var score := RawScore(avg);
      ViralVelocity(round2(score), Classify(score), round2(avg))
  }

  /** `_calculate_vvs`. */
  method CalculateVvs(signals: seq<Signal>, round2: real -> real) returns (v: ViralVelocity)
    ensures v == Vvs(signals, round2)
    ensures signals != [] ==>
              var avg := TotalEngagement(signals) / (|signals| as real);
              && v.engagementRate == round2(avg)
              && v.score == round2(RawScore(avg))
              && v.acceleration == Classify(RawScore(avg))
  {
    if |signals| == 0 {
      return ViralVelocity(0.0, Stagnant, 0.0);
    }
    var total := 0.0;
    var i := 0;
    while i < |signals|
      invariant 0 <= i <= |signals|
      invariant total == TotalEngagement(signals[..i])
    {
      var s := signals[i];
      total := total + MetricOrZero(s.engagement);
      total := total + MetricOrZero(s.likes) / 10.0;
      total := total + MetricOrZero(s.views) / 1000.0;
      assert signals[..i + 1][..i] == signals[..i];
      i := i + 1;
    }
    assert signals[..i] == signals;
    var avg := total / (|signals| as real);
    var acceleration := Stagnant;
    var score := RawScore(avg);
    if score > 7.0 {
      acceleration := Peaking;
    } else if score > 3.0 {
      acceleration := Rising;
    }
    v := ViralVelocity(round2(score), acceleration, round2(avg));
  }

  predicate NonNegativeMetrics(s: Signal)
  {
    MetricOrZero(s.engagement) >= 0.0 && MetricOrZero(s.likes) >= 0.0 && MetricOrZero(s.views) >= 0.0
  }

  /** Signals with non-negative metrics accumulate a non-negative total. */
  lemma {:induction false} TotalEngagementNonNegative(signals: seq<Signal>)
    requires forall i :: 0 <= i < |signals| ==> NonNegativeMetrics(signals[i])
    ensures TotalEngagement(signals) >= 0.0
    decreases |signals|
  {
    if signals != [] {
      TotalEngagementNonNegative(signals[..|signals| - 1]);
      assert NonNegativeMetrics(signals[|signals| - 1]);
    }
  }

  /** The total is the sum of the weights whatever the split point. */
  lemma {:induction false} TotalEngagementAppend(a: seq<Signal>, b: seq<Signal>)
    ensures TotalEngagement(a + b) == TotalEngagement(a) + TotalEngagement(b)
    decreases |b|
  {
    if b == [] {
      assert a + b == a;
    } else {
      TotalEngagementAppend(a, b[..|b| - 1]);
      assert (a + b)[..|a + b| - 1] == a + b[..|b| - 1];
    }
  }

  /** The unrounded score lies in [0, 10] for non-negative signals, and its
      classification is the one reported. */
  lemma ScoreBounds(signals: seq<Signal>, round2: real -> real)
    requires signals != []
    requires forall i :: 0 <= i < |signals| ==> NonNegativeMetrics(signals[i])
    ensures var avg := TotalEngagement(signals) / (|signals| as real);
            && 0.0 <= RawScore(avg) <= 10.0
            && avg >= 0.0
            && Vvs(signals, round2).acceleration == Classify(RawScore(avg))
            && Vvs(signals, round2).score == round2(RawScore(avg))
  {
    TotalEngagementNonNegative(signals);
  }

  /** Classification reads the unrounded score: one signal of engagement
      700.4 averages to a score of 7.004, which is reported as 7.0 by a
      two-place rounding yet classified Peaking. */
  lemma ClassifiesUnroundedScore(round2: real -> real)
    requires round2(7.004) == 7.0
    ensures var v := Vvs([Signal(Some(700.4), None, None)], round2);
            v.score == 7.0 && v.acceleration == Peaking && Classify(v.score) == Rising
  {
    var signals := [Signal(Some(700.4), None, None)];
    assert signals[..0] == [];
    assert TotalEngagement(signals) == 700.4;
  }
}
