/** Smoothing raw probe samples into a path's quality, and naming what the smoothed value means. */
module Quality {
  import opened Common

  /** A measured round trip. Averages are exact reals: floating-point rounding is not modelled. */
  type Rtt = r: real | r >= 0.0 witness 0.0

  function Abs(x: real): Rtt { if x >= 0.0 then x else -x }

  function Max(x: real, y: real): real { if x >= y then x else y }

  // ------------------------------------------------------------------ round-trip estimators

  /** The estimators of section 2 of RFC 6298, shared by paths and endpoints. */
  datatype Estimate = Estimate(srtt: Option<Rtt>, rttvar: Option<Rtt>) {
    function Update(sample: Rtt): Estimate {
      match srtt
      case None => Estimate(Some(sample), Some(sample / 2.0))
      case Some(s) =>
        var v: Rtt := if rttvar.Some? then rttvar.value else 0.0;
        Estimate(Some(0.875 * s + 0.125 * sample), Some(0.75 * v + 0.25 * Abs(s - sample)))
    }
  }

  const NO_ESTIMATE := Estimate(None, None)

  function EstimateOf(samples: seq<Rtt>): Estimate {
    if samples == [] then NO_ESTIMATE
    else EstimateOf(samples[..|samples| - 1]).Update(samples[|samples| - 1])
  }

  /** SRTT never leaves the range of the samples; RTTVAR never exceeds half the first sample or the
      spread of the samples, whichever is larger. Both exist exactly when there was a sample. */
  lemma {:induction false} EstimateBounds(samples: seq<Rtt>, lo: Rtt, hi: Rtt)
    requires forall i :: 0 <= i < |samples| ==> lo <= samples[i] <= hi
    ensures EstimateOf(samples).srtt.Some? <==> samples != []
    ensures EstimateOf(samples).rttvar.Some? <==> samples != []
    ensures samples != [] ==>
              && lo <= EstimateOf(samples).srtt.value <= hi
              && EstimateOf(samples).rttvar.value <= Max(samples[0] / 2.0, hi - lo)
  {
    if samples != [] {
      EstimateBounds(samples[..|samples| - 1], lo, hi);
    }
  }

  // ------------------------------------------------------------------ path quality

  datatype Sample = Answered(rtt: Rtt) | Lost

  datatype Band = Unusable | Poor | Good {
    function Rank(): nat {
      match this case Unusable => 0 case Poor => 1 case Good => 2
    }
    predicate Below(other: Band) { Rank() < other.Rank() }
  }

  datatype Thresholds = Thresholds(poorLoss: real, unusableLoss: real, poorRtt: Rtt)

  /** 15% loss is poor, 50% unusable, 300 ms is slow. */
  const DEFAULT_THRESHOLDS := Thresholds(0.15, 0.50, 300_000_000.0)

  function Clamp01(x: real): real { if x < 0.0 then 0.0 else if x > 1.0 then 1.0 else x }

  datatype PathQuality = PathQuality(loss: real, rtt: Option<Rtt>, jitter: Option<Rtt>) {
    function Observe(sample: Sample): PathQuality {
      var loss' := Clamp01(0.125 * (if sample.Lost? then 1.0 else 0.0) + 0.875 * loss);
      match sample
      case Lost => PathQuality(loss', rtt, jitter)
      case Answered(r) =>
        var e := Estimate(rtt, jitter).Update(r);
        PathQuality(loss', e.srtt, e.rttvar)
    }

    predicate IsMeasured() { rtt.Some? || loss > 0.0 }

    function BandOf(th: Thresholds): Band {
      if loss >= th.unusableLoss then Unusable
      else if loss >= th.poorLoss || (rtt.Some? && rtt.value >= th.poorRtt) then Poor
      else Good
    }
  }

  const UNMEASURED := PathQuality(0.0, None, None)

  /** Folding samples into a quality, oldest first. */
  function Fold(q: PathQuality, samples: seq<Sample>): PathQuality {
    if samples == [] then q
    else Fold(q, samples[..|samples| - 1]).Observe(samples[|samples| - 1])
  }

  function Losses(samples: seq<Sample>): nat {
    if samples == [] then 0
    else Losses(samples[..|samples| - 1]) + if samples[|samples| - 1].Lost? then 1 else 0
  }

  function Answers(samples: seq<Sample>): seq<Rtt> {
    if samples == [] then []
    else
      var last := samples[|samples| - 1];
      Answers(samples[..|samples| - 1]) + if last.Answered? then [last.rtt] else []
  }

  /** (7/8)^k: what is left of an average after k samples of the opposite kind. */
  function Kept(k: nat): (r: real)
    ensures 0.0 < r <= 1.0
  {
    if k == 0 then 1.0 else 0.875 * Kept(k - 1)
  }

  lemma {:induction false} KeptAntitone(j: nat, k: nat)
    requires j <= k
    ensures Kept(k) <= Kept(j)
    decreases k
  {
    if j < k {
      KeptAntitone(j, k - 1);
    }
  }

  /** The smoothed loss is a fraction, and however answers and losses are mixed it never exceeds what
      the same number of losses in a row would give. */
  lemma {:induction false} LossBounds(samples: seq<Sample>)
    ensures 0.0 <= Fold(UNMEASURED, samples).loss <= 1.0 - Kept(Losses(samples)) <= 1.0
  {
    if samples != [] {
      LossBounds(samples[..|samples| - 1]);
    }
  }

  /** A run of losses from any fraction closes 1/8 of the gap to 1 each time, exactly. */
  lemma {:induction false} LossesInARow(q: PathQuality, samples: seq<Sample>)
    requires 0.0 <= q.loss <= 1.0
    requires forall i :: 0 <= i < |samples| ==> samples[i].Lost?
    ensures 1.0 - Fold(q, samples).loss == Kept(|samples|) * (1.0 - q.loss)
  {
    if samples != [] {
      LossesInARow(q, samples[..|samples| - 1]);
      var before := Fold(q, samples[..|samples| - 1]).loss;
      var kept := Kept(|samples| - 1);
      assert 1.0 - before == kept * (1.0 - q.loss);
      assert 0.0 <= kept * (1.0 - q.loss) <= 1.0;
      assert 0.875 * kept * (1.0 - q.loss) == 0.875 * (kept * (1.0 - q.loss));
    }
  }

  lemma KeptCrossesHalf()
    ensures Kept(5) > 0.5 > Kept(6)
  {
    assert Kept(1) == 0.875;
    assert Kept(2) == 0.765625;
    assert Kept(3) == 0.669921875;
    assert Kept(4) == 0.586181640625;
    assert Kept(5) == 0.512908935546875;
  }

  /** Under the default thresholds a path reads `Unusable` only after at least six losses in total,
      wherever the answers fall. */
  lemma UnusableNeedsSixLosses(samples: seq<Sample>)
    requires Fold(UNMEASURED, samples).BandOf(DEFAULT_THRESHOLDS).Unusable?
    ensures Losses(samples) >= 6
  {
    LossBounds(samples);
    if Losses(samples) <= 5 {
      KeptCrossesHalf();
      KeptAntitone(Losses(samples), 5);
    }
  }

  /** And six losses in a row are enough, whatever was measured before: six is exactly the price. */
  lemma SixLossesInARowSuffice(q: PathQuality, six: seq<Sample>)
    requires 0.0 <= q.loss <= 1.0
    requires |six| == 6 && forall i :: 0 <= i < 6 ==> six[i].Lost?
    ensures Fold(q, six).BandOf(DEFAULT_THRESHOLDS).Unusable?
  {
    LossesInARow(q, six);
    KeptCrossesHalf();
    var kept, gap := Kept(6), 1.0 - q.loss;
    assert 1.0 - Fold(q, six).loss == kept * gap;
    assert kept * gap <= kept;
  }

  /** "Measured" means exactly that some sample was folded in, and the round-trip estimate is the
      RFC 6298 estimate over the answered samples alone: a loss leaves it untouched. */
  lemma {:induction false} MeasuredMeansSampled(samples: seq<Sample>)
    ensures Fold(UNMEASURED, samples).IsMeasured() <==> samples != []
    ensures Estimate(Fold(UNMEASURED, samples).rtt, Fold(UNMEASURED, samples).jitter) == EstimateOf(Answers(samples))
  {
    if samples != [] {
      var init := samples[..|samples| - 1];
      MeasuredMeansSampled(init);
      LossBounds(init);
      if samples[|samples| - 1].Answered? {
        assert Answers(samples)[..|Answers(samples)| - 1] == Answers(init);
      } else {
        assert Answers(samples) == Answers(init);
      }
    }
  }

  // ------------------------------------------------------------------ the averages, exactly

  /** What the sample at place `i` of `n` weighs in the average: an eighth when it is the last, and 7/8 of that
      for each sample since. */
  function Weight(n: nat, i: nat): real
    requires i < n
  {
    Kept(n - 1 - i) / 8.0
  }

  /** The weights of the losses among the first `k` samples. */
  function WeightOfLosses(samples: seq<Sample>, k: nat): real
    requires k <= |samples|
  {
    if k == 0 then 0.0
    else WeightOfLosses(samples, k - 1) + if samples[k - 1].Lost? then Weight(|samples|, k - 1) else 0.0
  }

  lemma {:induction false} WeightsFade(samples: seq<Sample>, last: Sample, k: nat)
    requires k <= |samples|
    ensures WeightOfLosses(samples + [last], k) == 0.875 * WeightOfLosses(samples, k)
  {
    if k > 0 {
      WeightsFade(samples, last, k - 1);
      assert Kept(|samples| - (k - 1)) == 0.875 * Kept(|samples| - 1 - (k - 1));
    }
  }

  /** The loss is exactly what is left of the loss before, and the weights of the losses since. */
  lemma {:induction false} LossIsWeighted(q: PathQuality, samples: seq<Sample>)
    requires 0.0 <= q.loss <= 1.0
    ensures Fold(q, samples).loss == Kept(|samples|) * q.loss + WeightOfLosses(samples, |samples|)
    ensures 0.0 <= Fold(q, samples).loss <= 1.0
  {
    if samples != [] {
      var n := |samples| - 1;
      var init, last := samples[..n], samples[n];
      LossIsWeighted(q, init);
      WeightsFade(init, last, n);
      assert samples == init + [last];
      assert Kept(n + 1) * q.loss == 0.875 * (Kept(n) * q.loss);
    }
  }

  lemma {:induction false} NoLossesWeighNothing(samples: seq<Sample>, k: nat)
    requires k <= |samples| && forall i :: 0 <= i < |samples| ==> samples[i].Answered?
    ensures WeightOfLosses(samples, k) == 0.0
  {
    if k > 0 {
      NoLossesWeighNothing(samples, k - 1);
    }
  }

  /** A run of answers from any fraction takes 1/8 of the loss away each time, exactly. */
  lemma AnswersInARow(q: PathQuality, samples: seq<Sample>)
    requires 0.0 <= q.loss <= 1.0
    requires forall i :: 0 <= i < |samples| ==> samples[i].Answered?
    ensures Fold(q, samples).loss == Kept(|samples|) * q.loss
  {
    LossIsWeighted(q, samples);
    NoLossesWeighNothing(samples, |samples|);
  }

  lemma KeptCrossesPoor()
    ensures Kept(14) > 0.15 > Kept(15)
  {
    KeptCrossesHalf();
    assert Kept(6) == 0.448795318603515625;
    assert Kept(7) == 0.875 * Kept(6);
    assert Kept(8) == 0.875 * Kept(7);
    assert Kept(9) == 0.875 * Kept(8);
    assert Kept(10) == 0.875 * Kept(9);
    assert Kept(11) == 0.875 * Kept(10);
    assert Kept(12) == 0.875 * Kept(11);
    assert Kept(13) == 0.875 * Kept(12);
    assert Kept(14) == 0.875 * Kept(13);
    assert Kept(15) == 0.875 * Kept(14);
  }

  /** Under the default thresholds a path leaves `Unusable` after at most six answers in a row, and its loss no
      longer makes it poor after at most fifteen, whatever it was before. From a loss of 1, five and fourteen
      are not enough. */
  lemma AnswersHeal(q: PathQuality, samples: seq<Sample>)
    requires 0.0 <= q.loss <= 1.0
    requires forall i :: 0 <= i < |samples| ==> samples[i].Answered?
    ensures |samples| >= 6 ==> !Fold(q, samples).BandOf(DEFAULT_THRESHOLDS).Unusable?
    ensures |samples| >= 15 ==> Fold(q, samples).loss < DEFAULT_THRESHOLDS.poorLoss
    ensures q.loss == 1.0 && |samples| <= 5 ==> Fold(q, samples).BandOf(DEFAULT_THRESHOLDS).Unusable?
    ensures q.loss == 1.0 && |samples| <= 14 ==> !Fold(q, samples).BandOf(DEFAULT_THRESHOLDS).Good?
  {
    var k := |samples|;
    AnswersInARow(q, samples);
    KeptCrossesHalf();
    KeptCrossesPoor();
    if k >= 6 { KeptAntitone(6, k); }
    if k >= 15 { KeptAntitone(15, k); }
    if k <= 5 { KeptAntitone(k, 5); }
    if k <= 14 { KeptAntitone(k, 14); }
    assert Kept(k) * q.loss <= Kept(k);
  }

  /** Losses alone, on a new path under the default thresholds: one is nothing, two to five make it poor, and
      from the sixth on it is unusable. */
  lemma BandAfterLosses(samples: seq<Sample>)
    requires forall i :: 0 <= i < |samples| ==> samples[i].Lost?
    ensures Fold(UNMEASURED, samples).BandOf(DEFAULT_THRESHOLDS)
            == if |samples| <= 1 then Good else if |samples| <= 5 then Poor else Unusable
  {
    var k := |samples|;
    LossesInARow(UNMEASURED, samples);
    NoAnswerNoEstimate(samples);
    KeptCrossesHalf();
    assert Kept(1) == 0.875 && Kept(2) == 0.765625;
    if k <= 1 { KeptAntitone(k, 1); } else { KeptAntitone(2, k); }
    if k <= 5 { KeptAntitone(k, 5); } else { KeptAntitone(6, k); }
  }

  lemma {:induction false} NoAnswerNoEstimate(samples: seq<Sample>)
    requires forall i :: 0 <= i < |samples| ==> samples[i].Lost?
    ensures Fold(UNMEASURED, samples).rtt == None
  {
    if samples != [] {
      NoAnswerNoEstimate(samples[..|samples| - 1]);
    }
  }

  lemma {:induction false} AnswersAre(samples: seq<Sample>, lo: Rtt, hi: Rtt)
    requires forall i :: 0 <= i < |samples| ==> samples[i].Answered? && lo <= samples[i].rtt <= hi
    ensures |Answers(samples)| == |samples|
    ensures forall i :: 0 <= i < |samples| ==> lo <= Answers(samples)[i] <= hi
  {
    if samples != [] {
      AnswersAre(samples[..|samples| - 1], lo, hi);
    }
  }

  /** Answers alone, on a new path: good when every round trip is below the limit, poor when none is. */
  lemma BandAfterAnswers(samples: seq<Sample>, th: Thresholds, lo: Rtt, hi: Rtt)
    requires samples != [] && th.poorLoss > 0.0 && th.unusableLoss > 0.0
    requires forall i :: 0 <= i < |samples| ==> samples[i].Answered? && lo <= samples[i].rtt <= hi
    ensures hi < th.poorRtt ==> Fold(UNMEASURED, samples).BandOf(th) == Good
    ensures lo >= th.poorRtt ==> Fold(UNMEASURED, samples).BandOf(th) == Poor
  {
    AnswersInARow(UNMEASURED, samples);
    MeasuredMeansSampled(samples);
    AnswersAre(samples, lo, hi);
    EstimateBounds(Answers(samples), lo, hi);
  }

  /** A band gets no better with more loss or a longer round trip. */
  lemma BandIsMonotone(a: PathQuality, b: PathQuality, th: Thresholds)
    requires a.loss <= b.loss && (a.rtt.Some? ==> b.rtt.Some? && a.rtt.value <= b.rtt.value)
    ensures b.BandOf(th).Rank() <= a.BandOf(th).Rank()
  {
  }

  /** (3/4)^k: what is left of the round-trip variation after k samples. */
  function VarKept(k: nat): real { if k == 0 then 1.0 else 0.75 * VarKept(k - 1) }

  function Repeated(sample: Rtt, k: nat): seq<Rtt> { seq(k, _ => sample) }

  /** The estimate after `k` more samples. */
  function Onward(e: Estimate, samples: seq<Rtt>): Estimate {
    if samples == [] then e else Onward(e, samples[..|samples| - 1]).Update(samples[|samples| - 1])
  }

  lemma OneMoreSame(e: Estimate, sample: Rtt, k: nat)
    requires k > 0
    ensures Onward(e, Repeated(sample, k)) == Onward(e, Repeated(sample, k - 1)).Update(sample)
  {
    assert Repeated(sample, k)[..k - 1] == Repeated(sample, k - 1);
  }

  /** `kept` of the distance `d` to the sample is left, and the variation is `varKept` of `v` and what it took up
      of that distance. */
  predicate Steady(e: Estimate, sample: Rtt, d: real, v: real, kept: real, varKept: real) {
    && e.srtt.Some? && e.rttvar.Some? && e.srtt.value - sample == kept * d
    && e.rttvar.value == varKept * v + 2.0 * (kept - varKept) * Abs(d)
  }

  lemma SteadyStep(e: Estimate, sample: Rtt, d: real, v: real, kept: real, varKept: real)
    requires kept > 0.0 && Steady(e, sample, d, v, kept, varKept)
    ensures Steady(e.Update(sample), sample, d, v, 0.875 * kept, 0.75 * varKept)
  {
    Scaled(kept, d);
    SteadyVariation(kept, varKept, v, Abs(d));
    assert (0.875 * kept) * d == 0.875 * (kept * d);
  }

  lemma SteadyStart(s: Rtt, v: Rtt, sample: Rtt)
    ensures Steady(Estimate(Some(s), Some(v)), sample, s - sample, v, 1.0, 1.0)
  {
  }

  /** Equal samples in a row: SRTT closes 1/8 of its distance to them each time, exactly, and RTTVAR keeps 3/4
      of itself and takes up a quarter of that distance, exactly. */
  lemma {:induction false} SteadySamples(s: Rtt, v: Rtt, sample: Rtt, k: nat)
    ensures Steady(Onward(Estimate(Some(s), Some(v)), Repeated(sample, k)), sample, s - sample, v, Kept(k), VarKept(k))
  {
    var e := Estimate(Some(s), Some(v));
    if k == 0 {
      SteadyStart(s, v, sample);
      assert Onward(e, Repeated(sample, 0)) == e;
    } else {
      SteadySamples(s, v, sample, k - 1);
      OneMoreSame(e, sample, k);
      SteadyStep(Onward(e, Repeated(sample, k - 1)), sample, s - sample, v, Kept(k - 1), VarKept(k - 1));
    }
  }

  lemma Scaled(kept: real, d: real)
    requires kept > 0.0
    ensures Abs(kept * d) == kept * Abs(d)
  {
    if d >= 0.0 {
      assert kept * d >= 0.0;
    } else {
      assert kept * d <= 0.0;
      assert -(kept * d) == kept * -d;
    }
  }

  lemma SteadyVariation(kept: real, varKept: real, v: real, d: real)
    ensures 0.75 * (varKept * v + 2.0 * (kept - varKept) * d) + 0.25 * (kept * d)
            == (0.75 * varKept) * v + 2.0 * (0.875 * kept - 0.75 * varKept) * d
  {
    assert 2.0 * (kept - varKept) * d == 2.0 * (kept * d) - 2.0 * (varKept * d);
    assert 2.0 * (0.875 * kept - 0.75 * varKept) * d == 1.75 * (kept * d) - 1.5 * (varKept * d);
    assert (0.75 * varKept) * v == 0.75 * (varKept * v);
  }

  /** The first sample is taken as it is, with half of it for its variation. */
  lemma FirstSample(sample: Rtt)
    ensures EstimateOf([sample]) == Estimate(Some(sample), Some(sample / 2.0))
  {
    assert [sample][..0] == [];
  }
}
