/**
 Stress classification of the samples buffered during one candidate session
 (`predict_stress_from_data` in app.py): every temperature is checked against
 an inclusive band, the fitted model's per-sample predictions are averaged
 with a divisor of twice the sample count, and the average is bucketed into
 one of three labels.

 The fitted model and the two-decimal float formatting are collaborators the
 core cannot see; they enter as function values (`Predictor`, `Formatter`).
 */
module Classifier {

  /** Inclusive bounds of the accepted temperature band. */
  const TempMin: real := 26.0
  const TempMax: real := 38.0

  /** Lower bounds of the two upper buckets: the thresholds are half-open, so
      each boundary value itself belongs to the higher bucket. */
  const AdaptiveFrom: real := 0.25
  const OverwhelmedFrom: real := 0.75

  const TempRangeMessage: string := "The temperature should be between 26 and 38"

  /** One buffered sensor reading, with the keys HR, TEMP and datetime. */
  datatype Sample = Sample(hr: real, temp: real, datetime: string)

  /** One row of the model's feature matrix: a sample with its datetime column
      dropped, columns in insertion order HR, TEMP. */
  datatype FeatureRow = FeatureRow(hr: real, temp: real)

  datatype Label = Resilient | Adaptive | Overwhelmed

  /** The fitted classifier's `predict`: one prediction per feature row. */
  type Predictor = f: seq<FeatureRow> -> seq<real> | forall X :: |f(X)| == |X|
    witness (X: seq<FeatureRow>) => seq(|X|, _ => 0.0)

  /** The `{:.2f}` rendering of a float (without the trailing percent sign). */
  type Formatter = real -> string

  /** What classifying a buffer yields. `MissingTempColumn` is the exception
      raised when the frame built from an empty buffer has no TEMP column;
      `Failure` and `Success` are the two dictionaries the function returns. */
  datatype Classification =
    | MissingTempColumn
    | Failure(message: string)
    | Success(stress: Label, averageStress: string)

  predicate InBand(t: real) {
    TempMin <= t <= TempMax
  }

  /** Some sample's temperature lies outside the band. */
  ghost predicate AnyOutOfBand(samples: seq<Sample>) {
    exists i | 0 <= i < |samples| :: !InBand(samples[i].temp)
  }

  /** A buffer has an out-of-band temperature exactly when its first sample
      does or its remainder has one. */
  lemma OutOfBandCons(samples: seq<Sample>)
    requires |samples| > 0
    ensures AnyOutOfBand(samples) <==> !InBand(samples[0].temp) || AnyOutOfBand(samples[1..])
  {
  }

  /** How many samples have a temperature outside the band: the source sums the
      element-wise test `(TEMP < 26) | (TEMP > 38)` and rejects the buffer when
      that sum is non-zero, which happens exactly when some temperature is out
      of band. */
  function CountOutOfBand(samples: seq<Sample>): (k: nat)
    ensures k == 0 <==> !AnyOutOfBand(samples)
    ensures k <= |samples|
  {
    if |samples| == 0 then 0
    else
      OutOfBandCons(samples);
      (if InBand(samples[0].temp) then 0 else 1) + CountOutOfBand(samples[1..])
  }

  /** The feature matrix: every sample without its datetime column, in order. */
  function Features(samples: seq<Sample>): (X: seq<FeatureRow>)
    ensures |X| == |samples|
    ensures forall i | 0 <= i < |samples| :: X[i].hr == samples[i].hr && X[i].temp == samples[i].temp
  {
    seq(|samples|, i requires 0 <= i < |samples| => FeatureRow(samples[i].hr, samples[i].temp))
  }

  function Sum(P: seq<real>): real {
    if |P| == 0 then 0.0 else P[0] + Sum(P[1..])
  }

  /** The aggregate score: the sum of the predictions over twice their number. */
  function AvgStress(P: seq<real>): (avg: real)
    requires |P| > 0
    ensures avg * ((|P| * 2) as real) == Sum(P)
  {
    Sum(P) / ((|P| * 2) as real)
  }

  /** Buckets a score into a label. */
  function LabelOf(avg: real): (l: Label)
    ensures l == Resilient <==> avg < AdaptiveFrom
    ensures l == Adaptive <==> AdaptiveFrom <= avg < OverwhelmedFrom
    ensures l == Overwhelmed <==> OverwhelmedFrom <= avg
  {
    if avg < AdaptiveFrom then Resilient
    else if avg < OverwhelmedFrom then Adaptive
    else Overwhelmed
  }

  /** Position of a label on the stress scale. */
  function Rank(l: Label): nat {
    match l
    case Resilient => 0
    case Adaptive => 1
    case Overwhelmed => 2
  }

  /** Classifies a buffer. The temperature check comes first, and the model is
      consulted only when it passes. */
  function Classify(samples: seq<Sample>, predict: Predictor, fmt: Formatter): (c: Classification)
    ensures c.MissingTempColumn? <==> |samples| == 0
    ensures c.Failure? <==> |samples| > 0 && AnyOutOfBand(samples)
    ensures c.Failure? ==> c.message == TempRangeMessage
    ensures c.Success? ==>
              var avg := AvgStress(predict(Features(samples)));
              c.stress == LabelOf(avg) && c.averageStress == fmt(avg * 100.0) + "%"
  {
    if |samples| == 0 then MissingTempColumn
    else if CountOutOfBand(samples) != 0 then Failure(TempRangeMessage)
    else
      var avg := AvgStress(predict(Features(samples)));
      Success(LabelOf(avg), fmt(avg * 100.0) + "%")
  }

  /** When the buffer is empty or a temperature is out of band, the outcome
      does not depend on the model or the formatter at all: neither is used. */
  lemma ClassifyIgnoresModelWhenRejected(samples: seq<Sample>, p1: Predictor, p2: Predictor,
                                         f1: Formatter, f2: Formatter)
    requires |samples| == 0 || AnyOutOfBand(samples)
    ensures Classify(samples, p1, f1) == Classify(samples, p2, f2)
    ensures !Classify(samples, p1, f1).Success?
  {
  }

  /** Success depends on the model only through its predictions for this
      buffer's feature matrix. */
  lemma ClassifyDependsOnlyOnPredictions(samples: seq<Sample>, p1: Predictor, p2: Predictor, fmt: Formatter)
    requires p1(Features(samples)) == p2(Features(samples))
    ensures Classify(samples, p1, fmt) == Classify(samples, p2, fmt)
  {
  }

  /** A higher score never yields a lower label. */
  lemma LabelMonotonic(a: real, b: real)
    requires a <= b
    ensures Rank(LabelOf(a)) <= Rank(LabelOf(b))
  {
  }

  /** The label read directly off the sum of the predictions: with n samples
      the buckets are split at n/2 and 3n/2. */
  lemma LabelBySum(P: seq<real>)
    requires |P| > 0
    ensures var n := |P| as real;
            && (LabelOf(AvgStress(P)) == Resilient <==> Sum(P) < n / 2.0)
            && (LabelOf(AvgStress(P)) == Adaptive <==> n / 2.0 <= Sum(P) < 3.0 * n / 2.0)
            && (LabelOf(AvgStress(P)) == Overwhelmed <==> 3.0 * n / 2.0 <= Sum(P))
  {
    var n := |P| as real;
    var a := AvgStress(P);
    var d := (|P| * 2) as real;
    assert d == 2.0 * n;
    ThresholdOnSum(a, d, Sum(P), AdaptiveFrom, n / 2.0);
    ThresholdOnSum(a, d, Sum(P), OverwhelmedFrom, 3.0 * n / 2.0);
  }

  /** A score below a threshold is the same as the score's sum below the
      threshold scaled by the divisor. */
  lemma ThresholdOnSum(a: real, d: real, s: real, t: real, bound: real)
    requires d > 0.0 && a * d == s && t * d == bound
    ensures a < t <==> s < bound
  {
    ScaleLess(a, t, d);
  }

  /** Multiplying both sides by a positive factor keeps a strict order. */
  lemma ScaleLess(x: real, y: real, d: real)
    requires d > 0.0
    ensures x < y <==> x * d < y * d
  {
  }

  /** Sum bounds for predictions inside [0, 2]. */
  lemma {:induction false} SumBounds(P: seq<real>)
    requires forall i | 0 <= i < |P| :: 0.0 <= P[i] <= 2.0
    ensures 0.0 <= Sum(P) <= 2.0 * (|P| as real)
  {
    if |P| > 0 {
      SumBounds(P[1..]);
    }
  }

  /** If every prediction lies in [0, 2], the range the divisor of two
      suggests, the score lies in [0, 1] and the reported percentage in
      [0, 100]. */
  lemma ScoreWithinUnit(P: seq<real>)
    requires |P| > 0
    requires forall i | 0 <= i < |P| :: 0.0 <= P[i] <= 2.0
    ensures 0.0 <= AvgStress(P) <= 1.0
    ensures 0.0 <= AvgStress(P) * 100.0 <= 100.0
  {
    SumBounds(P);
    var d := (|P| * 2) as real;
    assert AvgStress(P) * d == Sum(P);
    ScaleLess(AvgStress(P), 0.0, d);
    ScaleLess(1.0, AvgStress(P), d);
  }

  /** A score of exactly 0.25 falls into the middle bucket: two in-band samples
      predicted 0 and 1. */
  lemma QuarterIsAdaptive(samples: seq<Sample>, predict: Predictor, fmt: Formatter)
    requires |samples| == 2 && InBand(samples[0].temp) && InBand(samples[1].temp)
    requires predict(Features(samples)) == [0.0, 1.0]
    ensures Classify(samples, predict, fmt) == Success(Adaptive, fmt(25.0) + "%")
  {
    assert Sum([0.0, 1.0]) == 1.0;
  }

  /** A score of exactly 0.75 falls into the top bucket: two in-band samples
      predicted 1 and 2. */
  lemma ThreeQuartersIsOverwhelmed(samples: seq<Sample>, predict: Predictor, fmt: Formatter)
    requires |samples| == 2 && InBand(samples[0].temp) && InBand(samples[1].temp)
    requires predict(Features(samples)) == [1.0, 2.0]
    ensures Classify(samples, predict, fmt) == Success(Overwhelmed, fmt(75.0) + "%")
  {
    assert Sum([1.0, 2.0]) == 3.0;
  }

  /** The band is inclusive: 26 and 38 pass, 25.9 and 38.1 do not. */
  lemma BandEdges()
    ensures InBand(26.0) && InBand(38.0)
    ensures !InBand(25.9) && !InBand(38.1)
  {
  }
}
