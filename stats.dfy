/** The statistics summary: counts by outcome, accuracy, and the Brier score
    of the evaluated records, over exact rationals. */
module Stats {
  import opened Records

  /** What the statistics report shows. */
  datatype Summary = Summary(
    total: nat,
    evaluated: nat,
    correct: nat,
    incorrect: nat,
    pending: nat,
    accuracy: real,
    brier: real)

  /** Every record is evaluated or pending, never both. */
  lemma {:induction false} EvaluatedPendingPartition(ps: seq<Prediction>)
    ensures |Filter(ps, IsEvaluated)| + |Filter(ps, IsPending)| == |ps|
    decreases |ps|
  {
    if ps != [] {
      EvaluatedPendingPartition(ps[..|ps| - 1]);
    }
  }

  /** Correct and incorrect records are evaluated ones; an evaluated record
      may carry some other outcome string, so the sum may fall short. */
  lemma {:induction false} CorrectIncorrectWithinEvaluated(ps: seq<Prediction>)
    ensures |Filter(ps, IsCorrect)| + |Filter(ps, IsIncorrect)| <= |Filter(ps, IsEvaluated)|
    decreases |ps|
  {
    if ps != [] {
      CorrectIncorrectWithinEvaluated(ps[..|ps| - 1]);
    }
  }

  /** |correct| / |evaluated| * 100, and 0 when nothing is evaluated. */
  function Accuracy(correct: nat, evaluated: nat): (a: real)
    ensures evaluated == 0 ==> a == 0.0
    ensures evaluated > 0 ==> a * evaluated as real == correct as real * 100.0
    ensures 0.0 <= a
    ensures correct <= evaluated ==> a <= 100.0
  {
    if evaluated == 0 then 0.0 else correct as real / evaluated as real * 100.0
  }

  predicate ConfidenceInRange(p: Prediction)
  {
    0 <= p.confidence <= 100
  }

  /** 1 for a correct record, 0 for any other. */
  function OutcomeValue(p: Prediction): real
  {
    if p.outcome == Correct then 1.0 else 0.0
  }

  /** (confidence/100 - outcome value)^2: never negative, and at most 1 when
      the confidence is a percentage. */
  function SquaredError(p: Prediction): (e: real)
    ensures 0.0 <= e
    ensures ConfidenceInRange(p) ==> e <= 1.0
  {
    var diff := p.confidence as real / 100.0 - OutcomeValue(p);
    SquareBound(diff);
    diff * diff
  }

  lemma SquareBound(x: real)
    ensures 0.0 <= x * x
    ensures -1.0 <= x <= 1.0 ==> x * x <= 1.0
  {
    if 0.0 <= x <= 1.0 {
      assert x * x <= x * 1.0;
    } else if -1.0 <= x < 0.0 {
      assert x * x <= (-x) * 1.0;
    }
  }

  /** The sum of the squared errors of the records, in order. */
  function ErrorSum(ps: seq<Prediction>): (s: real)
    ensures 0.0 <= s
    ensures (forall i :: 0 <= i < |ps| ==> ConfidenceInRange(ps[i])) ==> s <= |ps| as real
    decreases |ps|
  {
    if ps == [] then 0.0 else ErrorSum(ps[..|ps| - 1]) + SquaredError(ps[|ps| - 1])
  }

  /** The loop's own computation of one term is the squared error. */
  lemma SquaredErrorStep(p: Prediction, conf: real, outcomeValue: real)
    requires conf == p.confidence as real / 100.0
    requires outcomeValue == if p.outcome == Correct then 1.0 else 0.0
    ensures (conf - outcomeValue) * (conf - outcomeValue) == SquaredError(p)
  {
  }

  lemma ErrorSumSnoc(ps: seq<Prediction>, i: nat)
    requires i < |ps|
    ensures ErrorSum(ps[..i + 1]) == ErrorSum(ps[..i]) + SquaredError(ps[i])
  {
    assert ps[..i + 1][..i] == ps[..i];
  }

  /** The Brier score: the mean squared error over the evaluated records, and
      0 when nothing is evaluated. It lies in [0, 1] when every confidence is
      a percentage. */
  function Brier(ps: seq<Prediction>): (b: real)
    ensures 0.0 <= b
    ensures |Filter(ps, IsEvaluated)| == 0 ==> b == 0.0
    ensures (forall p :: p in ps ==> ConfidenceInRange(p)) ==> b <= 1.0
  {
    var evaluated := Filter(ps, IsEvaluated);
    if |evaluated| == 0 then 0.0
    else
      var n := |evaluated| as real;
      var sum := ErrorSum(evaluated);
      assert (forall p :: p in ps ==> ConfidenceInRange(p)) ==> sum <= n by {
        if forall p :: p in ps ==> ConfidenceInRange(p) {
          assert forall i :: 0 <= i < |evaluated| ==> evaluated[i] in ps;
        }
      }
      MeanBound(sum, n);
      sum / n
  }

  /** The squared error scaled by 100^2: (confidence - 100 * outcome value)^2,
      an integer. */
  function IntSquaredError(p: Prediction): nat
  {
    var d := p.confidence - (if p.outcome == Correct then 100 else 0);
    d * d
  }

  /** The scaled squared errors summed in integers. */
  function IntErrorSum(ps: seq<Prediction>): nat
    decreases |ps|
  {
    if ps == [] then 0 else IntErrorSum(ps[..|ps| - 1]) + IntSquaredError(ps[|ps| - 1])
  }

  /** One record's squared error is its integer error over 100^2. */
  lemma SquaredErrorScaled(p: Prediction)
    ensures SquaredError(p) * 10000.0 == IntSquaredError(p) as real
  {
    var x := p.confidence - (if p.outcome == Correct then 100 else 0);
    var diff := p.confidence as real / 100.0 - OutcomeValue(p);
    assert diff == x as real / 100.0;
    assert diff * diff * 10000.0 == x as real * x as real;
  }

  /** The real error sum is the integer error sum over 100^2. */
  lemma {:induction false} ErrorSumScaled(ps: seq<Prediction>)
    ensures ErrorSum(ps) * 10000.0 == IntErrorSum(ps) as real
    decreases |ps|
  {
    if ps != [] {
      ErrorSumScaled(ps[..|ps| - 1]);
      SquaredErrorScaled(ps[|ps| - 1]);
    }
  }

  /** With evaluated records, the Brier score is the exact fraction
      IntErrorSum / (10000 * n) of the integer error sum over 100^2 times
      their number n. */
  lemma BrierExact(ps: seq<Prediction>)
    requires |Filter(ps, IsEvaluated)| > 0
    ensures Brier(ps) == IntErrorSum(Filter(ps, IsEvaluated)) as real
                         / (|Filter(ps, IsEvaluated)| as real * 10000.0)
  {
    BrierIsMean(ps);
    ErrorSumScaled(Filter(ps, IsEvaluated));
    ScaledMean(Brier(ps), ErrorSum(Filter(ps, IsEvaluated)), |Filter(ps, IsEvaluated)|,
               IntErrorSum(Filter(ps, IsEvaluated)));
  }

  /** A mean of a sum is the mean of the sum scaled by 10000, over 10000. */
  lemma ScaledMean(mean: real, sum: real, n: nat, scaled: nat)
    requires n > 0 && mean == sum / n as real && sum * 10000.0 == scaled as real
    ensures mean == scaled as real / (n as real * 10000.0)
  {
  }

  /** With evaluated records, the Brier score is their error sum over their
      number. */
  lemma BrierIsMean(ps: seq<Prediction>)
    requires |Filter(ps, IsEvaluated)| > 0
    ensures Brier(ps) == ErrorSum(Filter(ps, IsEvaluated)) / |Filter(ps, IsEvaluated)| as real
  {
  }

  lemma MeanBound(sum: real, n: real)
    requires 0.0 <= sum && 0.0 < n
    ensures 0.0 <= sum / n
    ensures sum <= n ==> sum / n <= 1.0
  {
  }

  lemma TwoRecordFilters(p: Prediction, q: Prediction)
    requires p.outcome == Correct && q.outcome == Incorrect
    ensures Filter([p, q], IsEvaluated) == [p, q]
    ensures Filter([p, q], IsCorrect) == [p]
  {
    assert [] + [p] == [p] && [p] + [q] == [p, q];
    FilterSnoc([], p, IsEvaluated);
    FilterSnoc([p], q, IsEvaluated);
    FilterSnoc([], p, IsCorrect);
    FilterSnoc([p], q, IsCorrect);
  }

  lemma TwoRecordErrorSum(p: Prediction, q: Prediction)
    requires p.confidence == 80 && p.outcome == Correct
    requires q.confidence == 60 && q.outcome == Incorrect
    ensures ErrorSum([p, q]) == 0.4
  {
    assert [p, q][..1] == [p] && [p][..0] == [];
    SquaredErrorStep(p, 0.8, 1.0);
    SquaredErrorStep(q, 0.6, 0.0);
  }

  lemma TwoRecordArithmetic()
    ensures 1 as real / 2 as real * 100.0 == 50.0
    ensures 0.4 / 2 as real == 0.2
  {
  }

  /** Two evaluated records, 80% correct and 60% incorrect: accuracy 50 and
      Brier score ((0.8 - 1)^2 + (0.6 - 0)^2) / 2 = 0.2. */
  lemma TwoRecordExample(p: Prediction, q: Prediction)
    requires p.confidence == 80 && p.outcome == Correct
    requires q.confidence == 60 && q.outcome == Incorrect
    ensures |Filter([p, q], IsEvaluated)| == 2
    ensures |Filter([p, q], IsCorrect)| == 1
    ensures Accuracy(|Filter([p, q], IsCorrect)|, |Filter([p, q], IsEvaluated)|) == 50.0
    ensures Brier([p, q]) == 0.2
  {
    TwoRecordFilters(p, q);
    TwoRecordErrorSum(p, q);
    TwoRecordArithmetic();
    BrierIsMean([p, q]);
  }
}
