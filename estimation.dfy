/** The salary estimator: one representative salary from an optional lower
    and an optional upper bound of a listing's salary range. */
module Estimation {
  import opened Wrappers

  /** `b in [0, None]`: a bound that is missing or zero counts as absent. */
  predicate Absent(b: Option<int>) {
    b == None || b == Some(0)
  }

  /** A bound that is given and not zero. */
  predicate Given(b: Option<int>) {
    b.Some? && b.value != 0
  }

  /** The estimate for bounds `from` and `to`, testing the bounds in the
      order the source does. */
  function PredictSalary(from: Option<int>, to: Option<int>): Option<real>
  {
    if Absent(from) && Absent(to) then None
    else if from != None && Absent(to) then Some(from.value as real * 1.2)
    else if Absent(from) && to != None then Some(to.value as real * 0.9)
    else Some((from.value + to.value) as real / 2.0)
  }

  /** The estimator's four disjoint cases: no estimate exactly when neither
      bound is given, a biased one-sided value when only one is, and the mean
      when both are. */
  lemma PredictSalaryCases(from: Option<int>, to: Option<int>)
    ensures PredictSalary(from, to) == None <==> !Given(from) && !Given(to)
    ensures Given(from) && !Given(to) ==> PredictSalary(from, to) == Some(from.value as real * 1.2)
    ensures !Given(from) && Given(to) ==> PredictSalary(from, to) == Some(to.value as real * 0.9)
    ensures Given(from) && Given(to) ==>
      PredictSalary(from, to) == Some((from.value + to.value) as real / 2.0)
  {
  }

  /** With both bounds given, the estimate lies between them. */
  lemma PredictSalaryBetween(from: int, to: int)
    requires from != 0 && to != 0
    ensures PredictSalary(Some(from), Some(to)).Some?
    ensures var r := PredictSalary(Some(from), Some(to)).value;
      (if from <= to then from else to) as real <= r <= (if from <= to then to else from) as real
  {
  }

  /** When every given bound is positive, a present estimate is positive. */
  lemma PredictSalaryPositive(from: Option<int>, to: Option<int>)
    requires from.Some? ==> from.value >= 0
    requires to.Some? ==> to.value >= 0
    ensures PredictSalary(from, to).Some? ==> PredictSalary(from, to).value > 0.0
  {
  }

  /** Concrete estimates: absent or zero bounds give none, one bound is
      biased by 1.2 or 0.9, two bounds give their mean. */
  lemma PredictSalaryExamples()
    ensures PredictSalary(None, None) == None
    ensures PredictSalary(Some(0), Some(0)) == None
    ensures PredictSalary(Some(0), None) == None
    ensures PredictSalary(Some(100), None) == Some(120.0)
    ensures PredictSalary(None, Some(200)) == Some(180.0)
    ensures PredictSalary(Some(0), Some(200)) == Some(180.0)
    ensures PredictSalary(Some(100), Some(200)) == Some(150.0)
  {
  }
}
