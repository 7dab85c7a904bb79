/**
 * The summary figures of the fraud chart (frontend/src/components/FraudChart.js):
 * label counts, the two percentages and the average confidence, in exact
 * real arithmetic.
 */
module FraudChart {
  import opened Wrappers
  import opened ResultsTable

  /** How many rows carry exactly the label `l`. */
  function CountLabel(results: seq<Row>, l: string): (n: nat)
    ensures n <= |results|
    decreases |results|
  {
    if results == [] then 0
    else (if results[0].classLabel == Some(l) then 1 else 0) + CountLabel(results[1..], l)
  }

  /** No row has the label exactly when the count is 0, and every row has it exactly when it is the length. */
  lemma {:induction false} CountLabelExtremes(results: seq<Row>, l: string)
    ensures CountLabel(results, l) == 0 <==> forall k :: 0 <= k < |results| ==> results[k].classLabel != Some(l)
    ensures CountLabel(results, l) == |results| <==> forall k :: 0 <= k < |results| ==> results[k].classLabel == Some(l)
    decreases |results|
  {
    if results != [] {
      CountLabelExtremes(results[1..], l);
      assert forall k :: 1 <= k < |results| ==> results[k] == results[1..][k - 1];
    }
  }

  /** Rows are counted under at most one of two different labels. */
  lemma {:induction false} CountTwoLabels(results: seq<Row>, a: string, b: string)
    requires a != b
    ensures CountLabel(results, a) + CountLabel(results, b) <= |results|
    decreases |results|
  {
    if results != [] {
      CountTwoLabels(results[1..], a, b);
    }
  }

  /** `count / total * 100`, or 0 when there are no rows. */
  function Percentage(count: nat, total: nat): real {
    if total > 0 then (count as real / total as real) * 100.0 else 0.0
  }

  /** The sum of the confidences (the `reduce`). */
  function SumConfidence(results: seq<Row>): real
    decreases |results|
  {
    if results == [] then 0.0 else results[0].confidence + SumConfidence(results[1..])
  }

  /** The figures the chart shows. */
  datatype Stats = Stats(
    fraudCount: nat,
    benignCount: nat,
    total: nat,
    fraudPercentage: real,
    benignPercentage: real,
    avgConfidence: real)

  /** The computation at the top of the component. */
  function Summary(results: seq<Row>): (s: Stats)
    ensures s.fraudCount == CountLabel(results, "Fraud") && s.benignCount == CountLabel(results, "Benign")
    ensures s.total == |results|
    ensures s.fraudCount + s.benignCount <= s.total
  {
    CountTwoLabels(results, "Fraud", "Benign");
    var total := |results|;
    var fraudCount := CountLabel(results, "Fraud");
    var benignCount := CountLabel(results, "Benign");
    Stats(
      fraudCount,
      benignCount,
      total,
      Percentage(fraudCount, total),
      Percentage(benignCount, total),
      if total > 0 then SumConfidence(results) / total as real else 0.0)
  }

  /** With no rows every figure is 0. */
  lemma EmptySummary()
    ensures Summary([]) == Stats(0, 0, 0, 0.0, 0.0, 0.0)
  {
  }

  /** A percentage of a count not above the total lies in [0, 100]. */
  lemma PercentageBounds(count: nat, total: nat)
    requires count <= total
    ensures 0.0 <= Percentage(count, total) <= 100.0
  {
    if total > 0 {
      assert count as real / total as real <= 1.0;
    }
  }

  lemma PercentageAdds(a: nat, b: nat, total: nat)
    ensures Percentage(a, total) + Percentage(b, total) == Percentage(a + b, total)
  {
  }

  /** Both percentages lie in [0, 100] and together do not exceed 100. */
  lemma SummaryPercentages(results: seq<Row>)
    ensures 0.0 <= Summary(results).fraudPercentage <= 100.0
    ensures 0.0 <= Summary(results).benignPercentage <= 100.0
    ensures Summary(results).fraudPercentage + Summary(results).benignPercentage <= 100.0
  {
    var s := Summary(results);
    PercentageBounds(s.fraudCount, s.total);
    PercentageBounds(s.benignCount, s.total);
    PercentageBounds(s.fraudCount + s.benignCount, s.total);
    PercentageAdds(s.fraudCount, s.benignCount, s.total);
  }

  /** Confidences in [0, 1] sum to at least 0 and at most the number of rows. */
  lemma {:induction false} SumConfidenceBounds(results: seq<Row>)
    requires forall k :: 0 <= k < |results| ==> 0.0 <= results[k].confidence <= 1.0
    ensures 0.0 <= SumConfidence(results) <= |results| as real
    decreases |results|
  {
    if results != [] {
      assert forall k :: 0 <= k < |results[1..]| ==> results[1..][k] == results[k + 1];
      SumConfidenceBounds(results[1..]);
    }
  }

  /** When every confidence lies in [0, 1], so does the average. */
  lemma AverageBounds(results: seq<Row>)
    requires forall k :: 0 <= k < |results| ==> 0.0 <= results[k].confidence <= 1.0
    ensures 0.0 <= Summary(results).avgConfidence <= 1.0
  {
    SumConfidenceBounds(results);
    if |results| > 0 {
      assert SumConfidence(results) / |results| as real <= 1.0;
    }
  }
}
