/**
 * The doughnut chart's two values (static/script.js, updateSpoofingChart):
 * the server's confidence percentage is shown on the slice named by the
 * result, and its complement on the other slice.
 */
module SpoofingChart {

  datatype ChartData = ChartData(genuine: real, spoofed: real)

  /** A result label for which the chart is meaningful. */
  predicate IsVerdict(resultType: string)
  {
    resultType == "genuine" || resultType == "spoofed"
  }

  function ChartValues(confidence: real, resultType: string): (d: ChartData)
    ensures resultType == "genuine" ==> d.genuine == confidence && d.spoofed == 100.0 - confidence
    ensures resultType == "spoofed" ==> d.spoofed == confidence && d.genuine == 100.0 - confidence
    ensures !IsVerdict(resultType) ==> d.genuine == d.spoofed == 100.0 - confidence
  {
    var genuineValue := if resultType == "genuine" then confidence else 100.0 - confidence;
    var spoofedValue := if resultType == "spoofed" then confidence else 100.0 - confidence;
    ChartData(genuineValue, spoofedValue)
  }

  /**
   * The two slices add up to 100 exactly when the result is one of the two
   * verdicts, or (by coincidence) when the confidence is 50.
   */
  lemma ChartSumsTo100(confidence: real, resultType: string)
    ensures var d := ChartValues(confidence, resultType);
      d.genuine + d.spoofed == 100.0 <==> IsVerdict(resultType) || confidence == 50.0
  {
  }

  /** The result text is red exactly for "spoofed"; every other label, unknown ones included, is green. */
  function ResultColor(resultType: string): (c: string)
    ensures c == "text-red-600" <==> resultType == "spoofed"
    ensures c == "text-red-600" || c == "text-green-600"
  {
    if resultType == "spoofed" then "text-red-600" else "text-green-600"
  }

  /**
   * The colour agrees with the chart: for a verdict whose confidence is not
   * exactly 50, the text is red exactly when the confidence is drawn on the
   * spoofed slice.
   */
  lemma ResultColorMatchesChart(confidence: real, resultType: string)
    requires IsVerdict(resultType) && confidence != 50.0
    ensures ResultColor(resultType) == "text-red-600" <==> ChartValues(confidence, resultType).spoofed == confidence
  {
    if resultType == "genuine" {
      assert ChartValues(confidence, resultType).spoofed == 100.0 - confidence;
    }
  }
}
