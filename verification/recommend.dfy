/**
 * `displayPredictionResults`: the result card of the prediction form, with the delay, the
 * bottleneck label and the list of recommendations built by successive appends.
 */
module Recommend {
  import opened Wrappers

  /** The fields of the `/predict` response that the result card reads. */
  datatype PredictionResult = PredictionResult(
    predictedDelayDays: real,   // predicted_delay_days
    resourceBottleneck: bool,   // resource_bottleneck
    projectCost: real,          // input_data.project_cost
    projectBenefit: real)       // input_data.project_benefit

  /** One `<li>` of the recommendation list. */
  datatype Advice =
    | SignificantDelay | MinorDelay | OnTrack
    | BottleneckDetected | NoBottleneck
    | ExcellentRoi | PositiveRoi
  {
    predicate IsDelay() { this == SignificantDelay || this == MinorDelay || this == OnTrack }
    predicate IsBottleneck() { this == BottleneckDetected || this == NoBottleneck }
    predicate IsRoi() { this == ExcellentRoi || this == PositiveRoi }
  }

  /** The text of each recommendation. */
  function AdviceText(a: Advice): string
  {
    match a
    case SignificantDelay => "⚠️ Significant delay predicted. Consider allocating additional resources."
    case MinorDelay => "⏱️ Minor delay expected. Monitor progress closely."
    case OnTrack => "✅ Project is on track or ahead of schedule."
    case BottleneckDetected => "🚧 Resource bottleneck detected. Review team allocation and workload distribution."
    case NoBottleneck => "✅ No resource bottlenecks detected. Current allocation appears optimal."
    case ExcellentRoi => "💰 Excellent ROI potential. Prioritize this project."
    case PositiveRoi => "📊 Positive ROI expected. Project is financially viable."
  }

  const BottleneckYes := "Yes ⚠️"
  const BottleneckNo := "No ✅"

  /** What the result card shows. The delay is shown with `toFixed(2)`, whose text is not modelled. */
  datatype ResultView = ResultView(delayDays: real, bottleneckLabel: string, recommendations: seq<Advice>)

  /** Return on investment in percent, `(benefit - cost) / cost * 100`. */
  function Roi(benefit: real, cost: real): (roi: real)
    requires cost != 0.0
    ensures roi * cost == (benefit - cost) * 100.0
  {
    (benefit - cost) / cost * 100.0
  }

  /** Dividing by a positive number and comparing, or multiplying back. */
  lemma DivAbove(x: real, c: real, y: real)
    requires c > 0.0
    ensures x / c > y <==> x > y * c
  {
  }

  /** For a positive cost the ROI is positive iff the benefit exceeds the cost, and above 50
      iff the benefit exceeds one and a half times the cost. */
  lemma RoiThresholds(benefit: real, cost: real)
    requires cost > 0.0
    ensures Roi(benefit, cost) > 0.0 <==> benefit > cost
    ensures Roi(benefit, cost) > 50.0 <==> benefit > 1.5 * cost
  {
    DivAbove(benefit - cost, cost, 0.0);
    DivAbove(benefit - cost, cost, 0.5);
  }

  /** The ROI message, if any. A zero cost makes the ratio non-finite: a positive benefit
      gives +Infinity, which is above 50; a negative benefit gives -Infinity and a zero
      benefit NaN, for which both comparisons are false. */
  function RoiAdvice(benefit: real, cost: real): (a: Option<Advice>)
    ensures cost != 0.0 ==> (a == Some(ExcellentRoi) <==> Roi(benefit, cost) > 50.0)
    ensures cost != 0.0 ==> (a == Some(PositiveRoi) <==> 0.0 < Roi(benefit, cost) <= 50.0)
    ensures cost != 0.0 ==> (a == None <==> Roi(benefit, cost) <= 0.0)
    ensures cost == 0.0 ==> (a == Some(ExcellentRoi) <==> benefit > 0.0) && a != Some(PositiveRoi)
  {
    if cost == 0.0 then
      if benefit > 0.0 then Some(ExcellentRoi) else None
    else
      var roi := Roi(benefit, cost);
      if roi > 50.0 then Some(ExcellentRoi)
      else if roi > 0.0 then Some(PositiveRoi)
      else None
  }

  /** The result card for one response: exactly one delay message, then exactly one bottleneck
      message, then at most one ROI message, chosen by the thresholds of the dashboard. */
  method DisplayPredictionResults(result: PredictionResult) returns (view: ResultView)
    ensures view.delayDays == result.predictedDelayDays
    ensures view.bottleneckLabel == BottleneckYes <==> result.resourceBottleneck
    ensures view.bottleneckLabel == BottleneckNo <==> !result.resourceBottleneck
    ensures var recs := view.recommendations;
      && 2 <= |recs| <= 3
      && recs[0].IsDelay() && recs[1].IsBottleneck()
      && (forall i :: 2 <= i < |recs| ==> recs[i].IsRoi())
    ensures var d := result.predictedDelayDays; var recs := view.recommendations;
      && (recs[0] == SignificantDelay <==> d > 5.0)
      && (recs[0] == MinorDelay <==> 0.0 < d <= 5.0)
      && (recs[0] == OnTrack <==> d <= 0.0)
    ensures view.recommendations[1] == BottleneckDetected <==> result.resourceBottleneck
    ensures var recs := view.recommendations; var b, c := result.projectBenefit, result.projectCost;
      c != 0.0 ==>
        && (|recs| == 3 <==> Roi(b, c) > 0.0)
        && (|recs| == 3 ==> (recs[2] == ExcellentRoi <==> Roi(b, c) > 50.0))
    ensures var recs := view.recommendations;
      result.projectCost == 0.0 ==> (|recs| == 3 <==> result.projectBenefit > 0.0)
  {
    var bottleneckText := if result.resourceBottleneck then BottleneckYes else BottleneckNo;
    var recs: seq<Advice> := [];

    if result.predictedDelayDays > 5.0 {
      recs := recs + [SignificantDelay];
    } else if result.predictedDelayDays > 0.0 {
      recs := recs + [MinorDelay];
    } else {
      recs := recs + [OnTrack];
    }

    if result.resourceBottleneck {
      recs := recs + [BottleneckDetected];
    } else {
      recs := recs + [NoBottleneck];
    }

    var roiAdvice := RoiAdvice(result.projectBenefit, result.projectCost);
    if roiAdvice.Some? {
      recs := recs + [roiAdvice.value];
    }

    view := ResultView(result.predictedDelayDays, bottleneckText, recs);
  }
}
