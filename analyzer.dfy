/** The DCMA 14-point analyzer (app.py:19-67): it gathers the activities of every
    project once, at construction, and `Analyze` turns that snapshot into the ten
    metrics, their mean, the recommendations and a summary. */
module Analyzer {
  import opened Schedule
  import opened Metrics
  import opened Recommendations

  const NoActivitiesMessage: string := "No activities found in XER file"

  /** What `analyze` returns: the error record for an empty schedule, or the
      report. The report's timestamp is not modelled. */
  datatype AnalysisResult =
    | Failure(message: string)
    | Report(metrics: MetricsReport, overallScore: real, recommendations: seq<Recommendation>,
             totalActivities: nat, criticalIssues: nat)

  class DCMAAnalyzer {
    /** Every project's activities, concatenated in order. */
    var activities: seq<Activity>

    /** `__init__`: extends the activity list project by project. */
    constructor (projects: seq<Project>)
      ensures activities == Flatten(projects)
      ensures |activities| == 0 <==> forall k :: 0 <= k < |projects| ==> |projects[k].activities| == 0
    {
      activities := [];
      new;
      for i := 0 to |projects|
        invariant activities == Flatten(projects[..i])
      {
        assert projects[..i + 1][..i] == projects[..i];
        activities := activities + projects[i].activities;
      }
      assert projects[..|projects|] == projects;
      FlattenEmpty(projects);
    }

    /** `analyze`: the error record when there is no activity; otherwise the ten
        metrics, their mean, the recommendations and the summary counts. */
    method Analyze() returns (r: AnalysisResult)
      ensures r.Failure? <==> |activities| == 0
      ensures r.Failure? ==> r.message == NoActivitiesMessage
      ensures r.Report? ==>
        && r.metrics == ComputeMetrics(activities)
        && r.overallScore == OverallScore(r.metrics)
        && 0.0 <= r.overallScore <= 100.0
        && r.recommendations == RecommendationsFor(r.metrics)
        && r.totalActivities == |activities|
        && r.criticalIssues == HighCount(r.recommendations) <= 2
    {
      if |activities| == 0 {
        return Failure(NoActivitiesMessage);
      }
      var leads := AnalyzeLeads(activities);
      var lags := AnalyzeLags(activities);
      var relationshipTypes := AnalyzeRelationshipTypes(activities);
      var invalidDates := AnalyzeInvalidDates(activities);
      var metrics := MetricsReport(
        MissingLogic(activities), leads, lags, relationshipTypes,
        HardConstraints(activities), HighFloat(activities), NegativeFloat(activities),
        HighDuration(activities), invalidDates, ResourceLoading(activities));
      var overall := OverallScore(metrics);
      var recommendations := GenerateRecommendations(metrics);
      CriticalIssues(metrics);
      r := Report(metrics, overall, recommendations, |activities|, HighCount(recommendations));
    }
  }
}
