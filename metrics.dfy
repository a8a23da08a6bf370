/** The ten DCMA metrics of the analyzer (app.py:69-248). Each counts the
    activities or predecessor relationships that meet a predicate and turns the
    count into a 0-100 score; a zero denominator gives a fixed fallback score.
    Metrics the source computes with comprehensions are functions; the ones it
    computes with counting loops are methods proved equal to those functions.
    Scores are exact reals: the source's rounding to two decimals is left out. */
module Metrics {
  import opened Schedule

  /** Float above this many days is "high float". */
  const FloatThresholdDays: real := 44.0
  /** Duration above this many days is "high duration". */
  const DurationThresholdDays: real := 44.0
  /** A lag above this many days is an excessive lag. */
  const ExcessiveLagDays: real := 20.0

  /** Result of the missing-logic metric. */
  datatype LogicResult = LogicResult(score: real, withoutPredecessors: nat, withoutSuccessors: nat, totalTasks: nat)

  /** Result of every other metric: the score, the numerator and the denominator. */
  datatype CountResult = CountResult(score: real, count: nat, total: nat)

  /** The metrics mapping that `analyze` builds, one field per key. */
  datatype MetricsReport = MetricsReport(
    logic: LogicResult,
    leads: CountResult,
    lags: CountResult,
    relationshipTypes: CountResult,
    hardConstraints: CountResult,
    highFloat: CountResult,
    negativeFloat: CountResult,
    highDuration: CountResult,
    invalidDates: CountResult,
    resources: CountResult)

  // ---------------------------------------------------------------------------
  // Score arithmetic

  /** Python's `max(0, x)`. */
  function Max0(x: real): real {
    if x > 0.0 then x else 0.0
  }

  /** `count / total * weight` with true division. */
  function Ratio(count: nat, total: nat, weight: real): real
    requires total > 0
  {
    (count as real) / (total as real) * weight
  }

  /** `max(0, 100 - count / total * weight)`, the shape of most metric scores:
      whatever the count, a percentage. */
  function ClampedScore(count: nat, total: nat, weight: real): (r: real)
    requires total > 0 && weight >= 0.0
    ensures 0.0 <= r <= 100.0
  {
    var q := (count as real) / (total as real);
    assert q * (total as real) == count as real;
    assert 0.0 <= q * weight;
    Max0(100.0 - Ratio(count, total, weight))
  }

  /** A share of at most the whole, weighted, lies between 0 and the weight,
      and reaches either end exactly when the count does. */
  lemma RatioBounds(count: nat, total: nat, weight: real)
    requires 0 < total && count <= total && weight > 0.0
    ensures 0.0 <= Ratio(count, total, weight) <= weight
    ensures Ratio(count, total, weight) == 0.0 <==> count == 0
    ensures Ratio(count, total, weight) == weight <==> count == total
  {
    var q := (count as real) / (total as real);
    assert q * (total as real) == count as real;
    assert 0.0 <= q <= 1.0;
    if q == 1.0 {
      assert count == total;
    }
    if q * weight == weight {
      assert q == 1.0;
    }
  }

  /** With a weight of at most 100 the clamp never fires: the score is the
      plain formula, between 100 - weight and 100, and is 100 exactly when
      nothing is counted. */
  lemma ClampedScoreBounds(count: nat, total: nat, weight: real)
    requires 0 < total && count <= total && 0.0 < weight <= 100.0
    ensures ClampedScore(count, total, weight) == 100.0 - Ratio(count, total, weight)
    ensures 100.0 - weight <= ClampedScore(count, total, weight) <= 100.0
    ensures ClampedScore(count, total, weight) == 100.0 <==> count == 0
    ensures ClampedScore(count, total, weight) == 100.0 - weight <==> count == total
  {
    RatioBounds(count, total, weight);
  }

  // ---------------------------------------------------------------------------
  // Activity and relationship predicates

  /** `task_type in ['TT_FinMile', 'TT_Mile']`. */
  predicate IsMilestone(a: Activity) {
    a.taskType == StartMilestone || a.taskType == FinishMilestone
  }

  predicate IsRegular(a: Activity) {
    !IsMilestone(a)
  }

  predicate LacksPredecessors(a: Activity) {
    |a.predecessors| == 0
  }

  predicate LacksSuccessors(a: Activity) {
    |a.successors| == 0
  }

  /** A regular activity with no predecessor: one unit of the missing-logic numerator. */
  predicate RegularWithoutPredecessors(a: Activity) {
    IsRegular(a) && LacksPredecessors(a)
  }

  /** A regular activity with no successor: one unit of the missing-logic numerator. */
  predicate RegularWithoutSuccessors(a: Activity) {
    IsRegular(a) && LacksSuccessors(a)
  }

  /** `a.total_float and a.total_float > 44`. */
  predicate HasHighFloat(a: Activity) {
    Truthy(a.totalFloat) && a.totalFloat.value > FloatThresholdDays
  }

  /** `a.total_float and a.total_float < 0`. */
  predicate HasNegativeFloat(a: Activity) {
    Truthy(a.totalFloat) && a.totalFloat.value < 0.0
  }

  /** `a.duration and a.duration > 44`. */
  predicate HasHighDuration(a: Activity) {
    Truthy(a.duration) && a.duration.value > DurationThresholdDays
  }

  /** `a.constraint_type and a.constraint_type != 'CS_ASAP'`. */
  predicate HasHardConstraint(a: Activity) {
    TruthyText(a.constraintType) && a.constraintType.value != "CS_ASAP"
  }

  /** `a.start and a.finish and a.start > a.finish`. */
  predicate HasInvalidDates(a: Activity) {
    a.start.Some? && a.finish.Some? && a.start.value > a.finish.value
  }

  /** `a.resources and len(a.resources) > 0`. */
  predicate HasResources(a: Activity) {
    |a.resources| > 0
  }

  /** `rel.lag and rel.lag < 0`. */
  predicate IsLead(r: Relationship) {
    Truthy(r.lag) && r.lag.value < 0.0
  }

  /** `rel.lag and rel.lag > 20`. */
  predicate IsExcessiveLag(r: Relationship) {
    Truthy(r.lag) && r.lag.value > ExcessiveLagDays
  }

  /** `rel.link != 'PR_FS'`. */
  predicate IsNonFinishToStart(r: Relationship) {
    r.link != FinishToStart
  }

  // ---------------------------------------------------------------------------
  // Relationship counting

  /** `sum(len(a.predecessors) for a in activities)`. */
  function TotalRelationships(acts: seq<Activity>): (n: nat)
    ensures n == 0 <==> forall i :: 0 <= i < |acts| ==> |acts[i].predecessors| == 0
  {
    if |acts| == 0 then 0
    else TotalRelationships(acts[..|acts| - 1]) + |acts[|acts| - 1].predecessors|
  }

  /** The number of predecessor relationships, over all activities, that meet `p`. */
  function RelCountWhere(acts: seq<Activity>, p: Relationship -> bool): (n: nat)
    ensures n <= TotalRelationships(acts)
  {
    if |acts| == 0 then 0
    else RelCountWhere(acts[..|acts| - 1], p) + CountWhere(acts[|acts| - 1].predecessors, p)
  }

  // ---------------------------------------------------------------------------
  // The ten metrics as functions of the activity list

  /** `_analyze_missing_logic`: milestones are left out of numerator and denominator;
      with no regular activity the score is 0. */
  function MissingLogic(acts: seq<Activity>): (m: LogicResult)
    ensures 0.0 <= m.score <= 100.0
    ensures m.withoutPredecessors <= m.totalTasks && m.withoutSuccessors <= m.totalTasks
    ensures m.totalTasks == CountWhere(acts, IsRegular) <= |acts|
    ensures m.withoutPredecessors == CountWhere(acts, RegularWithoutPredecessors)
    ensures m.withoutSuccessors == CountWhere(acts, RegularWithoutSuccessors)
    ensures m.totalTasks == 0 ==> m.score == 0.0
  {
    CountWhereFilter(acts, IsRegular, LacksPredecessors, RegularWithoutPredecessors);
    CountWhereFilter(acts, IsRegular, LacksSuccessors, RegularWithoutSuccessors);
    LogicOf(Filter(acts, IsRegular))
  }

  /** The missing-logic counts and score over the list of regular activities. */
  function LogicOf(regular: seq<Activity>): (m: LogicResult)
    ensures 0.0 <= m.score <= 100.0
    ensures m.totalTasks == |regular|
    ensures m.withoutPredecessors <= m.totalTasks && m.withoutSuccessors <= m.totalTasks
    ensures m.totalTasks == 0 ==> m.score == 0.0
  {
    var withoutPred := CountWhere(regular, LacksPredecessors);
    var withoutSucc := CountWhere(regular, LacksSuccessors);
    var total := |regular|;
    var score := if total > 0 then ClampedScore(withoutPred + withoutSucc, total, 100.0) else 0.0;
    LogicResult(score, withoutPred, withoutSucc, total)
  }

  /** `_analyze_high_float`. */
  function HighFloat(acts: seq<Activity>): (m: CountResult)
    ensures m.total == |acts| && m.count == CountWhere(acts, HasHighFloat)
    ensures 0.0 <= m.score <= 100.0
    ensures m.total == 0 ==> m.score == 0.0
  {
    var count := CountWhere(acts, HasHighFloat);
    var total := |acts|;
    CountResult(if total > 0 then ClampedScore(count, total, 100.0) else 0.0, count, total)
  }

  /** `_analyze_negative_float`: 100 when nothing is behind schedule, otherwise a
      double-weighted penalty. */
  function NegativeFloat(acts: seq<Activity>): (m: CountResult)
    ensures m.total == |acts| && m.count == CountWhere(acts, HasNegativeFloat)
    ensures 0.0 <= m.score <= 100.0
  {
    var count := CountWhere(acts, HasNegativeFloat);
    var total := |acts|;
    var score := if count == 0 then 100.0 else ClampedScore(count, total, 200.0);
    CountResult(score, count, total)
  }

  /** `_analyze_high_duration`. */
  function HighDuration(acts: seq<Activity>): (m: CountResult)
    ensures m.total == |acts| && m.count == CountWhere(acts, HasHighDuration)
    ensures 0.0 <= m.score <= 100.0
    ensures m.total == 0 ==> m.score == 0.0
  {
    var count := CountWhere(acts, HasHighDuration);
    var total := |acts|;
    CountResult(if total > 0 then ClampedScore(count, total, 100.0) else 0.0, count, total)
  }

  /** `_analyze_hard_constraints`. */
  function HardConstraints(acts: seq<Activity>): (m: CountResult)
    ensures m.total == |acts| && m.count == CountWhere(acts, HasHardConstraint)
    ensures 0.0 <= m.score <= 100.0
    ensures m.total == 0 ==> m.score == 0.0
  {
    var count := CountWhere(acts, HasHardConstraint);
    var total := |acts|;
    CountResult(if total > 0 then ClampedScore(count, total, 100.0) else 0.0, count, total)
  }

  /** `_analyze_leads`: 100 when there is no relationship at all. */
  function Leads(acts: seq<Activity>): (m: CountResult)
    ensures m.total == TotalRelationships(acts) && m.count == RelCountWhere(acts, IsLead)
    ensures 0.0 <= m.score <= 100.0
    ensures m.total == 0 ==> m.score == 100.0
  {
    var count := RelCountWhere(acts, IsLead);
    var total := TotalRelationships(acts);
    CountResult(if total > 0 then ClampedScore(count, total, 100.0) else 100.0, count, total)
  }

  /** `_analyze_lags`: 100 when there is no relationship at all. */
  function Lags(acts: seq<Activity>): (m: CountResult)
    ensures m.total == TotalRelationships(acts) && m.count == RelCountWhere(acts, IsExcessiveLag)
    ensures 0.0 <= m.score <= 100.0
    ensures m.total == 0 ==> m.score == 100.0
  {
    var count := RelCountWhere(acts, IsExcessiveLag);
    var total := TotalRelationships(acts);
    CountResult(if total > 0 then ClampedScore(count, total, 100.0) else 100.0, count, total)
  }

  /** `_analyze_relationship_types`: non finish-to-start links weigh 50, so the
      score never drops below 50. */
  function RelationshipTypes(acts: seq<Activity>): (m: CountResult)
    ensures m.total == TotalRelationships(acts) && m.count == RelCountWhere(acts, IsNonFinishToStart)
    ensures 50.0 <= m.score <= 100.0
    ensures m.score == 100.0 <==> m.count == 0
  {
    var count := RelCountWhere(acts, IsNonFinishToStart);
    var total := TotalRelationships(acts);
    if total > 0 then
      ClampedScoreBounds(count, total, 50.0);
      CountResult(ClampedScore(count, total, 50.0), count, total)
    else
      CountResult(100.0, count, total)
  }

  /** `_analyze_invalid_dates`: the denominator is every activity, not only the
      ones with both dates. */
  function InvalidDates(acts: seq<Activity>): (m: CountResult)
    ensures m.total == |acts| && m.count == CountWhere(acts, HasInvalidDates)
    ensures 0.0 <= m.score <= 100.0
  {
    var count := CountWhere(acts, HasInvalidDates);
    var total := |acts|;
    var score := if count == 0 then 100.0 else ClampedScore(count, total, 200.0);
    CountResult(score, count, total)
  }

  /** `_analyze_resources`: the plain assignment rate, never clamped. */
  function ResourceLoading(acts: seq<Activity>): (m: CountResult)
    ensures m.total == |acts| && m.count == CountWhere(acts, HasResources)
    ensures 0.0 <= m.score <= 100.0
    ensures m.total == 0 ==> m.score == 0.0
  {
    var count := CountWhere(acts, HasResources);
    var total := |acts|;
    if total > 0 then
      RatioBounds(count, total, 100.0);
      CountResult(Ratio(count, total, 100.0), count, total)
    else
      CountResult(0.0, count, total)
  }

  /** Every score of a metrics mapping is a percentage, and the relationship-types
      score is at least 50. */
  predicate WellFormed(m: MetricsReport) {
    && 0.0 <= m.logic.score <= 100.0
    && 0.0 <= m.leads.score <= 100.0
    && 0.0 <= m.lags.score <= 100.0
    && 50.0 <= m.relationshipTypes.score <= 100.0
    && 0.0 <= m.hardConstraints.score <= 100.0
    && 0.0 <= m.highFloat.score <= 100.0
    && 0.0 <= m.negativeFloat.score <= 100.0
    && 0.0 <= m.highDuration.score <= 100.0
    && 0.0 <= m.invalidDates.score <= 100.0
    && 0.0 <= m.resources.score <= 100.0
  }

  /** The mapping built at app.py:38-49. */
  function ComputeMetrics(acts: seq<Activity>): (m: MetricsReport)
    ensures WellFormed(m)
  {
    MetricsReport(MissingLogic(acts), Leads(acts), Lags(acts), RelationshipTypes(acts),
            HardConstraints(acts), HighFloat(acts), NegativeFloat(acts),
            HighDuration(acts), InvalidDates(acts), ResourceLoading(acts))
  }

  // ---------------------------------------------------------------------------
  // The overall score

  /** The ten scores, in the order of the mapping's keys. */
  function Scores(m: MetricsReport): seq<real> {
    [m.logic.score, m.leads.score, m.lags.score, m.relationshipTypes.score,
     m.hardConstraints.score, m.highFloat.score, m.negativeFloat.score,
     m.highDuration.score, m.invalidDates.score, m.resources.score]
  }

  function Sum(s: seq<real>): real {
    if |s| == 0 then 0.0 else s[0] + Sum(s[1..])
  }

  /** `sum(scores) / len(scores) if scores else 0`. */
  function Mean(s: seq<real>): real {
    if |s| > 0 then Sum(s) / (|s| as real) else 0.0
  }

  /** A sum of values in [lo, hi] lies in [n * lo, n * hi]. */
  lemma {:induction false} SumBounds(s: seq<real>, lo: real, hi: real)
    requires forall i :: 0 <= i < |s| ==> lo <= s[i] <= hi
    ensures (|s| as real) * lo <= Sum(s) <= (|s| as real) * hi
  {
    if |s| > 0 {
      SumBounds(s[1..], lo, hi);
    }
  }

  /** A mean of values in [lo, hi] lies in [lo, hi]. */
  lemma MeanBounds(s: seq<real>, lo: real, hi: real)
    requires |s| > 0
    requires forall i :: 0 <= i < |s| ==> lo <= s[i] <= hi
    ensures lo <= Mean(s) <= hi
  {
    SumBounds(s, lo, hi);
    var n := |s| as real;
    assert Mean(s) * n == Sum(s);
  }

  /** `overall_score`: the unweighted mean of the ten metric scores; when every
      metric score is a percentage, so is the overall score. */
  function OverallScore(m: MetricsReport): (r: real)
    ensures WellFormed(m) ==> 0.0 <= r <= 100.0
  {
    var s := Scores(m);
    if WellFormed(m) then
      MeanBounds(s, 0.0, 100.0);
      Mean(s)
    else
      Mean(s)
  }

  /** The overall score is the arithmetic mean of the ten scores, each weighing one tenth. */
  lemma OverallScoreIsMean(m: MetricsReport)
    ensures OverallScore(m) ==
      (m.logic.score + m.leads.score + m.lags.score + m.relationshipTypes.score +
       m.hardConstraints.score + m.highFloat.score + m.negativeFloat.score +
       m.highDuration.score + m.invalidDates.score + m.resources.score) / 10.0
  {
    var s := Scores(m);
    calc {
      Sum(s);
      s[0] + Sum(s[1..]);
      { assert s[1..][0] == s[1]; }
      s[0] + s[1] + Sum(s[2..]);
      { assert s[2..][0] == s[2] && s[2..][1..] == s[3..]; }
      s[0] + s[1] + s[2] + Sum(s[3..]);
      { assert s[3..][0] == s[3] && s[3..][1..] == s[4..]; }
      s[0] + s[1] + s[2] + s[3] + Sum(s[4..]);
      { assert s[4..][0] == s[4] && s[4..][1..] == s[5..]; }
      s[0] + s[1] + s[2] + s[3] + s[4] + Sum(s[5..]);
      { assert s[5..][0] == s[5] && s[5..][1..] == s[6..]; }
      s[0] + s[1] + s[2] + s[3] + s[4] + s[5] + Sum(s[6..]);
      { assert s[6..][0] == s[6] && s[6..][1..] == s[7..]; }
      s[0] + s[1] + s[2] + s[3] + s[4] + s[5] + s[6] + Sum(s[7..]);
      { assert s[7..][0] == s[7] && s[7..][1..] == s[8..]; }
      s[0] + s[1] + s[2] + s[3] + s[4] + s[5] + s[6] + s[7] + Sum(s[8..]);
      { assert s[8..][0] == s[8] && s[8..][1..] == s[9..]; }
      s[0] + s[1] + s[2] + s[3] + s[4] + s[5] + s[6] + s[7] + s[8] + Sum(s[9..]);
      { assert s[9..][0] == s[9] && s[9..][1..] == []; }
      s[0] + s[1] + s[2] + s[3] + s[4] + s[5] + s[6] + s[7] + s[8] + s[9];
    }
  }

  // ---------------------------------------------------------------------------
  // Properties of the individual metrics

  /** Missing-logic looks only at the regular activities: removing the
      milestones beforehand changes nothing. */
  lemma MissingLogicOnlyRegular(acts: seq<Activity>)
    ensures MissingLogic(acts) == MissingLogic(Filter(acts, IsRegular))
  {
    FilterIdempotent(acts, IsRegular);
  }

  /** A milestone inserted anywhere leaves the missing-logic result unchanged,
      whatever relationships it lacks. */
  lemma MissingLogicIgnoresMilestone(before: seq<Activity>, m: Activity, after: seq<Activity>)
    requires IsMilestone(m)
    ensures MissingLogic(before + [m] + after) == MissingLogic(before + after)
  {
    var x, y := Filter(before, IsRegular), Filter(after, IsRegular);
    assert [m][..0] == [];
    assert Filter([m], IsRegular) == [];
    FilterAppend(before, [m], IsRegular);
    assert Filter(before + [m], IsRegular) == x;
    FilterAppend(before + [m], after, IsRegular);
    FilterAppend(before, after, IsRegular);
    assert Filter(before + [m] + after, IsRegular) == x + y == Filter(before + after, IsRegular);
  }

  /** A count of at least the total gives a weighted share of at least the weight. */
  lemma RatioAtLeastWeight(count: nat, total: nat, weight: real)
    requires 0 < total <= count && 0.0 <= weight
    ensures Ratio(count, total, weight) >= weight
  {
    var q := (count as real) / (total as real);
    assert q * (total as real) == count as real;
    assert q >= 1.0;
    assert q * weight >= weight;
  }

  /** The missing-logic numerator can reach twice the number of regular
      activities; the score is the plain formula while the numerator is at most
      the total, and is clamped to 0 from there on. */
  lemma MissingLogicClamp(acts: seq<Activity>)
    ensures var m := MissingLogic(acts);
      m.withoutPredecessors + m.withoutSuccessors <= 2 * m.totalTasks
      && (0 < m.totalTasks && m.withoutPredecessors + m.withoutSuccessors <= m.totalTasks ==>
            m.score == 100.0 - Ratio(m.withoutPredecessors + m.withoutSuccessors, m.totalTasks, 100.0))
      && (0 < m.totalTasks <= m.withoutPredecessors + m.withoutSuccessors ==> m.score == 0.0)
  {
    LogicClamp(Filter(acts, IsRegular));
  }

  /** `MissingLogicClamp` over the list of regular activities. */
  lemma LogicClamp(regular: seq<Activity>)
    ensures var m := LogicOf(regular);
      m.withoutPredecessors + m.withoutSuccessors <= 2 * m.totalTasks
      && (0 < m.totalTasks && m.withoutPredecessors + m.withoutSuccessors <= m.totalTasks ==>
            m.score == 100.0 - Ratio(m.withoutPredecessors + m.withoutSuccessors, m.totalTasks, 100.0))
      && (0 < m.totalTasks <= m.withoutPredecessors + m.withoutSuccessors ==> m.score == 0.0)
  {
    var m := LogicOf(regular);
    var n := m.withoutPredecessors + m.withoutSuccessors;
    var t := m.totalTasks;
    assert m.score == if t > 0 then ClampedScore(n, t, 100.0) else 0.0;
    if 0 < t {
      if n <= t {
        ClampedScoreBounds(n, t, 100.0);
      } else {
        RatioAtLeastWeight(n, t, 100.0);
      }
    }
  }

  /** The bound of `MissingLogicClamp` is reached: a single regular activity with
      neither predecessor nor successor counts twice against a total of one, and
      the score, whose plain formula gives -100, is clamped to 0. */
  lemma MissingLogicNumeratorReachesTwice()
    ensures exists acts: seq<Activity> :: var m := MissingLogic(acts);
      m.totalTasks == 1 && m.withoutPredecessors + m.withoutSuccessors == 2 * m.totalTasks
      && 100.0 - Ratio(m.withoutPredecessors + m.withoutSuccessors, m.totalTasks, 100.0) == -100.0
      && m.score == 0.0
  {
    var a := Activity(Task, None, None, None, None, None, [], [], []);
    var acts := [a];
    assert acts[..0] == [];
    assert Filter(acts, IsRegular) == acts;
    var m := MissingLogic(acts);
    assert m.withoutPredecessors == 1 && m.withoutSuccessors == 1;
  }

  /** High float, high duration and hard constraints never reach the clamp:
      each score is exactly 100 - count / total * 100, is 100 exactly when
      nothing is counted and 0 exactly when everything is. */
  lemma PlainShareScores(acts: seq<Activity>)
    requires |acts| > 0
    ensures forall m :: m in [HighFloat(acts), HighDuration(acts), HardConstraints(acts)] ==>
      m.count <= m.total
      && m.score == 100.0 - Ratio(m.count, m.total, 100.0)
      && (m.score == 100.0 <==> m.count == 0)
      && (m.score == 0.0 <==> m.count == m.total)
  {
    var t := |acts|;
    ClampedScoreBounds(HighFloat(acts).count, t, 100.0);
    ClampedScoreBounds(HighDuration(acts).count, t, 100.0);
    ClampedScoreBounds(HardConstraints(acts).count, t, 100.0);
  }

  /** Negative float and invalid dates score exactly 100 when nothing is counted;
      otherwise the score is the double-weighted clamped formula, strictly below 100. */
  lemma DoubleWeightScores(acts: seq<Activity>)
    ensures forall m :: m in [NegativeFloat(acts), InvalidDates(acts)] ==>
      (m.score == 100.0 <==> m.count == 0)
      && (m.count > 0 ==> 0 < m.total && m.score == Max0(100.0 - Ratio(m.count, m.total, 200.0)) && m.score < 100.0)
  {
    var t := |acts|;
    var nf := NegativeFloat(acts).count;
    var id := InvalidDates(acts).count;
    if nf > 0 {
      RatioBounds(nf, t, 200.0);
    }
    if id > 0 {
      RatioBounds(id, t, 200.0);
    }
  }

  /** Leads and lags: with relationships present, each score is exactly
      100 - count / relationships * 100; a relationship is never both a lead
      and an excessive lag. */
  lemma LeadsAndLagsScores(acts: seq<Activity>)
    ensures forall m :: m in [Leads(acts), Lags(acts)] ==>
      m.count <= m.total
      && (m.total > 0 ==> m.score == 100.0 - Ratio(m.count, m.total, 100.0))
      && (m.score == 100.0 <==> m.count == 0)
    ensures Leads(acts).count + Lags(acts).count <= TotalRelationships(acts)
  {
    var t := TotalRelationships(acts);
    if t > 0 {
      ClampedScoreBounds(Leads(acts).count, t, 100.0);
      ClampedScoreBounds(Lags(acts).count, t, 100.0);
    }
    LeadsLagsDisjoint(acts);
  }

  lemma {:induction false} LeadsLagsDisjoint(acts: seq<Activity>)
    ensures RelCountWhere(acts, IsLead) + RelCountWhere(acts, IsExcessiveLag) <= TotalRelationships(acts)
  {
    if |acts| > 0 {
      LeadsLagsDisjoint(acts[..|acts| - 1]);
      CountWhereDisjoint(acts[|acts| - 1].predecessors, IsLead, IsExcessiveLag);
    }
  }

  /** The resource score is the assignment rate itself, unclamped, and still a percentage. */
  lemma ResourcesIsRate(acts: seq<Activity>)
    requires |acts| > 0
    ensures ResourceLoading(acts).score == (CountWhere(acts, HasResources) as real) / (|acts| as real) * 100.0
    ensures ResourceLoading(acts).score == 100.0 <==> forall i :: 0 <= i < |acts| ==> HasResources(acts[i])
    ensures ResourceLoading(acts).score == 0.0 <==> forall i :: 0 <= i < |acts| ==> !HasResources(acts[i])
  {
    RatioBounds(CountWhere(acts, HasResources), |acts|, 100.0);
  }

  // ---------------------------------------------------------------------------
  // The metrics the source computes with counting loops

  /** One more activity adds its qualifying predecessor relationships. */
  lemma RelCountStep(acts: seq<Activity>, i: nat, p: Relationship -> bool)
    requires i < |acts|
    ensures RelCountWhere(acts[..i + 1], p) == RelCountWhere(acts[..i], p) + CountWhere(acts[i].predecessors, p)
    ensures TotalRelationships(acts[..i + 1]) == TotalRelationships(acts[..i]) + |acts[i].predecessors|
  {
    assert acts[..i + 1][..i] == acts[..i];
  }

  /** One more relationship adds one when it qualifies. */
  lemma CountStep(rels: seq<Relationship>, j: nat, p: Relationship -> bool)
    requires j < |rels|
    ensures CountWhere(rels[..j + 1], p) == CountWhere(rels[..j], p) + (if p(rels[j]) then 1 else 0)
  {
    assert rels[..j + 1][..j] == rels[..j];
  }

  /** `_analyze_leads`: a nested loop counts leads over every predecessor list. */
  method AnalyzeLeads(acts: seq<Activity>) returns (m: CountResult)
    ensures m == Leads(acts)
  {
    var leadCount := 0;
    for i := 0 to |acts|
      invariant leadCount == RelCountWhere(acts[..i], IsLead)
    {
      var preds := acts[i].predecessors;
      for j := 0 to |preds|
        invariant leadCount == RelCountWhere(acts[..i], IsLead) + CountWhere(preds[..j], IsLead)
      {
        CountStep(preds, j, IsLead);
        if IsLead(preds[j]) {
          leadCount := leadCount + 1;
        }
      }
      assert preds[..|preds|] == preds;
      RelCountStep(acts, i, IsLead);
    }
    assert acts[..|acts|] == acts;
    var totalRels := TotalRelationships(acts);
    var score := if totalRels > 0 then ClampedScore(leadCount, totalRels, 100.0) else 100.0;
    m := CountResult(score, leadCount, totalRels);
  }

  /** `_analyze_lags`: a nested loop counts lags above 20 days. */
  method AnalyzeLags(acts: seq<Activity>) returns (m: CountResult)
    ensures m == Lags(acts)
  {
    var lagCount := 0;
    for i := 0 to |acts|
      invariant lagCount == RelCountWhere(acts[..i], IsExcessiveLag)
    {
      var preds := acts[i].predecessors;
      for j := 0 to |preds|
        invariant lagCount == RelCountWhere(acts[..i], IsExcessiveLag) + CountWhere(preds[..j], IsExcessiveLag)
      {
        CountStep(preds, j, IsExcessiveLag);
        if IsExcessiveLag(preds[j]) {
          lagCount := lagCount + 1;
        }
      }
      assert preds[..|preds|] == preds;
      RelCountStep(acts, i, IsExcessiveLag);
    }
    assert acts[..|acts|] == acts;
    var totalRels := TotalRelationships(acts);
    var score := if totalRels > 0 then ClampedScore(lagCount, totalRels, 100.0) else 100.0;
    m := CountResult(score, lagCount, totalRels);
  }

  /** `_analyze_relationship_types`: one nested loop counts both the
      relationships and the non finish-to-start ones. */
  method AnalyzeRelationshipTypes(acts: seq<Activity>) returns (m: CountResult)
    ensures m == RelationshipTypes(acts)
  {
    var nonFsCount := 0;
    var totalRels := 0;
    for i := 0 to |acts|
      invariant nonFsCount == RelCountWhere(acts[..i], IsNonFinishToStart)
      invariant totalRels == TotalRelationships(acts[..i])
    {
      var preds := acts[i].predecessors;
      for j := 0 to |preds|
        invariant nonFsCount == RelCountWhere(acts[..i], IsNonFinishToStart) + CountWhere(preds[..j], IsNonFinishToStart)
        invariant totalRels == TotalRelationships(acts[..i]) + j
      {
        CountStep(preds, j, IsNonFinishToStart);
        totalRels := totalRels + 1;
        if IsNonFinishToStart(preds[j]) {
          nonFsCount := nonFsCount + 1;
        }
      }
      assert preds[..|preds|] == preds;
      RelCountStep(acts, i, IsNonFinishToStart);
    }
    assert acts[..|acts|] == acts;
    var score := if totalRels > 0 then ClampedScore(nonFsCount, totalRels, 50.0) else 100.0;
    m := CountResult(score, nonFsCount, totalRels);
  }

  /** `_analyze_invalid_dates`: a loop counts activities that start after they finish. */
  method AnalyzeInvalidDates(acts: seq<Activity>) returns (m: CountResult)
    ensures m == InvalidDates(acts)
  {
    var invalid := 0;
    for i := 0 to |acts|
      invariant invalid == CountWhere(acts[..i], HasInvalidDates)
    {
      assert acts[..i + 1][..i] == acts[..i];
      if acts[i].start.Some? && acts[i].finish.Some? {
        if acts[i].start.value > acts[i].finish.value {
          invalid := invalid + 1;
        }
      }
    }
    assert acts[..|acts|] == acts;
    var total := |acts|;
    var score := if invalid == 0 then 100.0 else ClampedScore(invalid, total, 200.0);
    m := CountResult(score, invalid, total);
  }
}
