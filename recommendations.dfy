/** Recommendation generation (app.py:250-302): a fixed sequence of threshold
    checks over the metrics mapping, each appending one prioritised entry. */
module Recommendations {
  import opened Metrics

  datatype Category = Logic | Schedule | Float | Duration | Constraints | Resources
  datatype Priority = High | Medium | Low

  /** One recommendation; `figure` is the live number the source interpolates
      into its message (a count, or the resource assignment rate). */
  datatype Recommendation = Recommendation(category: Category, priority: Priority, figure: real)

  /** The order in which the checks run. */
  const CheckOrder: seq<Category> := [Logic, Schedule, Float, Duration, Constraints, Resources]

  /** Position of a category in `CheckOrder`. */
  function Rank(c: Category): nat {
    match c
    case Logic => 0
    case Schedule => 1
    case Float => 2
    case Duration => 3
    case Constraints => 4
    case Resources => 5
  }

  /** The threshold condition of each check. */
  predicate Triggered(c: Category, m: MetricsReport) {
    match c
    case Logic => m.logic.score < 80.0
    case Schedule => m.negativeFloat.count > 0
    case Float => m.highFloat.score < 70.0
    case Duration => m.highDuration.score < 70.0
    case Constraints => m.hardConstraints.score < 85.0
    case Resources => m.resources.score < 50.0
  }

  function PriorityOf(c: Category): Priority {
    match c
    case Logic | Schedule => High
    case Float | Duration | Constraints => Medium
    case Resources => Low
  }

  /** The number each message interpolates. */
  function FigureOf(c: Category, m: MetricsReport): real {
    match c
    case Logic => (m.logic.withoutPredecessors + m.logic.withoutSuccessors) as real
    case Schedule => m.negativeFloat.count as real
    case Float => m.highFloat.count as real
    case Duration => m.highDuration.count as real
    case Constraints => m.hardConstraints.count as real
    case Resources => m.resources.score
  }

  function Entry(c: Category, m: MetricsReport): Recommendation {
    Recommendation(c, PriorityOf(c), FigureOf(c, m))
  }

  /** What one check contributes: its entry when its condition holds. */
  function Step(c: Category, m: MetricsReport): seq<Recommendation> {
    if Triggered(c, m) then [Entry(c, m)] else []
  }

  /** The entries produced by running the checks of `cs` in order. */
  function Fire(cs: seq<Category>, m: MetricsReport): (r: seq<Recommendation>)
    ensures |r| <= |cs|
    ensures forall i :: 0 <= i < |r| ==> r[i] == Entry(r[i].category, m)
  {
    if |cs| == 0 then [] else Step(cs[0], m) + Fire(cs[1..], m)
  }

  /** The recommendation list for a metrics mapping. */
  function RecommendationsFor(m: MetricsReport): (r: seq<Recommendation>)
    ensures |r| <= 6
  {
    Fire(CheckOrder, m)
  }

  /** Number of high-priority entries (`criticalIssues`). */
  function HighCount(recs: seq<Recommendation>): (n: nat)
    ensures n <= |recs|
    ensures n == 0 <==> forall i :: 0 <= i < |recs| ==> recs[i].priority != High
  {
    if |recs| == 0 then 0
    else (if recs[0].priority == High then 1 else 0) + HighCount(recs[1..])
  }

  /** Every entry fired from `cs` is the entry of a triggered category of `cs`,
      and every triggered category of `cs` fires. */
  lemma {:induction false} FireMembers(cs: seq<Category>, m: MetricsReport)
    ensures forall i :: 0 <= i < |Fire(cs, m)| ==>
      Fire(cs, m)[i] == Entry(Fire(cs, m)[i].category, m) && Fire(cs, m)[i].category in cs && Triggered(Fire(cs, m)[i].category, m)
    ensures forall c :: c in cs && Triggered(c, m) ==> exists i :: 0 <= i < |Fire(cs, m)| && Fire(cs, m)[i].category == c
  {
    if |cs| > 0 {
      FireMembers(cs[1..], m);
      var head := Step(cs[0], m);
      assert Fire(cs, m) == head + Fire(cs[1..], m);
      forall c | c in cs && Triggered(c, m)
        ensures exists i :: 0 <= i < |Fire(cs, m)| && Fire(cs, m)[i].category == c
      {
        if c == cs[0] {
          assert Fire(cs, m)[0].category == c;
        } else {
          assert c in cs[1..];
          var i :| 0 <= i < |Fire(cs[1..], m)| && Fire(cs[1..], m)[i].category == c;
          assert Fire(cs, m)[|head| + i].category == c;
        }
      }
    }
  }

  /** Checks run in ascending rank fire entries in ascending rank. */
  lemma {:induction false} FireOrdered(cs: seq<Category>, m: MetricsReport)
    requires forall i, j :: 0 <= i < j < |cs| ==> Rank(cs[i]) < Rank(cs[j])
    ensures forall i, j :: 0 <= i < j < |Fire(cs, m)| ==> Rank(Fire(cs, m)[i].category) < Rank(Fire(cs, m)[j].category)
  {
    if |cs| > 0 {
      FireOrdered(cs[1..], m);
      FireMembers(cs[1..], m);
      var rest := Fire(cs[1..], m);
      forall k | 0 <= k < |rest|
        ensures Rank(cs[0]) < Rank(rest[k].category)
      {
        var c := rest[k].category;
        assert c in cs[1..];
        var t :| 0 <= t < |cs[1..]| && cs[1..][t] == c;
        assert cs[t + 1] == c;
      }
    }
  }

  /** The recommendations appear in the fixed order Logic, Schedule, Float,
      Duration, Constraints, Resources; a category appears exactly when its
      threshold condition holds, with its fixed priority and its live figure. */
  lemma RecommendationsSpec(m: MetricsReport)
    ensures var recs := RecommendationsFor(m);
      && (forall i, j :: 0 <= i < j < |recs| ==> Rank(recs[i].category) < Rank(recs[j].category))
      && (forall c :: Triggered(c, m) <==> exists i :: 0 <= i < |recs| && recs[i].category == c)
      && (forall i :: 0 <= i < |recs| ==>
            recs[i].priority == PriorityOf(recs[i].category) && recs[i].figure == FigureOf(recs[i].category, m))
  {
    FireOrdered(CheckOrder, m);
    FireMembers(CheckOrder, m);
    forall c ensures c in CheckOrder {
      assert CheckOrder[Rank(c)] == c;
    }
  }

  /** High-priority entries come before all others. */
  lemma HighPriorityFirst(m: MetricsReport)
    ensures var recs := RecommendationsFor(m);
      forall i, j :: 0 <= i < j < |recs| && recs[j].priority == High ==> recs[i].priority == High
  {
    RecommendationsSpec(m);
  }

  lemma {:induction false} HighCountAppend(a: seq<Recommendation>, b: seq<Recommendation>)
    ensures HighCount(a + b) == HighCount(a) + HighCount(b)
  {
    if |a| > 0 {
      assert (a + b)[1..] == a[1..] + b;
      HighCountAppend(a[1..], b);
    } else {
      assert a + b == b;
    }
  }

  /** One check contributes one critical issue when it fires with high priority. */
  lemma StepHighCount(c: Category, m: MetricsReport)
    ensures HighCount(Step(c, m)) == if Triggered(c, m) && PriorityOf(c) == High then 1 else 0
  {
    if Triggered(c, m) {
      assert Step(c, m)[1..] == [];
    }
  }

  /** `criticalIssues` is one per triggered high check (Logic, Schedule), so at most 2. */
  lemma CriticalIssues(m: MetricsReport)
    ensures HighCount(RecommendationsFor(m)) ==
      (if m.logic.score < 80.0 then 1 else 0) + (if m.negativeFloat.count > 0 then 1 else 0)
    ensures HighCount(RecommendationsFor(m)) <= 2
  {
    var l, s, f := Step(Logic, m), Step(Schedule, m), Step(Float, m);
    var d, c, r := Step(Duration, m), Step(Constraints, m), Step(Resources, m);
    FireUnrolled(m);
    StepHighCount(Logic, m);
    StepHighCount(Schedule, m);
    StepHighCount(Float, m);
    StepHighCount(Duration, m);
    StepHighCount(Constraints, m);
    StepHighCount(Resources, m);
    HighCountAppend(l, s);
    HighCountAppend(l + s, f);
    HighCountAppend(l + s + f, d);
    HighCountAppend(l + s + f + d, c);
    HighCountAppend(l + s + f + d + c, r);
  }

  /** `_generate_recommendations`: six threshold checks, each appending one entry. */
  method GenerateRecommendations(m: MetricsReport) returns (recs: seq<Recommendation>)
    ensures recs == RecommendationsFor(m)
  {
    recs := [];
    if m.logic.score < 80.0 {
      recs := recs + [Recommendation(Logic, High, (m.logic.withoutPredecessors + m.logic.withoutSuccessors) as real)];
    }
    assert recs == Step(Logic, m);
    if m.negativeFloat.count > 0 {
      recs := recs + [Recommendation(Schedule, High, m.negativeFloat.count as real)];
    }
    assert recs == Step(Logic, m) + Step(Schedule, m);
    if m.highFloat.score < 70.0 {
      recs := recs + [Recommendation(Float, Medium, m.highFloat.count as real)];
    }
    assert recs == Step(Logic, m) + Step(Schedule, m) + Step(Float, m);
    if m.highDuration.score < 70.0 {
      recs := recs + [Recommendation(Duration, Medium, m.highDuration.count as real)];
    }
    assert recs == Step(Logic, m) + Step(Schedule, m) + Step(Float, m) + Step(Duration, m);
    if m.hardConstraints.score < 85.0 {
      recs := recs + [Recommendation(Constraints, Medium, m.hardConstraints.count as real)];
    }
    assert recs == Step(Logic, m) + Step(Schedule, m) + Step(Float, m) + Step(Duration, m) + Step(Constraints, m);
    if m.resources.score < 50.0 {
      recs := recs + [Recommendation(Resources, Low, m.resources.score)];
    }
    FireUnrolled(m);
  }

  /** `Fire` over the check order, written out check by check. */
  lemma FireUnrolled(m: MetricsReport)
    ensures RecommendationsFor(m) ==
      Step(Logic, m) + Step(Schedule, m) + Step(Float, m) + Step(Duration, m) + Step(Constraints, m) + Step(Resources, m)
  {
    var c5 := [Resources];
    var c4 := [Constraints] + c5;
    var c3 := [Duration] + c4;
    var c2 := [Float] + c3;
    var c1 := [Schedule] + c2;
    var c0 := [Logic] + c1;
    assert c0 == CheckOrder;
    assert c5[1..] == [] && c4[1..] == c5 && c3[1..] == c4 && c2[1..] == c3 && c1[1..] == c2 && c0[1..] == c1;
    assert Fire(c5, m) == Step(Resources, m);
    assert Fire(c4, m) == Step(Constraints, m) + Fire(c5, m);
    assert Fire(c3, m) == Step(Duration, m) + Fire(c4, m);
    assert Fire(c2, m) == Step(Float, m) + Fire(c3, m);
    assert Fire(c1, m) == Step(Schedule, m) + Fire(c2, m);
    assert Fire(c0, m) == Step(Logic, m) + Fire(c1, m);
  }
}
