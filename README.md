# DCMA 14-point schedule analyzer, modelled in Dafny

This project models the analysis engine of a P6 XER schedule-quality service: the
`DCMAAnalyzer` class of `app.py`. The analyzer gathers the activities of every project of a
parsed schedule into one list. From that list it computes ten DCMA metrics:

- missing logic
- leads
- lags
- relationship types
- hard constraints
- high float
- negative float
- high duration
- invalid dates
- resource loading

Each metric counts the activities, or the predecessor relationships, that meet a condition. It
then turns that count into a 0-100 score, with a fixed fallback when the denominator is zero. The
analyzer averages the ten scores into an overall score and emits prioritised recommendations
from a fixed sequence of threshold checks.

Modules:

- `Schedule` (schedule.dfy) holds the activity and relationship datatypes, the flattening of
  projects, and the counting and filtering vocabulary (`CountWhere` is `len([x for x in s if p(x)])`,
  `Filter` is the comprehension itself). Optional fields are `Option`s. Python truthiness is spelt
  out: a zero or absent float, duration or lag never counts, and neither does an empty constraint
  string.
- `Metrics` (metrics.dfy) holds the ten metrics. The source computes missing logic, high float,
  negative float, high duration, hard constraints and resources with comprehensions, so they are
  functions. It computes leads, lags, relationship types and invalid dates with counting loops, so
  they are methods, each proved equal to a specification function. This module also holds the
  overall score and the properties of each score.
- `Recommendations` (recommendations.dfy) holds the six threshold checks, as a method that appends
  entries and as the specification it is proved against, plus their ordering, completeness and
  critical-issue count.
- `Analyzer` (analyzer.dfy) holds the `DCMAAnalyzer` class. Its `activities` field is built by a
  loop in the constructor, and `Analyze` returns the error record or the report.

Scores are exact reals. Thresholds are 44 days for float and duration and 20 days for lag.

## Model

| member | source | states |
|---|---|---|
| `Analyzer.DCMAAnalyzer.constructor` | app.py:22-27 | the activity list is every project's activities concatenated in project order; it is empty exactly when no project has an activity |
| `Analyzer.DCMAAnalyzer.Analyze` | app.py:29-67 | an empty activity list gives the error record "No activities found in XER file" and nothing else; otherwise the report holds the ten metrics of the list, their mean (a percentage), the recommendations of those metrics, the activity count, and a critical-issue count equal to the number of high-priority entries, at most 2 |
| `Schedule.Flatten` | app.py:25-27 | the flattened list is as long as the projects' activity counts summed |
| `Schedule.FlattenMembers` | app.py:25-27 | an activity is in the flattened list iff it belongs to some project |
| `Schedule.FlattenEmpty` | app.py:25-27 | the flattened list is empty iff every project is empty, which is when `analyze` fails |
| `Schedule.CountWhere` | app.py:77-78 | a comprehension count is at most the list length, 0 iff no element qualifies, the full length iff all do |
| `Schedule.Filter` | app.py:72-75 | the filtered list has as many elements as qualify; each of its elements is a qualifying element of the input, and every qualifying element of the input is in it |
| `Schedule.CountWhereFilter` | app.py:72-78 | counting over a filtered list counts the input's elements that meet both conditions |
| `Metrics.ClampedScore` | app.py:100 | `max(0, 100 - count/total*weight)` is a percentage whatever the count |
| `Metrics.TotalRelationships` | app.py:168 | the relationship total is 0 exactly when no activity has a predecessor |
| `Metrics.RelCountWhere` | app.py:162-166 | the relationships meeting a predicate never outnumber all predecessor relationships |
| `Metrics.MissingLogic` | app.py:69-88 | the denominator is the number of non-milestone activities; the two counts are the non-milestone activities of the whole list without predecessors and without successors, each at most the denominator; score in [0,100]; 0 when there is no regular activity |
| `Metrics.LogicOf` | app.py:77-81 | over the regular activities: the counts are bounded by their number and the score is a percentage, 0 for none |
| `Metrics.MissingLogicOnlyRegular` | app.py:72-75 | removing milestones beforehand changes no part of the missing-logic result |
| `Metrics.MissingLogicIgnoresMilestone` | app.py:72-79 | a milestone inserted anywhere, whatever relationships it lacks, leaves the missing-logic result unchanged |
| `Metrics.MissingLogicClamp` | app.py:81 | the numerator is at most twice the total; the score is the plain formula while the numerator is at most the total, and is clamped to 0 beyond |
| `Metrics.MissingLogicNumeratorReachesTwice` | app.py:77-81 | some schedule reaches that bound: one regular activity with no links gives a numerator of 2 over a total of 1, a plain formula of -100 and a clamped score of 0 |
| `Metrics.HighFloat` | app.py:90-107 | counts activities with float above 44 days over all activities; score in [0,100]; 0 when there is no activity |
| `Metrics.NegativeFloat` | app.py:109-123 | counts activities with negative float over all activities; score in [0,100] |
| `Metrics.HighDuration` | app.py:125-142 | counts activities longer than 44 days over all activities; score in [0,100]; 0 when there is no activity |
| `Metrics.HardConstraints` | app.py:144-158 | counts activities with a non-empty constraint other than `CS_ASAP`; score in [0,100]; 0 when there is no activity |
| `Metrics.Leads` | app.py:160-175 | counts negative-lag relationships over all predecessor relationships; score in [0,100]; 100 with no relationships |
| `Metrics.Lags` | app.py:177-194 | counts lags above 20 days over all predecessor relationships; score in [0,100]; 100 with no relationships |
| `Metrics.RelationshipTypes` | app.py:196-213 | counts non finish-to-start links; the score lies in [50,100] and is 100 iff there is none |
| `Metrics.InvalidDates` | app.py:215-231 | counts activities with both dates and start after finish, over all activities; score in [0,100] |
| `Metrics.ResourceLoading` | app.py:233-248 | counts activities with at least one resource over all activities; score in [0,100]; 0 when there is no activity |
| `Metrics.ComputeMetrics` | app.py:38-49 | every score of the metrics mapping is a percentage and relationship types is at least 50 |
| `Metrics.MeanBounds` | app.py:53 | a mean of values in [lo,hi] lies in [lo,hi] |
| `Metrics.OverallScore` | app.py:52-53 | the overall score of well-formed metrics is in [0,100] |
| `Metrics.OverallScoreIsMean` | app.py:52-53 | the overall score is the unweighted mean of the ten metric scores |
| `Metrics.PlainShareScores` | app.py:94-152 | high float, high duration and hard constraints never reach the clamp: score = 100 - count/total*100, 100 iff nothing counted, 0 iff everything counted |
| `Metrics.DoubleWeightScores` | app.py:117-225 | negative float and invalid dates score 100 iff the count is 0; otherwise the score is `max(0, 100 - count/total*200)`, strictly below 100 |
| `Metrics.LeadsAndLagsScores` | app.py:160-188 | with relationships present the lead and lag scores are 100 - count/total*100, 100 iff nothing counted; leads plus excessive lags never exceed the relationships |
| `Metrics.LeadsLagsDisjoint` | app.py:165-184 | the lead count plus the excessive-lag count never exceeds the number of predecessor relationships, since no relationship is both |
| `Metrics.ResourcesIsRate` | app.py:235-241 | the resource score is the unclamped rate count/total*100; 100 iff every activity has a resource, 0 iff none does |
| `Metrics.AnalyzeLeads` | app.py:160-175 | the nested counting loop yields exactly the leads metric |
| `Metrics.AnalyzeLags` | app.py:177-194 | the nested counting loop yields exactly the lags metric |
| `Metrics.AnalyzeRelationshipTypes` | app.py:196-213 | the nested loop counting both relationships and non-FS links yields exactly the relationship-types metric |
| `Metrics.AnalyzeInvalidDates` | app.py:215-231 | the counting loop yields exactly the invalid-dates metric |
| `Recommendations.HighCount` | app.py:64 | the critical-issue count is at most the number of entries, and 0 exactly when no entry has high priority |
| `Recommendations.Fire` | app.py:254-300 | running a list of checks yields at most one entry per check, each being its category's entry (priority and figure) |
| `Recommendations.RecommendationsFor` | app.py:250-302 | the six checks yield at most six entries |
| `Recommendations.FireMembers` | app.py:254-300 | each fired entry belongs to a triggered check and carries that check's entry; every triggered check fires |
| `Recommendations.FireOrdered` | app.py:254-300 | checks run in ascending order fire entries in ascending order |
| `Recommendations.RecommendationsSpec` | app.py:250-302 | entries appear in the order Logic, Schedule, Float, Duration, Constraints, Resources; a category appears iff its threshold holds; each has its fixed priority and live figure |
| `Recommendations.HighPriorityFirst` | app.py:254-268 | high-priority entries precede all others |
| `Recommendations.CriticalIssues` | app.py:64 | the critical-issue count is [logic score < 80] + [negative-float count > 0], so at most 2 |
| `Recommendations.GenerateRecommendations` | app.py:250-302 | the six appending checks produce exactly the specified recommendation list |
| `Recommendations.FireUnrolled` | app.py:254-300 | the recommendation list is the six checks' contributions concatenated in check order |

## Left out

- The HTTP layer (`/health`, `/parse`, `/analyze`, `/`) and the XER parser library are not part of this model. The parser's output is modelled as a sequence of `Project`s, each holding a sequence of `Activity`s. The analyzer's reference to the parser object (`self.xer`) is not kept.
- Activity identity, name and status are not modelled, because no metric reads them. Resource assignments are modelled only as a list of identifiers.
- The `analyzedAt` timestamp is left out because it reads the clock.
- Scores are exact reals, not binary floating point. `round(score, 2)` is not modelled.
- The recommendation thresholds (80, 70, 85, 50) are compared against the exact score, while the source compares against the rounded score. The two can disagree at a boundary: an exact score of 79.996 rounds to 80.0, so the source emits no Logic entry, but the model does.
- Recommendation `message` and `action` texts are reduced to the number the message interpolates (`figure`). The `:.1f` formatting of the resource rate is left out.
- The per-metric records drop the constant `threshold` entries. The resource record's `resourceAssignmentRate` is the same value as its score.
- The lags record carries the relationship total like the other relationship metrics, although the source's lags dictionary does not report it.
- Determinism of `analyze` (two calls on one snapshot give the same metrics and overall score) is not stated as a separate lemma. It follows from `Analyze`'s postcondition, which fixes every field of the report as a function of `activities`.
- The model follows the code in two places where a reader might expect otherwise. Invalid dates divides by all activities, not only by those with both dates (app.py:224). A constraint counts only when it is present, non-empty and not `CS_ASAP` (app.py:148).
