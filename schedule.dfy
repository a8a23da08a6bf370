/** The read-only view of a parsed P6 schedule that the DCMA analyzer consumes:
    projects, their activities and the predecessor/successor relationships of
    each activity, plus the counting and filtering vocabulary the metrics use. */
module Schedule {

  datatype Option<+T> = None | Some(value: T)

  /** P6 task types; only the two milestone kinds matter to the analyzer. */
  datatype TaskType = Task | StartMilestone | FinishMilestone | OtherTaskType

  /** P6 relationship link types (PR_FS, PR_SS, PR_FF, PR_SF, anything else). */
  datatype LinkType = FinishToStart | StartToStart | FinishToFinish | StartToFinish | OtherLink

  /** A logical dependency; a negative lag is a lead. Lag is in days. */
  datatype Relationship = Relationship(link: LinkType, lag: Option<real>)

  /** One schedule activity. Durations and float are in days, dates are day numbers;
      every optional field is None when the schedule does not carry it. */
  datatype Activity = Activity(
    taskType: TaskType,
    duration: Option<real>,
    totalFloat: Option<real>,
    constraintType: Option<string>,
    start: Option<int>,
    finish: Option<int>,
    predecessors: seq<Relationship>,
    successors: seq<Relationship>,
    resources: seq<nat>)

  datatype Project = Project(activities: seq<Activity>)

  /** Python truthiness of an optional number: present and non-zero. */
  predicate Truthy(x: Option<real>) {
    x.Some? && x.value != 0.0
  }

  /** Python truthiness of an optional string: present and non-empty. */
  predicate TruthyText(x: Option<string>) {
    x.Some? && x.value != ""
  }

  /** The activities of all projects, project after project, each in its own
      order: flattening loses and invents no activity. */
  function Flatten(projects: seq<Project>): (r: seq<Activity>)
    ensures |r| == ActivityTotal(projects)
  {
    if |projects| == 0 then []
    else Flatten(projects[..|projects| - 1]) + projects[|projects| - 1].activities
  }

  /** Sum of the projects' activity counts. */
  function ActivityTotal(projects: seq<Project>): nat
  {
    if |projects| == 0 then 0
    else ActivityTotal(projects[..|projects| - 1]) + |projects[|projects| - 1].activities|
  }

  /** Every activity of every project appears in the flattened list, and nothing else does. */
  lemma {:induction false} FlattenMembers(projects: seq<Project>, a: Activity)
    ensures a in Flatten(projects) <==> exists k :: 0 <= k < |projects| && a in projects[k].activities
  {
    if |projects| > 0 {
      var front := projects[..|projects| - 1];
      FlattenMembers(front, a);
      if a in Flatten(projects) {
        if a !in Flatten(front) {
          assert a in projects[|projects| - 1].activities;
        } else {
          var k :| 0 <= k < |front| && a in front[k].activities;
          assert projects[k] == front[k];
        }
      } else {
        forall k | 0 <= k < |projects|
          ensures a !in projects[k].activities
        {
          if k < |front| {
            assert projects[k] == front[k];
          }
        }
      }
    }
  }

  /** The flattened list is empty exactly when no project has an activity. */
  lemma {:induction false} FlattenEmpty(projects: seq<Project>)
    ensures |Flatten(projects)| == 0 <==> forall k :: 0 <= k < |projects| ==> |projects[k].activities| == 0
  {
    if |projects| > 0 {
      var front := projects[..|projects| - 1];
      FlattenEmpty(front);
      assert |Flatten(projects)| == |Flatten(front)| + |projects[|projects| - 1].activities|;
      assert forall k :: 0 <= k < |front| ==> front[k] == projects[k];
    }
  }

  /** The length of `[x for x in s if p(x)]`. */
  function CountWhere<T>(s: seq<T>, p: T -> bool): (n: nat)
    ensures n <= |s|
    ensures n == 0 <==> forall i :: 0 <= i < |s| ==> !p(s[i])
    ensures n == |s| <==> forall i :: 0 <= i < |s| ==> p(s[i])
  {
    if |s| == 0 then 0
    else CountWhere(s[..|s| - 1], p) + (if p(s[|s| - 1]) then 1 else 0)
  }

  /** Counting distributes over concatenation. */
  lemma {:induction false} CountWhereAppend<T>(a: seq<T>, b: seq<T>, p: T -> bool)
    ensures CountWhere(a + b, p) == CountWhere(a, p) + CountWhere(b, p)
  {
    if |b| > 0 {
      var b' := b[..|b| - 1];
      assert (a + b)[..|a + b| - 1] == a + b';
      CountWhereAppend(a, b', p);
    } else {
      assert a + b == a;
    }
  }

  /** Two predicates that never hold together count at most every element once. */
  lemma {:induction false} CountWhereDisjoint<T>(s: seq<T>, p: T -> bool, q: T -> bool)
    requires forall x :: !(p(x) && q(x))
    ensures CountWhere(s, p) + CountWhere(s, q) <= |s|
  {
    if |s| > 0 {
      CountWhereDisjoint(s[..|s| - 1], p, q);
    }
  }

  /** `[x for x in s if p(x)]`. */
  function Filter<T>(s: seq<T>, p: T -> bool): (r: seq<T>)
    ensures |r| == CountWhere(s, p)
    ensures forall i :: 0 <= i < |r| ==> p(r[i]) && r[i] in s
    ensures forall i :: 0 <= i < |s| && p(s[i]) ==> s[i] in r
  {
    if |s| == 0 then []
    else Filter(s[..|s| - 1], p) + (if p(s[|s| - 1]) then [s[|s| - 1]] else [])
  }

  /** Counting the elements of a filtered list that meet `q` counts the
      elements of the whole list that meet both predicates. */
  lemma {:induction false} CountWhereFilter<T>(s: seq<T>, p: T -> bool, q: T -> bool, both: T -> bool)
    requires forall x :: both(x) == (p(x) && q(x))
    ensures CountWhere(Filter(s, p), q) == CountWhere(s, both)
  {
    if |s| > 0 {
      var front, last := s[..|s| - 1], s[|s| - 1];
      CountWhereFilter(front, p, q, both);
      var tail := if p(last) then [last] else [];
      CountWhereAppend(Filter(front, p), tail, q);
      if p(last) {
        assert tail[..0] == [];
      }
    }
  }

  /** Filtering distributes over concatenation. */
  lemma {:induction false} FilterAppend<T>(a: seq<T>, b: seq<T>, p: T -> bool)
    ensures Filter(a + b, p) == Filter(a, p) + Filter(b, p)
  {
    if |b| > 0 {
      var b' := b[..|b| - 1];
      assert (a + b)[..|a + b| - 1] == a + b';
      FilterAppend(a, b', p);
    } else {
      assert a + b == a;
    }
  }

  /** Filtering a second time with the same predicate changes nothing. */
  lemma {:induction false} FilterIdempotent<T>(s: seq<T>, p: T -> bool)
    ensures Filter(Filter(s, p), p) == Filter(s, p)
  {
    if |s| > 0 {
      var front := s[..|s| - 1];
      FilterIdempotent(front, p);
      var tail := if p(s[|s| - 1]) then [s[|s| - 1]] else [];
      FilterAppend(Filter(front, p), tail, p);
    }
  }
}
