/**
 * What the FocusFox planner promises, proved about its specification
 * functions: the truncation length, order and fields kept, the rounding bound
 * per task and the uncorrected drift of the total, the hours/minutes split,
 * the zero budget, the error cases, and the mood handling.
 */
module FocusFoxProperties {
  import opened Wrappers
  import opened Text
  import opened Rounding
  import opened FocusFox

  /** A task whose fields are all present and whose estimate is not negative. */
  predicate WellFormedTask(t: TaskItem) {
    t.estimatedTime.Some? && t.priority.Some? &&
    t.estimatedTime.value.hours >= 0 && t.estimatedTime.value.minutes >= 0
  }

  /** The allocated minutes of each plan entry. */
  function Allocated(plan: seq<PlanEntry>): (a: seq<int>)
    ensures |a| == |plan|
  {
    seq(|plan|, i requires 0 <= i < |plan| => ToMinutes(plan[i].time.hours, plan[i].time.minutes))
  }

  // ---------- Arithmetic helpers ----------

  lemma MulAddRight(x: int, y: int, c: int)
    ensures (x + y) * c == x * c + y * c
  {
  }

  lemma MulTwice(y: int, c: int)
    ensures (2 * y) * c == 2 * (y * c)
  {
  }

  /** Dividing both sides of x * c <= y * c by a positive c. */
  lemma CancelPositive(x: int, y: int, c: int)
    requires c > 0 && x * c <= y * c
    ensures x <= y
  {
    if x > y {
      MulNatBound(x - y, c);
      MulSub(x, y, c);
    }
  }

  /** Sum over a list of positive scores is at least its length. */
  lemma {:induction false} SumOfPositives(s: seq<int>)
    requires forall i :: 0 <= i < |s| ==> s[i] >= 1
    ensures Sum(s) >= |s|
  {
    if s != [] {
      SumOfPositives(s[..|s| - 1]);
    }
  }

  /**
   * Summing per-task errors: if every a[i] is within half of s[i] * n / d,
   * the sum of a is within |a| halves of Sum(s) * n / d.
   */
  lemma {:induction false} SumErrorBound(a: seq<int>, s: seq<int>, d: int, n: int)
    requires |a| == |s| && d != 0
    requires forall i :: 0 <= i < |a| ==> Abs(2 * (a[i] * d - s[i] * n)) <= Abs(d)
    ensures Abs(2 * (Sum(a) * d - Sum(s) * n)) <= |a| * Abs(d)
  {
    if a != [] {
      var k := |a| - 1;
      SumErrorBound(a[..k], s[..k], d, n);
      MulAddRight(Sum(a[..k]), a[k], d);
      MulAddRight(Sum(s[..k]), s[k], n);
      MulAddRight(k, 1, Abs(d));
    }
  }

  // ---------- The shape of a successful plan ----------

  /** A successful ShareOut lists one entry per kept task, built from that task's score. */
  lemma ShareOutEntries(kept: seq<TaskItem>, minutes: int)
    requires ShareOut(kept, minutes).Ok? && kept != []
    ensures Scores(kept).Ok? && |Scores(kept).value| == |kept|
    ensures Sum(Scores(kept).value) != 0
    ensures |ShareOut(kept, minutes).value| == |kept|
    ensures forall i :: 0 <= i < |kept| ==>
      kept[i].priority.Some? &&
      ShareOut(kept, minutes).value[i] == MakeEntry(kept[i], Scores(kept).value[i], Sum(Scores(kept).value), minutes)
  {
    ScoresOk(kept);
  }

  /**
   * The plan keeps min(|tasks|, 3) tasks for a tired, stressed or lazy mood
   * (in any case) and min(|tasks|, 5) otherwise, so it is never longer than the input.
   */
  lemma PlanLength(tasks: seq<TaskItem>, mood: string, available: TimeAvailable)
    requires PlanSpec(tasks, mood, available).Ok?
    ensures |PlanSpec(tasks, mood, available).value| ==
      if Lower(mood) in CappedMoods then Min(|tasks|, 3) else Min(|tasks|, 5)
    ensures |PlanSpec(tasks, mood, available).value| <= |tasks|
  {
    var kept := Truncate(tasks, mood);
    if kept != [] {
      ShareOutEntries(kept, ToMinutes(available.hours, available.minutes));
    }
  }

  /** An empty task list gives an empty plan, whatever the mood and budget; nothing is divided. */
  lemma EmptyTasksEmptyPlan(mood: string, available: TimeAvailable)
    ensures PlanSpec([], mood, available) == Ok([])
  {
  }

  /**
   * Entry i is the i-th input task: its name and its priority string exactly
   * as given (not lower-cased), so the input order is kept.
   */
  lemma PlanKeepsOrderAndFields(tasks: seq<TaskItem>, mood: string, available: TimeAvailable, i: int)
    requires PlanSpec(tasks, mood, available).Ok?
    requires 0 <= i < |PlanSpec(tasks, mood, available).value|
    ensures i < |tasks|
    ensures PlanSpec(tasks, mood, available).value[i].task == tasks[i].name
    ensures Some(PlanSpec(tasks, mood, available).value[i].priority) == tasks[i].priority
  {
    var kept := Truncate(tasks, mood);
    ShareOutEntries(kept, ToMinutes(available.hours, available.minutes));
  }

  // ---------- Errors ----------

  /** Well-formed tasks never make the planner raise: every score is positive, so the total is too. */
  lemma WellFormedTasksNeverFail(tasks: seq<TaskItem>, mood: string, available: TimeAvailable)
    requires forall i :: 0 <= i < |tasks| ==> WellFormedTask(tasks[i])
    ensures PlanSpec(tasks, mood, available).Ok?
  {
    var kept := Truncate(tasks, mood);
    if kept != [] {
      ScoresOk(kept);
      var scores := Scores(kept).value;
      assert forall i :: 0 <= i < |scores| ==> scores[i] >= 1 by {
        forall i | 0 <= i < |scores| ensures scores[i] >= 1 {
          assert kept[i] == tasks[i];
          assert Score(kept[i]) == Ok(scores[i]);
        }
      }
      SumOfPositives(scores);
    }
  }

  /**
   * A kept task with an explicit null estimate or priority makes the planner
   * raise AttributeError; a null field past the truncation point is never read.
   */
  lemma NullFieldRaises(tasks: seq<TaskItem>, mood: string, available: TimeAvailable, i: int)
    requires 0 <= i < Min(|tasks|, TaskLimit(mood))
    requires tasks[i].estimatedTime.None? || tasks[i].priority.None?
    ensures PlanSpec(tasks, mood, available).Err?
    ensures PlanSpec(tasks, mood, available).error.AttributeError?
  {
    var kept := Truncate(tasks, mood);
    assert kept[i] == tasks[i];
    ScoresOk(kept);
  }

  /** A task of ten minutes at high priority and one of minus fifteen at medium priority. */
  const CancellingTasks: seq<TaskItem> :=
    [TaskItem("a", Some(TimeEstimate(0, 10)), Some("high")), TaskItem("b", Some(TimeEstimate(0, -15)), Some("medium"))]

  /** Negative estimates can cancel out: scores 30 and -30 make the planner raise ZeroDivisionError. */
  lemma NegativeEstimateCanDivideByZero()
    ensures PlanSpec(CancellingTasks, "neutral", TimeAvailable()) == Err(ZeroDivisionError)
  {
    NeutralKeepsShortLists(CancellingTasks);
    assert PlanSpec(CancellingTasks, "neutral", TimeAvailable()) == ShareOut(CancellingTasks, 30);
    CancellingTasksScores();
  }

  lemma CancellingTasksScores()
    ensures Scores(CancellingTasks) == Ok([30, -30]) && Sum([30, -30]) == 0
  {
    TableWeights();
    assert Score(CancellingTasks[0]) == Ok(30);
    assert Score(CancellingTasks[1]) == Ok(-30);
    ScoresOfAll(CancellingTasks, [30, -30]);
    assert [30, -30][..1] == [30] && [30][..0] == [];
  }

  // ---------- Allocation ----------

  /**
   * Each entry's minutes are round-half-to-even of score * available / total:
   * within half a minute of the exact share, and even when the share ends in .5.
   */
  lemma AllocationWithinHalfMinute(tasks: seq<TaskItem>, mood: string, available: TimeAvailable, i: int)
    requires PlanSpec(tasks, mood, available).Ok?
    requires 0 <= i < |PlanSpec(tasks, mood, available).value|
    ensures Scores(Truncate(tasks, mood)).Ok?
    ensures i < |Scores(Truncate(tasks, mood)).value|
    ensures var scores := Scores(Truncate(tasks, mood)).value;
            var total := Sum(scores);
            var a := Allocated(PlanSpec(tasks, mood, available).value)[i];
            var share := scores[i] * ToMinutes(available.hours, available.minutes);
            total != 0 &&
            Abs(2 * (a * total - share)) <= Abs(total) &&
            (Abs(2 * (a * total - share)) == Abs(total) ==> a % 2 == 0)
  {
    var kept, minutes := Truncate(tasks, mood), ToMinutes(available.hours, available.minutes);
    assert PlanSpec(tasks, mood, available) == ShareOut(kept, minutes);
    ShareOutIsEntries(kept, minutes);
    var scores := Scores(kept).value;
    var plan := Entries(kept, scores, Sum(scores), minutes);
    assert plan[i] == MakeEntry(kept[i], scores[i], Sum(scores), minutes);
    assert Allocated(plan)[i] == Allocate(scores[i], Sum(scores), minutes);
  }

  /**
   * Adding up allocations that are each within half of their share of
   * `minutes`, where the shares' weights add up to `total`, lands within
   * half a minute per allocation of `minutes` itself.
   */
  lemma DriftFromErrors(a: seq<int>, scores: seq<int>, total: int, minutes: int)
    requires |a| == |scores| && total == Sum(scores) && total != 0
    requires forall i :: 0 <= i < |a| ==> Abs(2 * (a[i] * total - scores[i] * minutes)) <= Abs(total)
    ensures Abs(2 * (Sum(a) - minutes)) <= |a|
  {
    SumErrorBound(a, scores, total, minutes);
    var y := Sum(a) - minutes;
    MulSub(Sum(a), minutes, total);
    MulAbs(y, total);
    MulTwice(Abs(y), Abs(total));
    CancelPositive(2 * Abs(y), |a|, Abs(total));
  }

  /** A successful non-empty ShareOut is the Entries of the kept tasks' scores. */
  lemma ShareOutIsEntries(kept: seq<TaskItem>, minutes: int)
    requires ShareOut(kept, minutes).Ok? && kept != []
    ensures Scores(kept).Ok? && |Scores(kept).value| == |kept| && Sum(Scores(kept).value) != 0
    ensures forall i :: 0 <= i < |kept| ==> kept[i].priority.Some?
    ensures ShareOut(kept, minutes) == Ok(Entries(kept, Scores(kept).value, Sum(Scores(kept).value), minutes))
  {
    ScoresOk(kept);
  }

  /** The entries of the kept tasks add up to within half a minute per entry of `minutes`. */
  lemma KeptEntriesDrift(kept: seq<TaskItem>, scores: seq<int>, total: int, minutes: int)
    requires |scores| == |kept| && total == Sum(scores) && total != 0
    requires forall i :: 0 <= i < |kept| ==> kept[i].priority.Some?
    ensures Abs(2 * (Sum(Allocated(Entries(kept, scores, total, minutes))) - minutes))
            <= |Allocated(Entries(kept, scores, total, minutes))|
  {
    EntriesAllocations(kept, scores, total, minutes);
    DriftFromErrors(Allocated(Entries(kept, scores, total, minutes)), scores, total, minutes);
  }

  /** Each entry of the kept tasks is within half a minute of its exact share. */
  lemma EntriesAllocations(kept: seq<TaskItem>, scores: seq<int>, total: int, minutes: int)
    requires |scores| == |kept| && total != 0
    requires forall i :: 0 <= i < |kept| ==> kept[i].priority.Some?
    ensures |Allocated(Entries(kept, scores, total, minutes))| == |scores|
    ensures forall i :: 0 <= i < |scores| ==>
      Abs(2 * (Allocated(Entries(kept, scores, total, minutes))[i] * total - scores[i] * minutes)) <= Abs(total)
  {
    var a := Allocated(Entries(kept, scores, total, minutes));
    forall i | 0 <= i < |scores| ensures Abs(2 * (a[i] * total - scores[i] * minutes)) <= Abs(total) {
      assert a[i] == Allocate(scores[i], total, minutes);
    }
  }

  /** Drift of one ShareOut: its allocations add up to within half a minute per entry of `minutes`. */
  lemma ShareOutDrift(kept: seq<TaskItem>, minutes: int)
    requires ShareOut(kept, minutes).Ok? && ShareOut(kept, minutes).value != []
    ensures Abs(2 * (Sum(Allocated(ShareOut(kept, minutes).value)) - minutes)) <= |Allocated(ShareOut(kept, minutes).value)|
  {
    ShareOutIsEntries(kept, minutes);
    KeptEntriesDrift(kept, Scores(kept).value, Sum(Scores(kept).value), minutes);
  }

  /**
   * Rounding drift is not corrected: the allocated minutes of a non-empty
   * plan add up to the budget only to within half a minute per entry. (An
   * empty plan allocates nothing at all.)
   */
  lemma DriftWithinHalfMinutePerTask(tasks: seq<TaskItem>, mood: string, available: TimeAvailable)
    requires PlanSpec(tasks, mood, available).Ok? && PlanSpec(tasks, mood, available).value != []
    ensures Abs(2 * (Sum(Allocated(PlanSpec(tasks, mood, available).value)) - ToMinutes(available.hours, available.minutes)))
            <= |PlanSpec(tasks, mood, available).value|
  {
    var kept, minutes := Truncate(tasks, mood), ToMinutes(available.hours, available.minutes);
    assert PlanSpec(tasks, mood, available) == ShareOut(kept, minutes);
    ShareOutDrift(kept, minutes);
  }

  /** The table's own keys weigh 3, 2 and 1. */
  lemma TableWeights()
    ensures Weight("high") == 3 && Weight("medium") == 2 && Weight("low") == 1
  {
    LowerFixesLowerCase("high");
    LowerFixesLowerCase("medium");
    LowerFixesLowerCase("low");
  }

  /** The neutral mood keeps a list of up to five tasks whole. */
  lemma NeutralKeepsShortLists(tasks: seq<TaskItem>)
    requires |tasks| <= 5
    ensures Truncate(tasks, "neutral") == tasks
  {
    NotCapped("neutral");
  }

  /** The converse of ScoresOk: when every task scores, Scores lists exactly those scores. */
  lemma ScoresOfAll(ts: seq<TaskItem>, s: seq<int>)
    requires |ts| == |s|
    requires forall i :: 0 <= i < |ts| ==> Score(ts[i]) == Ok(s[i])
    ensures Scores(ts) == Ok(s)
  {
    ScoresOk(ts);
    assert Scores(ts).value == s;
  }

  /** The entry of a task whose allocation rounds to q minutes, for q under an hour. */
  lemma EntryUnderAnHour(t: TaskItem, score: int, total: int, minutes: int, q: int)
    requires total > 0 && t.priority.Some? && 0 <= q < 60
    requires Abs(2 * (q * total - score * minutes)) < total
    ensures MakeEntry(t, score, total, minutes) == PlanEntry(t.name, t.priority.value, Duration(0, q))
  {
    RoundHalfEvenUnique(score * minutes, total, q);
  }

  /** As EntryUnderAnHour, for an even q exactly half-way between two integers. */
  lemma TieEntryUnderAnHour(t: TaskItem, score: int, total: int, minutes: int, q: int)
    requires total > 0 && t.priority.Some? && 0 <= q < 60 && q % 2 == 0
    requires Abs(2 * (q * total - score * minutes)) == total
    ensures MakeEntry(t, score, total, minutes) == PlanEntry(t.name, t.priority.value, Duration(0, q))
  {
    RoundHalfEvenUnique(score * minutes, total, q);
  }

  /** Three tasks that take every default: the 0h0m estimate (raised to five minutes) and priority "medium". */
  const DefaultTasks: seq<TaskItem> := [TaskItem("a"), TaskItem("b"), TaskItem("c")]

  /** Three minutes each for the default tasks. */
  const DefaultTasksPlan: seq<PlanEntry> :=
    [PlanEntry("a", "medium", Duration(0, 3)), PlanEntry("b", "medium", Duration(0, 3)), PlanEntry("c", "medium", Duration(0, 3))]

  lemma DefaultTasksScores()
    ensures Scores(DefaultTasks) == Ok([10, 10, 10]) && Sum([10, 10, 10]) == 30
  {
    TableWeights();
    assert Score(DefaultTasks[0]) == Ok(10);
    assert Score(DefaultTasks[1]) == Ok(10);
    assert Score(DefaultTasks[2]) == Ok(10);
    ScoresOfAll(DefaultTasks, [10, 10, 10]);
    assert [10, 10, 10][..2] == [10, 10] && [10, 10][..1] == [10];
  }

  lemma DefaultTasksEntries()
    ensures forall j :: 0 <= j < |DefaultTasksPlan| ==>
      DefaultTasks[j].priority.Some? && DefaultTasksPlan[j] == MakeEntry(DefaultTasks[j], [10, 10, 10][j], 30, 10)
  {
    forall j | 0 <= j < |DefaultTasksPlan|
      ensures DefaultTasks[j].priority.Some? && DefaultTasksPlan[j] == MakeEntry(DefaultTasks[j], [10, 10, 10][j], 30, 10)
    {
      EntryUnderAnHour(DefaultTasks[j], 10, 30, 10, 3);
    }
  }

  /** Three equal tasks sharing ten minutes get three minutes each: nine in all, not ten. */
  lemma DriftExample()
    ensures PlanSpec(DefaultTasks, "neutral", TimeAvailable(0, 10)) == Ok(DefaultTasksPlan)
    ensures Sum(Allocated(DefaultTasksPlan)) == 9
  {
    NeutralKeepsShortLists(DefaultTasks);
    assert PlanSpec(DefaultTasks, "neutral", TimeAvailable(0, 10)) == ShareOut(DefaultTasks, 10);
    DefaultTasksScores();
    DefaultTasksEntries();
    ShareOutFromEntries(DefaultTasks, [10, 10, 10], 30, 10, DefaultTasksPlan);
    DefaultTasksPlanTotal();
  }

  lemma DefaultTasksPlanTotal()
    ensures Sum(Allocated(DefaultTasksPlan)) == 9
  {
    assert Allocated(DefaultTasksPlan) == [3, 3, 3];
    assert [3, 3, 3][..2] == [3, 3] && [3, 3][..1] == [3];
  }

  /** Two ten-minute tasks: one high priority, one low. */
  const HighLowTasks: seq<TaskItem> :=
    [TaskItem("A", Some(TimeEstimate(0, 10)), Some("high")), TaskItem("B", Some(TimeEstimate(0, 10)), Some("low"))]

  /** 22 and 8 minutes. */
  const HighLowPlan: seq<PlanEntry> :=
    [PlanEntry("A", "high", Duration(0, 22)), PlanEntry("B", "low", Duration(0, 8))]

  lemma HighLowTasksScores()
    ensures Scores(HighLowTasks) == Ok([30, 10]) && Sum([30, 10]) == 40
  {
    TableWeights();
    assert Score(HighLowTasks[0]) == Ok(30);
    assert Score(HighLowTasks[1]) == Ok(10);
    ScoresOfAll(HighLowTasks, [30, 10]);
    assert [30, 10][..1] == [30];
  }

  lemma HighLowEntries()
    ensures forall j :: 0 <= j < 2 ==>
      HighLowTasks[j].priority.Some? && HighLowPlan[j] == MakeEntry(HighLowTasks[j], [30, 10][j], 40, 30)
  {
    TieEntryUnderAnHour(HighLowTasks[0], 30, 40, 30, 22);
    TieEntryUnderAnHour(HighLowTasks[1], 10, 40, 30, 8);
  }

  /** Sharing thirty minutes in the ratio 3 : 1 gives 22.5 and 7.5, which round to 22 and 8. */
  lemma HalfToEvenExample()
    ensures PlanSpec(HighLowTasks, "neutral", TimeAvailable(0, 30)) == Ok(HighLowPlan)
  {
    NeutralKeepsShortLists(HighLowTasks);
    HighLowTasksScores();
    HighLowEntries();
    ShareOutFromEntries(HighLowTasks, [30, 10], 40, 30, HighLowPlan);
  }

  /** Well-formed tasks have scores of at least one each. */
  lemma WellFormedScoresPositive(tasks: seq<TaskItem>, mood: string)
    requires forall j :: 0 <= j < |tasks| ==> WellFormedTask(tasks[j])
    requires Scores(Truncate(tasks, mood)).Ok?
    ensures forall j :: 0 <= j < |Scores(Truncate(tasks, mood)).value| ==> Scores(Truncate(tasks, mood)).value[j] >= 1
  {
    var kept := Truncate(tasks, mood);
    ScoresOk(kept);
    var scores := Scores(kept).value;
    forall j | 0 <= j < |scores| ensures scores[j] >= 1 {
      assert kept[j] == tasks[j];
      assert Score(kept[j]) == Ok(scores[j]);
    }
  }

  /**
   * Every entry splits its minutes as divmod by 60 does: hours * 60 + minutes
   * is the allocation and 0 <= minutes < 60.
   */
  lemma HoursAndMinutesSplit(tasks: seq<TaskItem>, mood: string, available: TimeAvailable, i: int)
    requires PlanSpec(tasks, mood, available).Ok?
    requires 0 <= i < |PlanSpec(tasks, mood, available).value|
    ensures 0 <= PlanSpec(tasks, mood, available).value[i].time.minutes < 60
    ensures Scores(Truncate(tasks, mood)).Ok? && i < |Scores(Truncate(tasks, mood)).value|
    ensures Sum(Scores(Truncate(tasks, mood)).value) != 0
    ensures Allocated(PlanSpec(tasks, mood, available).value)[i] ==
      Allocate(Scores(Truncate(tasks, mood)).value[i], Sum(Scores(Truncate(tasks, mood)).value),
               ToMinutes(available.hours, available.minutes))
  {
    ShareOutEntries(Truncate(tasks, mood), ToMinutes(available.hours, available.minutes));
  }

  /** For well-formed tasks and a non-negative budget no entry has negative hours. */
  lemma HoursNotNegative(tasks: seq<TaskItem>, mood: string, available: TimeAvailable)
    requires forall j :: 0 <= j < |tasks| ==> WellFormedTask(tasks[j])
    requires available.hours >= 0 && available.minutes >= 0
    ensures PlanSpec(tasks, mood, available).Ok?
    ensures forall i :: 0 <= i < |PlanSpec(tasks, mood, available).value| ==>
      PlanSpec(tasks, mood, available).value[i].time.hours >= 0
  {
    WellFormedTasksNeverFail(tasks, mood, available);
    var plan := PlanSpec(tasks, mood, available).value;
    forall i | 0 <= i < |plan| ensures plan[i].time.hours >= 0 {
      HoursAndMinutesSplit(tasks, mood, available, i);
      var scores := Scores(Truncate(tasks, mood)).value;
      var minutes := ToMinutes(available.hours, available.minutes);
      WellFormedScoresPositive(tasks, mood);
      SumOfPositives(scores);
      MulNatBound(scores[i], minutes);
      RoundHalfEvenNonNegative(scores[i] * minutes, Sum(scores));
    }
  }

  /** A zero budget gives every entry zero hours and zero minutes. */
  lemma ZeroBudgetZeroTimes(tasks: seq<TaskItem>, mood: string, available: TimeAvailable, i: int)
    requires ToMinutes(available.hours, available.minutes) == 0
    requires PlanSpec(tasks, mood, available).Ok?
    requires 0 <= i < |PlanSpec(tasks, mood, available).value|
    ensures PlanSpec(tasks, mood, available).value[i].time == Duration(0, 0)
  {
    var kept := Truncate(tasks, mood);
    assert PlanSpec(tasks, mood, available) == ShareOut(kept, 0);
    ShareOutIsEntries(kept, 0);
    var scores := Scores(kept).value;
    EntryOfNothing(kept[i], scores[i], Sum(scores));
  }

  /** An entry that shares out no minutes gets 0 hours and 0 minutes. */
  lemma EntryOfNothing(t: TaskItem, score: int, total: int)
    requires total != 0 && t.priority.Some?
    ensures MakeEntry(t, score, total, 0).time == Duration(0, 0)
  {
    assert score * 0 == 0 * total;
    RoundHalfEvenExact(0, total);
  }

  // ---------- Scoring ----------

  /** The priority is matched without regard to case. */
  lemma WeightIgnoresCase(p: string)
    ensures Weight(p) == Weight(Lower(p))
  {
    LowerIdempotent(p);
  }

  /** A priority that is not high, medium or low (in any case) weighs as much as "medium". */
  lemma UnknownPriorityCountsAsMedium(p: string)
    requires Lower(p) !in PriorityWeights
    ensures Weight(p) == Weight("medium") == DefaultWeight
  {
    LowerFixesLowerCase("medium");
  }

  /** A task with an unknown priority scores exactly as the same task with priority "medium". */
  lemma UnknownPriorityScoresAsMedium(t: TaskItem)
    requires t.priority.Some? && Lower(t.priority.value) !in PriorityWeights
    ensures Score(t) == Score(t.(priority := Some("medium")))
  {
    UnknownPriorityCountsAsMedium(t.priority.value);
  }

  /** Hours and minutes round-trip through divmod by 60. */
  lemma DivMod60RoundTrip(hours: int, minutes: int)
    requires 0 <= minutes < 60
    ensures DivMod60(ToMinutes(hours, minutes)) == Duration(hours, minutes)
  {
  }

  // ---------- Mood ----------

  /** A lower-case mood other than tired, stressed or lazy keeps five tasks. */
  lemma NotCapped(mood: string)
    requires IsLowerCase(mood) && mood !in CappedMoods
    ensures TaskLimit(mood) == 5
  {
    LowerFixesLowerCase(mood);
  }

  /** The planner lower-cases the mood again; on a normalised mood that changes nothing. */
  lemma NormalisedMoodIsStable(mood: Option<string>)
    ensures Lower(NormaliseMood(mood)) == NormaliseMood(mood)
  {
    LowerFixesLowerCase(NormaliseMood(mood));
  }

  /**
   * A mood spelled in any case caps the plan at three exactly when its
   * lower-case form is tired, stressed or lazy; a null or empty mood keeps five.
   */
  lemma MoodLimit(mood: Option<string>)
    ensures TaskLimit(NormaliseMood(mood)) == 3 <==> mood.Some? && Lower(mood.value) in CappedMoods
  {
    NormalisedMoodIsStable(mood);
    if mood.Some? && mood.value == "" {
      assert Lower(mood.value) == "";
    }
    if mood.None? || mood == Some("") {
      NotCapped("neutral");
    }
  }

  /**
   * A mood that is not in the motivation table gets the neutral message and
   * a limit of five tasks.
   */
  lemma UnknownMoodFallsBack(mood: Option<string>)
    requires NormaliseMood(mood) !in Motivations
    ensures Motivation(NormaliseMood(mood)) == Motivations["neutral"]
    ensures TaskLimit(NormaliseMood(mood)) == 5
  {
    NotCapped(NormaliseMood(mood));
  }

  /** Each of the five known moods gets its own message, whatever its case. */
  lemma KnownMoodMessage(mood: string)
    requires mood != "" && Lower(mood) in Motivations
    ensures Motivation(NormaliseMood(Some(mood))) == Motivations[Lower(mood)]
  {
  }

  /** "Excited" is not a known mood: the neutral message and five tasks. */
  lemma ExcitedFallsBack()
    ensures NormaliseMood(Some("Excited")) == "excited"
    ensures Motivation(NormaliseMood(Some("Excited"))) == "Pick one small, one important task."
    ensures TaskLimit(NormaliseMood(Some("Excited"))) == 5
  {
    assert Lower("Excited") == "excited";
    UnknownMoodFallsBack(Some("Excited"));
  }
}
