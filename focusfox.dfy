/**
 * The FocusFox planner: truncate the task list by mood, score each task by its
 * estimated duration and priority, share the available minutes out in
 * proportion to the scores, and pick a motivational message for the mood.
 */
module FocusFox {
  import opened Wrappers
  import opened Text
  import opened Rounding

  // ---------- Request and response shapes ----------

  /** A duration estimate; both parts default to zero. */
  datatype TimeEstimate = TimeEstimate(hours: int := 0, minutes: int := 0)

  /**
   * One task of the request. The estimate and the priority are optional
   * fields: a missing field takes its default, but an explicit null is kept
   * as None and reaches the planner.
   */
  datatype TaskItem = TaskItem(
    name: string,
    estimatedTime: Option<TimeEstimate> := Some(TimeEstimate()),
    priority: Option<string> := Some("medium"))

  /** The time budget; it defaults to half an hour. */
  datatype TimeAvailable = TimeAvailable(hours: int := 0, minutes: int := 30)

  /** The whole request body. */
  datatype InputData = InputData(
    tasks: seq<TaskItem>,
    mood: Option<string> := Some("neutral"),
    timeAvailable: TimeAvailable := TimeAvailable())

  /** The "time" object of a plan entry. */
  datatype Duration = Duration(hours: int, minutes: int)

  /** One entry of the plan: the task's name, its priority string as given, and its share of time. */
  datatype PlanEntry = PlanEntry(task: string, priority: string, time: Duration)

  /**
   * The exceptions the planner can raise: reading an attribute of an explicit
   * null field, and dividing by a total score of zero.
   */
  datatype PlanError = AttributeError(attribute: string) | ZeroDivisionError

  /** The endpoint's answer: the normalised mood the greeting names, the plan and the message. */
  datatype Response = Response(mood: string, plan: seq<PlanEntry>, motivation: string)

  // ---------- Static tables ----------

  const PriorityWeights: map<string, int> := map["high" := 3, "medium" := 2, "low" := 1]

  /** The weight of a priority string that is not in PriorityWeights. */
  const DefaultWeight: int := 2

  const Motivations: map<string, string> := map[
    "tired" := "Small steps — one tiny win at a time.",
    "stressed" := "Breathe. Focus on one small task first.",
    "happy" := "Great! Use your energy for a strong focus block!",
    "lazy" := "Do just 10 minutes. You can do that.",
    "neutral" := "Pick one small, one important task."]

  /** Moods that shorten the plan to three tasks. */
  const CappedMoods: set<string> := {"tired", "stressed", "lazy"}

  /** The score given to a task whose estimate is zero minutes, before weighting. */
  const ZeroEstimateFloor: int := 5

  // ---------- Pure pieces of the planner ----------

  function Min(a: int, b: int): (m: int)
    ensures m <= a && m <= b && (m == a || m == b)
  {
    if a < b then a else b
  }

  /** How many tasks a mood keeps: three for a tired, stressed or lazy mood, five otherwise. */
  function TaskLimit(mood: string): (k: nat)
    ensures k == 3 || k == 5
    ensures k == 3 <==> Lower(mood) in CappedMoods
  {
    if Lower(mood) in CappedMoods then 3 else 5
  }

  /** The tasks the planner keeps: the longest prefix allowed by the mood. */
  function Truncate(tasks: seq<TaskItem>, mood: string): (kept: seq<TaskItem>)
    ensures |kept| == Min(|tasks|, TaskLimit(mood))
    ensures kept == tasks[..|kept|]
  {
    tasks[..Min(|tasks|, TaskLimit(mood))]
  }

  /** An hours-and-minutes pair as a number of minutes. */
  function ToMinutes(hours: int, minutes: int): int {
    hours * 60 + minutes
  }

  /** Python's `divmod(a, 60)`: floor division and a remainder that is never negative. */
  function DivMod60(a: int): (d: Duration)
    ensures ToMinutes(d.hours, d.minutes) == a
    ensures 0 <= d.minutes < 60
    ensures a >= 0 ==> d.hours >= 0
  {
    Duration(a / 60, a % 60)
  }

  /** The minutes a task's estimate stands for, with a zero estimate raised to the floor. */
  function EstimatedMinutes(e: TimeEstimate): (r: int)
    ensures r != 0
    ensures ToMinutes(e.hours, e.minutes) != 0 ==> r == ToMinutes(e.hours, e.minutes)
    ensures ToMinutes(e.hours, e.minutes) == 0 ==> r == ZeroEstimateFloor
    ensures e.hours >= 0 && e.minutes >= 0 ==> r >= 1
  {
    var m := ToMinutes(e.hours, e.minutes);
    if m == 0 then ZeroEstimateFloor else m
  }

  /** The priority weight, looked up case-insensitively, with DefaultWeight for an unknown string. */
  function Weight(priority: string): (w: int)
    ensures 1 <= w <= 3
    ensures w == 3 <==> Lower(priority) == "high"
    ensures w == 1 <==> Lower(priority) == "low"
    ensures w == 2 <==> Lower(priority) !in {"high", "low"}
  {
    var key := Lower(priority);
    if key in PriorityWeights then PriorityWeights[key] else DefaultWeight
  }

  /**
   * The weighted score of one task, or the AttributeError Python raises when
   * the estimate (read first) or the priority is an explicit null.
   */
  function Score(t: TaskItem): (r: Result<int, PlanError>)
    ensures r.Err? <==> t.estimatedTime.None? || t.priority.None?
    ensures t.estimatedTime.None? ==> r == Err(AttributeError("hours"))
    ensures t.estimatedTime.Some? && t.priority.None? ==> r == Err(AttributeError("lower"))
    ensures r.Ok? && t.estimatedTime.value.hours >= 0 && t.estimatedTime.value.minutes >= 0 ==> r.value >= 1
  {
    match t.estimatedTime
    case None => Err(AttributeError("hours"))
    case Some(e) =>
      match t.priority
      case None => Err(AttributeError("lower"))
      case Some(p) =>
        ProductAtLeastOne(EstimatedMinutes(e), Weight(p));
        Ok(EstimatedMinutes(e) * Weight(p))
  }

  lemma ProductAtLeastOne(a: int, b: int)
    ensures a >= 1 && b >= 1 ==> a * b >= 1
  {
    if a >= 1 && b >= 1 {
      MulNatBound(b, a);
    }
  }

  /** The scores of a list of tasks in order, or the error of the first task whose score fails. */
  function Scores(ts: seq<TaskItem>): (r: Result<seq<int>, PlanError>)
    ensures r.Ok? ==> |r.value| == |ts|
    ensures r.Err? ==> r.error.AttributeError?
  {
    if ts == [] then Ok([])
    else
      match Scores(ts[..|ts| - 1])
      case Err(e) => Err(e)
      case Ok(prefix) =>
        match Score(ts[|ts| - 1])
        case Err(e) => Err(e)
        case Ok(s) => Ok(prefix + [s])
  }

  /** Scores succeeds exactly when every task scores, and then lists each task's score in order. */
  lemma {:induction false} ScoresOk(ts: seq<TaskItem>)
    ensures Scores(ts).Ok? <==> forall i :: 0 <= i < |ts| ==> Score(ts[i]).Ok?
    ensures Scores(ts).Ok? ==>
      |Scores(ts).value| == |ts| &&
      forall i :: 0 <= i < |ts| ==> Score(ts[i]) == Ok(Scores(ts).value[i])
  {
    if ts != [] {
      var init := ts[..|ts| - 1];
      ScoresOk(init);
      assert forall i :: 0 <= i < |init| ==> init[i] == ts[i];
    }
  }

  /** Scoring one more task of a list that scored so far. */
  lemma ScoresStep(ts: seq<TaskItem>, i: nat)
    requires i < |ts| && Scores(ts[..i]).Ok?
    ensures Scores(ts[..i + 1]) ==
      if Score(ts[i]).Ok? then Ok(Scores(ts[..i]).value + [Score(ts[i]).value]) else Err(Score(ts[i]).error)
  {
    var next := ts[..i + 1];
    assert next[..|next| - 1] == ts[..i];
  }

  /** Once a prefix of the tasks fails to score, the whole list fails with the same error. */
  lemma {:induction false} ScoresFirstError(ts: seq<TaskItem>, n: nat)
    requires n <= |ts|
    requires Scores(ts[..n]).Err?
    ensures Scores(ts) == Scores(ts[..n])
    decreases |ts| - n
  {
    if n < |ts| {
      var next := ts[..n + 1];
      assert next[..|next| - 1] == ts[..n];
      ScoresFirstError(ts, n + 1);
    } else {
      assert ts[..n] == ts;
    }
  }

  /** A prefix of tasks that all score, scores. */
  lemma ScoresPrefixOk(ts: seq<TaskItem>, i: int)
    requires 0 <= i <= |ts|
    requires forall j :: 0 <= j < i ==> Score(ts[j]).Ok?
    ensures Scores(ts[..i]).Ok?
  {
    var prefix := ts[..i];
    assert forall j :: 0 <= j < |prefix| ==> Score(prefix[j]).Ok? by {
      forall j | 0 <= j < |prefix| ensures Score(prefix[j]).Ok? {
        assert prefix[j] == ts[j];
      }
    }
    ScoresOk(prefix);
  }

  /** The first task that fails to score decides the error of the whole list. */
  lemma {:induction false} ScoresFirstFailure(ts: seq<TaskItem>, i: int)
    requires 0 <= i < |ts| && Score(ts[i]).Err?
    requires forall j :: 0 <= j < i ==> Score(ts[j]).Ok?
    ensures Scores(ts) == Err(Score(ts[i]).error)
  {
    var init := ts[..|ts| - 1];
    if i == |ts| - 1 {
      ScoresPrefixOk(ts, i);
    } else {
      assert init[i] == ts[i];
      assert forall j :: 0 <= j < i ==> Score(init[j]).Ok? by {
        forall j | 0 <= j < i ensures Score(init[j]).Ok? {
          assert init[j] == ts[j];
        }
      }
      ScoresFirstFailure(init, i);
    }
  }

  /** Python's `sum` over a list of integers. */
  function Sum(s: seq<int>): int {
    if s == [] then 0 else Sum(s[..|s| - 1]) + s[|s| - 1]
  }

  /**
   * `round(score / total * available)`, with the quotient taken exactly: the
   * result is within half a minute of the task's exact share, and even on a tie.
   */
  function Allocate(score: int, total: int, available: int): (a: int)
    requires total != 0
    ensures Abs(2 * (a * total - score * available)) <= Abs(total)
    ensures Abs(2 * (a * total - score * available)) == Abs(total) ==> a % 2 == 0
  {
    RoundHalfEven(score * available, total)
  }

  /** The plan entry of one kept task. */
  function MakeEntry(t: TaskItem, score: int, total: int, available: int): (e: PlanEntry)
    requires total != 0 && t.priority.Some?
    ensures e.task == t.name && Some(e.priority) == t.priority
    ensures ToMinutes(e.time.hours, e.time.minutes) == Allocate(score, total, available)
    ensures 0 <= e.time.minutes < 60
  {
    PlanEntry(t.name, t.priority.value, DivMod60(Allocate(score, total, available)))
  }

  /**
   * The plan for the tasks that survived truncation, sharing out `minutes`:
   * each task with its proportional share, or the exception raised on the way.
   */
  function ShareOut(kept: seq<TaskItem>, minutes: int): (r: Result<seq<PlanEntry>, PlanError>)
    ensures r.Ok? ==> |r.value| == |kept|
    ensures r == Err(ZeroDivisionError) ==> Scores(kept).Ok? && Sum(Scores(kept).value) == 0
  {
    if kept == [] then Ok([])
    else
      match Scores(kept)
      case Err(e) => Err(e)
      case Ok(scores) =>
        var total := Sum(scores);
        if total == 0 then Err(ZeroDivisionError)
        else
          ScoresOk(kept);
          Ok(Entries(kept, scores, total, minutes))
  }

  /** One entry per kept task, in order, each with its score's share of `minutes`. */
  function Entries(kept: seq<TaskItem>, scores: seq<int>, total: int, minutes: int): (plan: seq<PlanEntry>)
    requires |scores| == |kept| && total != 0
    requires forall i :: 0 <= i < |kept| ==> kept[i].priority.Some?
    ensures |plan| == |kept|
    ensures forall i :: 0 <= i < |kept| ==> plan[i] == MakeEntry(kept[i], scores[i], total, minutes)
  {
    seq(|kept|, i requires 0 <= i < |kept| => MakeEntry(kept[i], scores[i], total, minutes))
  }

  /** The plan `tiny_reorder` returns, as one expression. */
  function PlanSpec(tasks: seq<TaskItem>, mood: string, available: TimeAvailable): (r: Result<seq<PlanEntry>, PlanError>)
    ensures r.Ok? ==> |r.value| == Min(|tasks|, TaskLimit(mood))
  {
    ShareOut(Truncate(tasks, mood), ToMinutes(available.hours, available.minutes))
  }

  /** A plan built entry by entry from successful scores is the one ShareOut describes. */
  lemma ShareOutFromEntries(kept: seq<TaskItem>, scores: seq<int>, total: int, minutes: int, plan: seq<PlanEntry>)
    requires kept != [] && Scores(kept) == Ok(scores)
    requires total == Sum(scores) && total != 0
    requires |plan| == |kept| == |scores|
    requires forall j :: 0 <= j < |plan| ==> kept[j].priority.Some? && plan[j] == MakeEntry(kept[j], scores[j], total, minutes)
    ensures ShareOut(kept, minutes) == Ok(plan)
  {
    assert Entries(kept, scores, total, minutes) == plan;
  }

  // ---------- The planner ----------

  /** The scoring loop of `tiny_reorder`: one weighted score per kept task, in order. */
  method ScoreTasks(kept: seq<TaskItem>) returns (result: Result<seq<int>, PlanError>)
    ensures result == Scores(kept)
  {
    var weightedScores: seq<int> := [];
    for i := 0 to |kept|
      invariant Scores(kept[..i]) == Ok(weightedScores)
    {
      var task := kept[i];
      ScoresStep(kept, i);
      if task.estimatedTime.None? {
        ScoresFirstError(kept, i + 1);
        return Err(AttributeError("hours"));
      }
      var estMin := task.estimatedTime.value.hours * 60 + task.estimatedTime.value.minutes;
      if estMin == 0 {
        estMin := ZeroEstimateFloor;
      }
      if task.priority.None? {
        ScoresFirstError(kept, i + 1);
        return Err(AttributeError("lower"));
      }
      var p := Weight(task.priority.value);
      var score := estMin * p;
      assert Score(task) == Ok(score);
      weightedScores := weightedScores + [score];
    }
    assert kept[..|kept|] == kept;
    return Ok(weightedScores);
  }

  /** The allocation loop of `tiny_reorder`: each task's rounded share, split into hours and minutes. */
  method AllocateTime(kept: seq<TaskItem>, weightedScores: seq<int>, totalScore: int, totalAvailable: int)
    returns (plan: seq<PlanEntry>)
    requires |weightedScores| == |kept| && totalScore != 0
    requires forall j :: 0 <= j < |kept| ==> kept[j].priority.Some?
    ensures |plan| == |kept|
    ensures forall j :: 0 <= j < |kept| ==> plan[j] == MakeEntry(kept[j], weightedScores[j], totalScore, totalAvailable)
  {
    plan := [];
    for i := 0 to |kept|
      invariant |plan| == i
      invariant forall j :: 0 <= j < i ==> plan[j] == MakeEntry(kept[j], weightedScores[j], totalScore, totalAvailable)
    {
      var allocatedMin := Allocate(weightedScores[i], totalScore, totalAvailable);
      var time := DivMod60(allocatedMin);
      plan := plan + [PlanEntry(kept[i].name, kept[i].priority.value, time)];
    }
  }

  /** The body of `tiny_reorder` after truncation: score the kept tasks, then share out `totalAvailable`. */
  method ShareOutKept(kept: seq<TaskItem>, totalAvailable: int) returns (result: Result<seq<PlanEntry>, PlanError>)
    ensures result == ShareOut(kept, totalAvailable)
  {
    if kept == [] {
      return Ok([]);
    }
    var scored := ScoreTasks(kept);
    if scored.Err? {
      return Err(scored.error);
    }
    var weightedScores := scored.value;
    ScoresOk(kept);

    var totalScore := Sum(weightedScores);
    if totalScore == 0 {
      return Err(ZeroDivisionError);
    }

    assert forall j :: 0 <= j < |kept| ==> kept[j].priority.Some? by {
      forall j | 0 <= j < |kept| ensures kept[j].priority.Some? {
        assert Score(kept[j]).Ok?;
      }
    }
    var plan := AllocateTime(kept, weightedScores, totalScore, totalAvailable);
    ShareOutFromEntries(kept, weightedScores, totalScore, totalAvailable, plan);
    return Ok(plan);
  }

  /** `tiny_reorder`: truncate by mood, score the kept tasks, then share out the available minutes. */
  method TinyReorder(tasks: seq<TaskItem>, mood: string, timeAvailable: TimeAvailable)
    returns (result: Result<seq<PlanEntry>, PlanError>)
    ensures result == PlanSpec(tasks, mood, timeAvailable)
  {
    var kept: seq<TaskItem>;
    if Lower(mood) in CappedMoods {
      kept := tasks[..Min(|tasks|, 3)];
    } else {
      kept := tasks[..Min(|tasks|, 5)];
    }
    assert kept == Truncate(tasks, mood);
    var totalAvailable := timeAvailable.hours * 60 + timeAvailable.minutes;
    result := ShareOutKept(kept, totalAvailable);
  }

  // ---------- Mood handling and the endpoint ----------

  /** `(data.mood or "neutral").lower()`: a null or empty mood becomes "neutral". */
  function NormaliseMood(mood: Option<string>): (r: string)
    ensures IsLowerCase(r)
    ensures r != ""
    ensures mood.None? || mood == Some("") ==> r == "neutral"
    ensures mood.Some? && mood.value != "" ==> r == Lower(mood.value)
  {
    if mood.None? || mood.value == "" then "neutral" else Lower(mood.value)
  }

  /** The motivation message for a normalised mood: its own table entry, or the neutral message for a mood off the table. */
  function Motivation(mood: string): (r: string)
    ensures r in Motivations.Values
    ensures r == Motivations["neutral"] <==> mood == "neutral" || mood !in Motivations
  {
    if mood in Motivations then Motivations[mood] else Motivations["neutral"]
  }

  /** The planning endpoint: normalise the mood, plan, and pick the message. */
  method FocusFoxEndpoint(data: InputData) returns (result: Result<Response, PlanError>)
    ensures var mood := NormaliseMood(data.mood);
            var plan := PlanSpec(data.tasks, mood, data.timeAvailable);
            result == if plan.Ok? then Ok(Response(mood, plan.value, Motivation(mood))) else Err(plan.error)
  {
    var mood := if data.mood.None? || data.mood.value == "" then "neutral" else Lower(data.mood.value);
    var plan := TinyReorder(data.tasks, mood, data.timeAvailable);
    if plan.Err? {
      return Err(plan.error);
    }
    var motivation := Motivation(mood);
    return Ok(Response(mood, plan.value, motivation));
  }
}
