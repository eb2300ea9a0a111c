// The mobile agent's token accounting: one record per task, updated step by
// step, closed with averages, reduction and cost, and aggregated over all
// completed tasks.
module AgentTokenMetrics {
  import opened Wrappers
  import opened Seqs
  import opened Dicts

  /** `TaskMetrics` without the two timestamps; `completed` stands for a set
    * `completed_at`. */
  datatype TaskMetrics = TaskMetrics(
    taskId: string, taskDescription: string, completed: bool,
    promptTokens: int, completionTokens: int, totalTokens: int,
    baselineTokens: int, comptextTokens: int, tokenReductionPercent: real,
    stepsCount: nat, successfulSteps: nat, failedSteps: nat,
    totalDurationMs: real, avgStepDurationMs: real,
    estimatedCostUsd: real, success: bool, error: Option<string>)

  /** A fresh task: every counter at its dataclass default. */
  function NewTask(taskId: string, description: string): (t: TaskMetrics)
    ensures t.taskId == taskId && t.taskDescription == description
    ensures Consistent(t) && t.stepsCount == 0 && !t.completed && !t.success
  {
    TaskMetrics(taskId, description, false, 0, 0, 0, 0, 0, 0.0, 0, 0, 0, 0.0, 0.0, 0.0, false, None)
  }

  /** The two bookkeeping equations every recorded step keeps. */
  predicate Consistent(t: TaskMetrics)
  {
    t.totalTokens == t.promptTokens + t.completionTokens
    && t.stepsCount == t.successfulSteps + t.failedSteps
  }

  /** Python truthiness of the optional baseline: absent and 0 are false. */
  predicate Truthy(baseline: Option<int>)
  {
    baseline.Some? && baseline.value != 0
  }

  /** `record_step` applied to a task. */
  function Stepped(t: TaskMetrics, prompt: int, completion: int, durationMs: real, success: bool,
                   baseline: Option<int>): (r: TaskMetrics)
    ensures Consistent(t) ==> Consistent(r)
    ensures r.stepsCount == t.stepsCount + 1
    ensures r.successfulSteps == t.successfulSteps + (if success then 1 else 0)
    ensures r.promptTokens == t.promptTokens + prompt && r.completionTokens == t.completionTokens + completion
    ensures !Truthy(baseline) ==> r.baselineTokens == t.baselineTokens && r.comptextTokens == t.comptextTokens
    ensures Truthy(baseline) ==>
      r.baselineTokens == t.baselineTokens + baseline.value && r.comptextTokens == t.comptextTokens + prompt
    ensures r.taskId == t.taskId && r.completed == t.completed
  {
    var counted := t.(promptTokens := t.promptTokens + prompt,
                      completionTokens := t.completionTokens + completion,
                      totalTokens := t.totalTokens + prompt + completion,
                      stepsCount := t.stepsCount + 1,
                      successfulSteps := t.successfulSteps + (if success then 1 else 0),
                      failedSteps := t.failedSteps + (if success then 0 else 1),
                      totalDurationMs := t.totalDurationMs + durationMs);
    if Truthy(baseline) then
      counted.(baselineTokens := counted.baselineTokens + baseline.value,
               comptextTokens := counted.comptextTokens + prompt)
    else counted
  }

  /** A task's counters, everything `complete_task` leaves alone. */
  predicate SameCounters(t: TaskMetrics, r: TaskMetrics)
  {
    r.taskId == t.taskId && r.taskDescription == t.taskDescription
    && r.promptTokens == t.promptTokens && r.completionTokens == t.completionTokens
    && r.totalTokens == t.totalTokens && r.baselineTokens == t.baselineTokens
    && r.comptextTokens == t.comptextTokens && r.stepsCount == t.stepsCount
    && r.successfulSteps == t.successfulSteps && r.failedSteps == t.failedSteps
    && r.totalDurationMs == t.totalDurationMs
  }

  /** `complete_task` applied to a task for a collector using `model`. */
  function Completed(t: TaskMetrics, success: bool, error: Option<string>, model: string): (r: TaskMetrics)
    ensures SameCounters(t, r) && (Consistent(t) ==> Consistent(r))
    ensures r.completed && r.success == success && r.error == error
    ensures t.stepsCount > 0 ==> r.avgStepDurationMs * t.stepsCount as real == t.totalDurationMs
    ensures t.stepsCount == 0 ==> r.avgStepDurationMs == t.avgStepDurationMs
    ensures t.baselineTokens > 0 ==>
      r.tokenReductionPercent * t.baselineTokens as real == (t.baselineTokens - t.comptextTokens) as real * 100.0
    ensures t.baselineTokens <= 0 ==> r.tokenReductionPercent == t.tokenReductionPercent
    ensures r.estimatedCostUsd == CalculateCost(model, t.promptTokens, t.completionTokens)
  {
    var avg := if t.stepsCount > 0 then t.totalDurationMs / t.stepsCount as real else t.avgStepDurationMs;
    var reduction :=
      if t.baselineTokens > 0 then (t.baselineTokens - t.comptextTokens) as real / t.baselineTokens as real * 100.0
      else t.tokenReductionPercent;
    t.(completed := true, success := success, error := error, avgStepDurationMs := avg,
       tokenReductionPercent := reduction,
       estimatedCostUsd := CalculateCost(model, t.promptTokens, t.completionTokens))
  }

  // ---------------------------------------------------------------------------
  // Pricing

  /** Dollars per million input and output tokens. */
  datatype Rate = Rate(input: real, output: real)

  const DefaultModel: string := "qwen3-coder:480b"

  /** `PRICING` */
  const Pricing: Dict<Rate> := [
    ("qwen3-coder:480b", Rate(0.50, 1.50)),
    ("deepseek-v3.2:671b", Rate(0.60, 1.80)),
    ("nemotron-3-nano:30b", Rate(0.05, 0.15))
  ]

  /** The rate of a model, falling back to the default model's. */
  function RateOf(model: string): (r: Rate)
    ensures r.input >= 0.0 && r.output >= 0.0
    ensures !HasKey(Pricing, model) ==> r == Rate(0.50, 1.50)
  {
    var r := GetOr(Pricing, model, Rate(0.50, 1.50));
    assert Get(Pricing, model).Some? ==> r in [Rate(0.50, 1.50), Rate(0.60, 1.80), Rate(0.05, 0.15)];
    r
  }

  /** `_calculate_cost` */
  function CalculateCost(model: string, prompt: int, completion: int): (c: real)
    ensures prompt >= 0 && completion >= 0 ==> c >= 0.0
  {
    var rate := RateOf(model);
    prompt as real / 1000000.0 * rate.input + completion as real / 1000000.0 * rate.output
  }

  /** The cost is linear: the cost of two token counts together is the sum of their costs. */
  lemma CostLinear(model: string, p1: int, c1: int, p2: int, c2: int)
    ensures CalculateCost(model, p1 + p2, c1 + c2) == CalculateCost(model, p1, c1) + CalculateCost(model, p2, c2)
  {
  }

  /** A model missing from the table is priced as the default model. */
  lemma UnknownModelCost(model: string, prompt: int, completion: int)
    requires !HasKey(Pricing, model)
    ensures CalculateCost(model, prompt, completion) == CalculateCost(DefaultModel, prompt, completion)
  {
    assert Pricing[0].0 == DefaultModel;
  }

  // ---------------------------------------------------------------------------
  // Aggregation

  /** `PerformanceMetrics` */
  datatype PerformanceMetrics = PerformanceMetrics(
    totalTasks: nat, successfulTasks: nat, failedTasks: nat,
    totalTokens: int, totalPromptTokens: int, totalCompletionTokens: int,
    totalBaselineTokens: int, totalComptextTokens: int, avgTokenReductionPercent: real,
    totalDurationMs: real, avgTaskDurationMs: real, avgStepDurationMs: real,
    totalSteps: nat, successfulSteps: nat,
    totalCostUsd: real, avgCostPerTaskUsd: real,
    taskSuccessRate: real, stepSuccessRate: real)

  const Zero := PerformanceMetrics(0, 0, 0, 0, 0, 0, 0, 0, 0.0, 0.0, 0.0, 0.0, 0, 0, 0.0, 0.0, 0.0, 0.0)

  /** Adds one task to the running sums. */
  function AddTask(m: PerformanceMetrics, t: TaskMetrics): PerformanceMetrics
  {
    m.(totalTasks := m.totalTasks + 1,
       successfulTasks := m.successfulTasks + (if t.success then 1 else 0),
       failedTasks := m.failedTasks + (if t.success then 0 else 1),
       totalTokens := m.totalTokens + t.totalTokens,
       totalPromptTokens := m.totalPromptTokens + t.promptTokens,
       totalCompletionTokens := m.totalCompletionTokens + t.completionTokens,
       totalBaselineTokens := m.totalBaselineTokens + t.baselineTokens,
       totalComptextTokens := m.totalComptextTokens + t.comptextTokens,
       totalDurationMs := m.totalDurationMs + t.totalDurationMs,
       totalSteps := m.totalSteps + t.stepsCount,
       successfulSteps := m.successfulSteps + t.successfulSteps,
       totalCostUsd := m.totalCostUsd + t.estimatedCostUsd)
  }

  /** The `sum(...)` generator expressions over the stored tasks. */
  function Totals(tasks: seq<TaskMetrics>): (m: PerformanceMetrics)
    ensures m.totalTasks == |tasks| && m.successfulTasks + m.failedTasks == |tasks|
  {
    if tasks == [] then Zero else AddTask(Totals(tasks[1..]), tasks[0])
  }

  /** Summing the stored tasks equals adding the newest task to the sums of
    * the older ones, so recomputing and accumulating agree. */
  lemma {:induction false} TotalsAppend(tasks: seq<TaskMetrics>, t: TaskMetrics)
    ensures Totals(tasks + [t]) == AddTask(Totals(tasks), t)
  {
    if tasks != [] {
      assert (tasks + [t])[1..] == tasks[1..] + [t];
      TotalsAppend(tasks[1..], t);
      AddTaskSwap(Totals(tasks[1..]), t, tasks[0]);
    }
  }

  /** The order in which two tasks are added does not matter. */
  lemma AddTaskSwap(m: PerformanceMetrics, a: TaskMetrics, b: TaskMetrics)
    ensures AddTask(AddTask(m, a), b) == AddTask(AddTask(m, b), a)
  {
  }

  /** The successful tasks are counted, the others are failed. */
  lemma {:induction false} TotalsSuccess(tasks: seq<TaskMetrics>)
    ensures Totals(tasks).successfulTasks == Count(tasks, (t: TaskMetrics) => t.success)
  {
    if tasks != [] {
      TotalsSuccess(tasks[1..]);
    }
  }

  /** With consistent tasks the sums keep both bookkeeping equations. */
  lemma {:induction false} TotalsConsistent(tasks: seq<TaskMetrics>)
    requires forall i :: 0 <= i < |tasks| ==> Consistent(tasks[i])
    ensures Totals(tasks).totalTokens == Totals(tasks).totalPromptTokens + Totals(tasks).totalCompletionTokens
    ensures Totals(tasks).successfulSteps <= Totals(tasks).totalSteps
  {
    if tasks != [] {
      assert Consistent(tasks[0]);
      TotalsConsistent(tasks[1..]);
    }
  }

  /** `get_performance_metrics` over the stored tasks. */
  function PerformanceOf(tasks: seq<TaskMetrics>): (m: PerformanceMetrics)
    ensures tasks == [] ==> m == Zero
    ensures m.totalTasks == |tasks| && m.successfulTasks + m.failedTasks == |tasks|
    ensures 0.0 <= m.taskSuccessRate <= 100.0
    ensures tasks != [] ==> m.taskSuccessRate * |tasks| as real == m.successfulTasks as real * 100.0
    ensures tasks != [] ==> m.avgTaskDurationMs * |tasks| as real == m.totalDurationMs
    ensures m.totalSteps > 0 ==> m.avgStepDurationMs * m.totalSteps as real == m.totalDurationMs
    ensures m.totalBaselineTokens > 0 ==>
      m.avgTokenReductionPercent * m.totalBaselineTokens as real
        == (m.totalBaselineTokens - m.totalComptextTokens) as real * 100.0
  {
    if tasks == [] then Zero
    else
      var s := Totals(tasks);
      var n := s.totalTasks as real;
      s.(avgTaskDurationMs := Quotient(s.totalDurationMs, n),
         avgCostPerTaskUsd := Quotient(s.totalCostUsd, n),
         taskSuccessRate := Percentage(s.successfulTasks as real, n),
         avgStepDurationMs := if s.totalSteps > 0 then Quotient(s.totalDurationMs, s.totalSteps as real) else 0.0,
         stepSuccessRate := if s.totalSteps > 0 then Percentage(s.successfulSteps as real, s.totalSteps as real) else 0.0,
         avgTokenReductionPercent :=
           if s.totalBaselineTokens > 0
           then Percentage((s.totalBaselineTokens - s.totalComptextTokens) as real, s.totalBaselineTokens as real)
           else 0.0)
  }

  /** `a / n`: Python's true division. */
  function Quotient(a: real, n: real): (r: real)
    requires n != 0.0
    ensures r * n == a
  {
    a / n
  }

  /** `a / n * 100`: `a` as a percentage of a positive `n`. */
  function Percentage(a: real, n: real): (r: real)
    requires n > 0.0
    ensures r * n == a * 100.0
    ensures 0.0 <= a <= n ==> 0.0 <= r <= 100.0
  {
    PercentageBounds(a, n);
    a / n * 100.0
  }

  lemma PercentageBounds(a: real, n: real)
    requires n > 0.0
    ensures a / n * 100.0 * n == a * 100.0
    ensures 0.0 <= a <= n ==> 0.0 <= a / n * 100.0 <= 100.0
  {
    var r := a / n * 100.0;
    assert r * n == a * 100.0;
    if 0.0 <= a <= n && r < 0.0 {
      MulStrict(0.0, r, n);
    }
    if 0.0 <= a <= n && r > 100.0 {
      MulStrict(r, 100.0, n);
    }
  }

  /** Every aggregate is recomputed from the stored tasks: the report carries
    * their sums, and with consistent tasks the step success rate is a
    * percentage and the token total splits into prompt and completion. */
  lemma PerformanceSums(tasks: seq<TaskMetrics>)
    requires forall i :: 0 <= i < |tasks| ==> Consistent(tasks[i])
    ensures var m := PerformanceOf(tasks);
      m.successfulTasks == Count(tasks, (t: TaskMetrics) => t.success)
      && m.totalTokens == m.totalPromptTokens + m.totalCompletionTokens
      && m.successfulSteps <= m.totalSteps
      && 0.0 <= m.stepSuccessRate <= 100.0
  {
    TotalsSuccess(tasks);
    TotalsConsistent(tasks);
  }

  // ---------------------------------------------------------------------------
  // The collector

  class TokenMetricsCollector {
    var model: string
    var tasks: seq<TaskMetrics>
    var current: Option<TaskMetrics>

    /** Every task, open or stored, keeps the bookkeeping equations. */
    predicate Valid()
      reads this
    {
      (current.Some? ==> Consistent(current.value))
      && forall i :: 0 <= i < |tasks| ==> Consistent(tasks[i])
    }

    constructor (model: string)
      ensures Valid()
      ensures this.model == model && tasks == [] && current.None?
    {
      this.model := model;
      tasks := [];
      current := None;
    }

    /** `start_task`: an unfinished task is silently replaced. */
    method StartTask(taskId: string, description: string) returns (task: TaskMetrics)
      requires Valid()
      modifies this`current
      ensures Valid()
      ensures task == NewTask(taskId, description) && current == Some(task)
    {
      task := NewTask(taskId, description);
      current := Some(task);
    }

    /** `record_step`: nothing happens without an open task. */
    method RecordStep(prompt: int, completion: int, durationMs: real, success: bool, baseline: Option<int>)
      requires Valid()
      modifies this`current
      ensures Valid()
      ensures old(current).None? ==> current.None?
      ensures old(current).Some? ==>
        current == Some(Stepped(old(current).value, prompt, completion, durationMs, success, baseline))
    {
      if current.None? {
        return;
      }
      var task := current.value;
      task := task.(promptTokens := task.promptTokens + prompt);
      task := task.(completionTokens := task.completionTokens + completion);
      task := task.(totalTokens := task.totalTokens + prompt + completion);
      task := task.(stepsCount := task.stepsCount + 1);
      if success {
        task := task.(successfulSteps := task.successfulSteps + 1);
      } else {
        task := task.(failedSteps := task.failedSteps + 1);
      }
      task := task.(totalDurationMs := task.totalDurationMs + durationMs);
      if Truthy(baseline) {
        task := task.(baselineTokens := task.baselineTokens + baseline.value);
        task := task.(comptextTokens := task.comptextTokens + prompt);
      }
      current := Some(task);
    }

    /** `complete_task`: the open task is closed, stored once, and cleared. */
    method CompleteTask(success: bool, error: Option<string>)
      requires Valid()
      modifies this`current, this`tasks
      ensures Valid()
      ensures current.None?
      ensures old(current).None? ==> tasks == old(tasks)
      ensures old(current).Some? ==> tasks == old(tasks) + [Completed(old(current).value, success, error, model)]
    {
      if current.None? {
        return;
      }
      var task := current.value;
      task := task.(completed := true, success := success, error := error);
      if task.stepsCount > 0 {
        task := task.(avgStepDurationMs := task.totalDurationMs / task.stepsCount as real);
      }
      if task.baselineTokens > 0 {
        task := task.(tokenReductionPercent :=
          (task.baselineTokens - task.comptextTokens) as real / task.baselineTokens as real * 100.0);
      }
      task := task.(estimatedCostUsd := CalculateCost(model, task.promptTokens, task.completionTokens));
      tasks := tasks + [task];
      current := None;
    }

    /** `get_performance_metrics` */
    function GetPerformanceMetrics(): (m: PerformanceMetrics)
      reads this
      ensures m.totalTasks == |tasks|
    {
      PerformanceOf(tasks)
    }
  }

  /** Completing a task adds exactly that task to the recomputed totals. */
  lemma CompletionCounted(tasks: seq<TaskMetrics>, t: TaskMetrics, success: bool, error: Option<string>, model: string)
    ensures var c := Completed(t, success, error, model);
      Totals(tasks + [c]) == AddTask(Totals(tasks), c)
      && Totals(tasks + [c]).successfulTasks == Totals(tasks).successfulTasks + (if success then 1 else 0)
      && Totals(tasks + [c]).totalPromptTokens == Totals(tasks).totalPromptTokens + t.promptTokens
  {
    TotalsAppend(tasks, Completed(t, success, error, model));
  }
}
