// The agent variant that reports every step as an event, and the server's
// reactions to client commands. The agent's loop is the base loop of
// `Agent`; this module adds the events it emits along the way.
module WebSocket {
  import opened Wrappers
  import opened Dicts
  import opened Json
  import D = Droidrun
  import Config
  import Agent
  import AgentDispatch
  import Ollama
  import F = AgentFormat

  datatype EventType =
    | Connected | Disconnected | Error
    | TaskStarted | TaskCompleted | TaskFailed
    | StepStarted | StepCompleted | ActionExecuted
    | StateChanged | ScreenUpdated
    | TokensUsed | ProgressUpdate

  /** The enum's wire value. */
  function Value(t: EventType): string
  {
    match t
    case Connected => "connected"
    case Disconnected => "disconnected"
    case Error => "error"
    case TaskStarted => "task_started"
    case TaskCompleted => "task_completed"
    case TaskFailed => "task_failed"
    case StepStarted => "step_started"
    case StepCompleted => "step_completed"
    case ActionExecuted => "action_executed"
    case StateChanged => "state_changed"
    case ScreenUpdated => "screen_updated"
    case TokensUsed => "tokens_used"
    case ProgressUpdate => "progress_update"
  }

  /** The `data` dictionaries the events carry, one variant per shape;
    * `Data` gives the dictionary itself. */
  datatype Payload =
    | StepInfo(step: int, maxSteps: int)
    | StateInfo(state: Agent.AgentState)
    | TokenInfo(stepTokens: int, totalTokens: int)
    | ActionInfo(action: Json, success: bool, message: string, error: Option<string>)
    | ScreenInfo(package: string, activity: string, elementCount: int)
    | StepDone(step: int, action: Json, success: bool)
    | ProgressInfo(progress: real, step: int, maxSteps: int)
    | ErrorInfo(message: string)
    | TaskInfo(task: string, maxSteps: int, useComptext: bool)
    | CompletedInfo(task: string, steps: int, tokens: int)
    | FailedInfo(task: string, failure: Option<string>, steps: int)
    | Fields(fields: Dict<Json>)

  /** `WebSocketEvent` without its clock reading. */
  datatype WebSocketEvent = WebSocketEvent(kind: EventType, taskId: Option<string>, payload: Payload)

  function OptJson(s: Option<string>): Json
  {
    if s.Some? then JStr(s.value) else JNull
  }

  function StateValue(s: Agent.AgentState): string
  {
    match s
    case Idle => "idle"
    case Planning => "planning"
    case Executing => "executing"
    case Verifying => "verifying"
    case Reflecting => "reflecting"
    case Completed => "completed"
    case Failed => "failed"
  }

  /** The event's `data` dictionary. */
  function Data(p: Payload): Dict<Json>
  {
    match p
    case StepInfo(step, maxSteps) => [("step", JInt(step)), ("max_steps", JInt(maxSteps))]
    case StateInfo(state) => [("state", JStr(StateValue(state)))]
    case TokenInfo(stepTokens, total) => [("step_tokens", JInt(stepTokens)), ("total_tokens", JInt(total))]
    case ActionInfo(action, success, message, error) =>
      [("action", action), ("success", JBool(success)), ("message", JStr(message)), ("error", OptJson(error))]
    case ScreenInfo(package, activity, count) =>
      [("package", JStr(package)), ("activity", JStr(activity)), ("element_count", JInt(count))]
    case StepDone(step, action, success) => [("step", JInt(step)), ("action", action), ("success", JBool(success))]
    case ProgressInfo(progress, step, maxSteps) =>
      [("progress", JFloat(progress)), ("step", JInt(step)), ("max_steps", JInt(maxSteps))]
    case ErrorInfo(message) => [("error", JStr(message))]
    case TaskInfo(task, maxSteps, useComptext) =>
      [("task", JStr(task)), ("max_steps", JInt(maxSteps)), ("use_comptext", JBool(useComptext))]
    case CompletedInfo(task, steps, tokens) => [("task", JStr(task)), ("steps", JInt(steps)), ("tokens", JInt(tokens))]
    case FailedInfo(task, failure, steps) => [("task", JStr(task)), ("error", OptJson(failure)), ("steps", JInt(steps))]
    case Fields(fields) => fields
  }

  /** `to_json`, as the object it serialises, stamped with `timestamp`. */
  function ToJson(e: WebSocketEvent, timestamp: real): (j: Json)
    ensures j.JObj? && Keys(j.fields) == ["type", "timestamp", "task_id", "data"]
    ensures j.fields[0].1 == JStr(Value(e.kind)) && j.fields[1].1 == JFloat(timestamp)
    ensures j.fields[2].1 == OptJson(e.taskId) && j.fields[3].1 == JObj(Data(e.payload))
  {
    JObj([("type", JStr(Value(e.kind))), ("timestamp", JFloat(timestamp)),
          ("task_id", OptJson(e.taskId)), ("data", JObj(Data(e.payload)))])
  }

  // ---------------------------------------------------------------------------
  // The events of one run

  function StepStartedEv(tid: Option<string>, k: nat, maxSteps: int): WebSocketEvent
  {
    WebSocketEvent(StepStarted, tid, StepInfo(k + 1, maxSteps))
  }

  function StateEv(tid: Option<string>, s: Agent.AgentState): WebSocketEvent
  {
    WebSocketEvent(StateChanged, tid, StateInfo(s))
  }

  function TokensEv(tid: Option<string>, stepTokens: int, total: int): WebSocketEvent
  {
    WebSocketEvent(TokensUsed, tid, TokenInfo(stepTokens, total))
  }

  function ActionEv(tid: Option<string>, data: Dict<Json>, ar: D.ActionResult): WebSocketEvent
  {
    WebSocketEvent(ActionExecuted, tid, ActionInfo(FieldOr(data, "action", JNull), ar.success, ar.message, ar.error))
  }

  function ScreenEv(tid: Option<string>, screen: D.ScreenState): WebSocketEvent
  {
    WebSocketEvent(ScreenUpdated, tid, ScreenInfo(screen.package, screen.activity, |screen.elements|))
  }

  function StepCompletedEv(tid: Option<string>, k: nat, action: Json, success: bool): WebSocketEvent
  {
    WebSocketEvent(StepCompleted, tid, StepDone(k + 1, action, success))
  }

  /** `(step_num + 1) / max_steps * 100` */
  function Percent(k: nat, maxSteps: int): real
    requires maxSteps > 0
  {
    (k + 1) as real / maxSteps as real * 100.0
  }

  function ProgressEv(tid: Option<string>, k: nat, maxSteps: int): WebSocketEvent
    requires maxSteps > 0
  {
    WebSocketEvent(ProgressUpdate, tid, ProgressInfo(Percent(k, maxSteps), k + 1, maxSteps))
  }

  function ErrorEv(tid: Option<string>, message: string): WebSocketEvent
  {
    WebSocketEvent(Error, tid, ErrorInfo(message))
  }

  function TaskStartedEv(tid: Option<string>, task: string, cfg: Config.AgentConfig): WebSocketEvent
  {
    WebSocketEvent(TaskStarted, tid, TaskInfo(task, cfg.maxSteps, cfg.useComptext))
  }

  /** TASK_COMPLETED on success, TASK_FAILED otherwise. */
  function ClosingEv(tid: Option<string>, task: string, r: Agent.AgentResult): WebSocketEvent
  {
    if r.success then WebSocketEvent(TaskCompleted, tid, CompletedInfo(task, |r.steps|, r.totalTokens))
    else WebSocketEvent(TaskFailed, tid, FailedInfo(task, r.error, |r.steps|))
  }

  function Kinds(t: seq<WebSocketEvent>): (r: seq<EventType>)
    ensures |r| == |t| && forall i :: 0 <= i < |t| ==> r[i] == t[i].kind
  {
    seq(|t|, i requires 0 <= i < |t| => t[i].kind)
  }

  /** The events one pass of the loop body emits, from the same values the
    * base loop's `Advance` takes: the step start and the planning state,
    * then `AdvanceTail`. */
  function AdvanceEvents(cfg: Config.AgentConfig, tid: Option<string>, k: nat, p: Agent.Progress,
                         reply: Option<Agent.Reply>, data: Option<Dict<Json>>, ar: Option<D.ActionResult>,
                         screen: D.ScreenState, feedback: Option<string>): seq<WebSocketEvent>
    requires k < cfg.maxSteps
  {
    [StepStartedEv(tid, k, cfg.maxSteps), StateEv(tid, Agent.Planning)]
    + AdvanceTail(cfg, tid, k, p, reply, data, ar, screen, feedback)
  }

  /** After the planning state: an ERROR when the model call raised, else
    * the token count and `ParsedEvents`. */
  function AdvanceTail(cfg: Config.AgentConfig, tid: Option<string>, k: nat, p: Agent.Progress,
                       reply: Option<Agent.Reply>, data: Option<Dict<Json>>, ar: Option<D.ActionResult>,
                       screen: D.ScreenState, feedback: Option<string>): seq<WebSocketEvent>
    requires k < cfg.maxSteps
  {
    if reply.None? then [ErrorEv(tid, AgentDispatch.Raised)]
    else [TokensEv(tid, reply.value.totalTokens, p.tokens + reply.value.totalTokens)]
         + ParsedEvents(cfg, tid, k, p, reply.value, data, ar, screen, feedback)
  }

  /** After the token count: nothing for an undecodable reply, the completed
    * state for "done", else the executing state and `ActEvents`. */
  function ParsedEvents(cfg: Config.AgentConfig, tid: Option<string>, k: nat, p: Agent.Progress,
                        reply: Agent.Reply, data: Option<Dict<Json>>, ar: Option<D.ActionResult>,
                        screen: D.ScreenState, feedback: Option<string>): seq<WebSocketEvent>
    requires k < cfg.maxSteps
  {
    if data.None? || data.value == [] then []
    else if Agent.IsDone(data.value) then [StateEv(tid, Agent.Completed)]
    else
      [StateEv(tid, Agent.Executing)]
      + ActEvents(cfg, tid, k, data.value, Agent.NewStep(k, data.value, p.screen, reply.totalTokens).action,
                  ar, screen, feedback)
  }

  /** After the executing state: an ERROR when the action raised, else
    * `VerifyEvents`. */
  function ActEvents(cfg: Config.AgentConfig, tid: Option<string>, k: nat, data: Dict<Json>, action: Json,
                     ar: Option<D.ActionResult>, screen: D.ScreenState, feedback: Option<string>): seq<WebSocketEvent>
    requires k < cfg.maxSteps
  {
    if ar.None? then [ErrorEv(tid, AgentDispatch.Raised)]
    else VerifyEvents(cfg, tid, k, data, action, ar.value, screen, feedback)
  }

  /** The action's result, the verifying state, the new screen, the step's
    * completion, the progress, and an ERROR when the feedback raised. */
  function VerifyEvents(cfg: Config.AgentConfig, tid: Option<string>, k: nat, data: Dict<Json>, action: Json,
                        ar: D.ActionResult, screen: D.ScreenState, feedback: Option<string>): seq<WebSocketEvent>
    requires k < cfg.maxSteps
  {
    var shown := [ActionEv(tid, data, ar), StateEv(tid, Agent.Verifying), ScreenEv(tid, screen),
                  StepCompletedEv(tid, k, action, ar.success), ProgressEv(tid, k, cfg.maxSteps)];
    if feedback.None? then shown + [ErrorEv(tid, AgentDispatch.Raised)] else shown
  }

  /** The order of one iteration: a dispatched action emits, after the
    * step start, the planning state and the token count, the executing
    * state, its result, the verifying state, the new screen, the step's
    * completion and the progress; an undecodable reply stops after the
    * token count. */
  lemma StepOrder(cfg: Config.AgentConfig, tid: Option<string>, k: nat, p: Agent.Progress,
                  reply: Option<Agent.Reply>, data: Option<Dict<Json>>, ar: Option<D.ActionResult>,
                  screen: D.ScreenState, feedback: Option<string>)
    requires k < cfg.maxSteps && reply.Some?
    ensures data.None? || data.value == [] ==>
      Kinds(AdvanceEvents(cfg, tid, k, p, reply, data, ar, screen, feedback)) == [StepStarted, StateChanged, TokensUsed]
    ensures data.Some? && data.value != [] && !Agent.IsDone(data.value) && ar.Some? && feedback.Some? ==>
      Kinds(AdvanceEvents(cfg, tid, k, p, reply, data, ar, screen, feedback))
        == [StepStarted, StateChanged, TokensUsed, StateChanged, ActionExecuted, StateChanged,
            ScreenUpdated, StepCompleted, ProgressUpdate]
  {
  }

  /** The events of one pass of the base loop's `Step`. */
  function StepEvents(cfg: Config.AgentConfig, env: Agent.Env, h: Agent.Helpers, tid: Option<string>,
                      k: nat, p: Agent.Progress): seq<WebSocketEvent>
    requires k < cfg.maxSteps
  {
    var reply := env.chat(k, p.messages);
    var data := if reply.None? then None else h.parse(reply.value.content);
    var ar := if data.None? || data.value == [] || Agent.IsDone(data.value) then None
              else h.act(k, data.value, p.screen.elements);
    var screen := env.screen(k + 1);
    var feedback := if ar.None? then None else h.feedback(ar.value, screen);
    AdvanceEvents(cfg, tid, k, p, reply, data, ar, screen, feedback)
  }

  // ---------------------------------------------------------------------------
  // The recorded "done" step

  /** The class name of the agent's device object. */
  const DeviceClassName := "DroidRunWrapper"

  /** This agent records a "done" step with the device's class name as its
    * action, where the base agent records WAIT. */
  const WsDoneResult := D.ActionResult(true, D.Named(DeviceClassName), "Task completed", None, None)

  /** The steps with the last one's result replaced by this agent's "done" result. */
  function DoneRecorded(steps: seq<Agent.AgentStep>): (r: seq<Agent.AgentStep>)
    ensures |r| == |steps|
    ensures |steps| > 0 ==> r[..|r| - 1] == steps[..|steps| - 1] && r[|r| - 1].result == Some(WsDoneResult)
  {
    if steps == [] then steps
    else steps[..|steps| - 1] + [steps[|steps| - 1].(result := Some(WsDoneResult))]
  }

  /** The base loop's variables as this agent leaves them. */
  function Relabel(p: Agent.Progress): Agent.Progress
  {
    if p.state == Agent.Completed then p.(steps := DoneRecorded(p.steps)) else p
  }

  /** The loop body's effect: the base agent's, except for the result a
    * "done" step records. */
  function WsAdvance(cfg: Config.AgentConfig, k: nat, p: Agent.Progress, reply: Option<Agent.Reply>,
                     data: Option<Dict<Json>>, ar: Option<D.ActionResult>, screen: D.ScreenState,
                     feedback: Option<string>): Agent.Progress
  {
    if reply.Some? && data.Some? && data.value != [] && Agent.IsDone(data.value) then
      var step := Agent.NewStep(k, data.value, p.screen, reply.value.totalTokens);
      p.(state := Agent.Completed, tokens := p.tokens + reply.value.totalTokens,
         steps := p.steps + [step.(result := Some(WsDoneResult))], success := true, stopped := true)
    else Agent.Advance(cfg, k, p, reply, data, ar, screen, feedback)
  }

  /** `WsAdvance` is the base agent's pass with the "done" step relabelled. */
  lemma WsAdvanceRelabels(cfg: Config.AgentConfig, k: nat, p: Agent.Progress, reply: Option<Agent.Reply>,
                          data: Option<Dict<Json>>, ar: Option<D.ActionResult>, screen: D.ScreenState,
                          feedback: Option<string>)
    ensures WsAdvance(cfg, k, p, reply, data, ar, screen, feedback)
         == Relabel(Agent.Advance(cfg, k, p, reply, data, ar, screen, feedback))
  {
    var q := Agent.Advance(cfg, k, p, reply, data, ar, screen, feedback);
    Agent.CompletedOnDone(cfg, k, p, reply, data, ar, screen, feedback);
    if reply.Some? && data.Some? && data.value != [] && Agent.IsDone(data.value) {
      var step := Agent.NewStep(k, data.value, p.screen, reply.value.totalTokens);
      Agent.AdvanceReplied(cfg, k, p, reply.value, data, ar, screen, feedback);
      assert q.steps == p.steps + [step.(result := Some(Agent.DoneResult))];
      assert q.steps[..|q.steps| - 1] == p.steps;
    }
  }

  /** One pass of this agent's loop. */
  function WsStep(cfg: Config.AgentConfig, env: Agent.Env, h: Agent.Helpers, k: nat, p: Agent.Progress): Agent.Progress
  {
    var reply := env.chat(k, p.messages);
    var data := if reply.None? then None else h.parse(reply.value.content);
    var ar := if data.None? || data.value == [] || Agent.IsDone(data.value) then None
              else h.act(k, data.value, p.screen.elements);
    var screen := env.screen(k + 1);
    var feedback := if ar.None? then None else h.feedback(ar.value, screen);
    WsAdvance(cfg, k, p, reply, data, ar, screen, feedback)
  }

  lemma WsStepRelabels(cfg: Config.AgentConfig, env: Agent.Env, h: Agent.Helpers, k: nat, p: Agent.Progress)
    ensures WsStep(cfg, env, h, k, p) == Relabel(Agent.Step(cfg, env, h, k, p))
  {
    var reply := env.chat(k, p.messages);
    var data := if reply.None? then None else h.parse(reply.value.content);
    var ar := if data.None? || data.value == [] || Agent.IsDone(data.value) then None
              else h.act(k, data.value, p.screen.elements);
    var screen := env.screen(k + 1);
    var feedback := if ar.None? then None else h.feedback(ar.value, screen);
    WsAdvanceRelabels(cfg, k, p, reply, data, ar, screen, feedback);
  }

  /** `execute(task)` of this agent with helpers `h`: the result, the final
    * state and the memory. */
  function WsRun(cfg: Config.AgentConfig, env: Agent.Env, h: Agent.Helpers, task: string, memory: seq<D.ScreenState>)
    : (Agent.AgentResult, Agent.AgentState, seq<D.ScreenState>)
  {
    match Agent.Start(cfg, env, h, task, memory)
    case None => Agent.Run(cfg, env, h, task, memory)
    case Some(p0) =>
      var p := Relabel(Agent.Loop(cfg, env, h, 0, p0));
      var (r, st) := Agent.Finish(task, p);
      (r, st, p.memory)
  }

  /** This agent's run ends as the base agent's: the same state, memory,
    * success, error, token count and screen; only a successful run's last
    * step records the device's class name as its action. */
  lemma WsRunAgrees(cfg: Config.AgentConfig, env: Agent.Env, h: Agent.Helpers, task: string, memory: seq<D.ScreenState>)
    ensures var (r, st, m) := Agent.Run(cfg, env, h, task, memory);
      WsRun(cfg, env, h, task, memory) == (if r.success then r.(steps := DoneRecorded(r.steps)) else r, st, m)
    ensures var r := WsRun(cfg, env, h, task, memory).0;
      r.success ==> |r.steps| > 0 && r.steps[|r.steps| - 1].result == Some(WsDoneResult)
  {
    match Agent.Start(cfg, env, h, task, memory)
    case None =>
    case Some(p0) =>
      var p := Agent.Loop(cfg, env, h, 0, p0);
      Agent.LoopKeepsInv(cfg, env, h, 0, p0);
      Agent.RunIs(cfg, env, h, task, memory);
      assert p.state == Agent.Completed <==> p.success;
  }

  /** The loop's variables paired with the events emitted so far. */
  type Traced = (Agent.Progress, seq<WebSocketEvent>)

  function TracedStep(cfg: Config.AgentConfig, env: Agent.Env, h: Agent.Helpers, tid: Option<string>)
    : (nat, Traced) -> Traced
  {
    (j: nat, s: Traced) =>
      if j < cfg.maxSteps then (WsStep(cfg, env, h, j, s.0), s.1 + StepEvents(cfg, env, h, tid, j, s.0)) else s
  }

  function TracedStopped(s: Traced): bool { s.0.stopped }

  function TracedLoop(cfg: Config.AgentConfig, env: Agent.Env, h: Agent.Helpers, tid: Option<string>,
                      k: nat, s: Traced): Traced
  {
    Agent.Iterate(TracedStep(cfg, env, h, tid), TracedStopped, k, cfg.maxSteps, s)
  }

  /** The traced loop runs the base loop, the "done" step relabelled. */
  lemma {:induction false} TracedLoopIsLoop(cfg: Config.AgentConfig, env: Agent.Env, h: Agent.Helpers,
                                             tid: Option<string>, k: nat, s: Traced)
    requires s.0.state != Agent.Completed
    ensures TracedLoop(cfg, env, h, tid, k, s).0 == Relabel(Agent.Loop(cfg, env, h, k, s.0))
    decreases if cfg.maxSteps > k then cfg.maxSteps - k else 0
  {
    if !s.0.stopped && k < cfg.maxSteps {
      var q := Agent.Step(cfg, env, h, k, s.0);
      var next := TracedStep(cfg, env, h, tid)(k, s);
      WsStepRelabels(cfg, env, h, k, s.0);
      Agent.LoopStep(cfg, env, h, k, s.0);
      TracedLoopStep(cfg, env, h, tid, k, s);
      if q.state == Agent.Completed {
        Agent.StepDone(cfg, env, h, k, s.0);
        TracedLoopEnd(cfg, env, h, tid, k + 1, next);
        Agent.LoopEnd(cfg, env, h, k + 1, q);
      } else {
        TracedLoopIsLoop(cfg, env, h, tid, k + 1, next);
      }
    } else {
      TracedLoopEnd(cfg, env, h, tid, k, s);
      Agent.LoopEnd(cfg, env, h, k, s.0);
    }
  }

  /** `_execute_with_events` from the first screen on: the result, the final
    * state, the memory and the events, in order. */
  function WithEvents(cfg: Config.AgentConfig, env: Agent.Env, h: Agent.Helpers, tid: Option<string>,
                      task: string, memory: seq<D.ScreenState>): seq<WebSocketEvent>
  {
    var opening := [ScreenEv(tid, env.screen(0))];
    match Agent.Start(cfg, env, h, task, memory)
    case None => opening + [ErrorEv(tid, AgentDispatch.Raised)]
    case Some(p0) => opening + TracedLoop(cfg, env, h, tid, 0, (p0, [])).1
  }

  lemma WithEventsIs(cfg: Config.AgentConfig, env: Agent.Env, h: Agent.Helpers, tid: Option<string>,
                     task: string, memory: seq<D.ScreenState>)
    requires Agent.Start(cfg, env, h, task, memory).Some?
    ensures WithEvents(cfg, env, h, tid, task, memory)
         == [ScreenEv(tid, env.screen(0))] + TracedLoop(cfg, env, h, tid, 0, (Agent.Start(cfg, env, h, task, memory).value, [])).1
  {
  }

  /** The events of `execute(task)`: TASK_STARTED, the run's events, then
    * the closing event. */
  function ExecuteEvents(cfg: Config.AgentConfig, env: Agent.Env, h: Agent.Helpers, tid: Option<string>,
                         task: string, memory: seq<D.ScreenState>): seq<WebSocketEvent>
  {
    [TaskStartedEv(tid, task, cfg)] + WithEvents(cfg, env, h, tid, task, memory)
    + [ClosingEv(tid, task, WsRun(cfg, env, h, task, memory).0)]
  }

  // ---------------------------------------------------------------------------
  // Projections of a trace

  function StartOf(e: WebSocketEvent): seq<int>
  {
    if e.kind == StepStarted && e.payload.StepInfo? then [e.payload.step] else []
  }

  function ProgressOf(e: WebSocketEvent): seq<real>
  {
    if e.kind == ProgressUpdate && e.payload.ProgressInfo? then [e.payload.progress] else []
  }

  predicate IsLifecycle(k: EventType)
  {
    k == TaskStarted || k == TaskCompleted || k == TaskFailed
  }

  function LifeOf(e: WebSocketEvent): seq<EventType>
  {
    if IsLifecycle(e.kind) then [e.kind] else []
  }

  function Starts(t: seq<WebSocketEvent>): seq<int>
  {
    if t == [] then [] else StartOf(t[0]) + Starts(t[1..])
  }

  function Progresses(t: seq<WebSocketEvent>): seq<real>
  {
    if t == [] then [] else ProgressOf(t[0]) + Progresses(t[1..])
  }

  function Lifecycle(t: seq<WebSocketEvent>): seq<EventType>
  {
    if t == [] then [] else LifeOf(t[0]) + Lifecycle(t[1..])
  }

  lemma {:induction false} StartsAppend(a: seq<WebSocketEvent>, b: seq<WebSocketEvent>)
    ensures Starts(a + b) == Starts(a) + Starts(b)
  {
    if a == [] {
      assert a + b == b;
    } else {
      assert (a + b)[1..] == a[1..] + b;
      StartsAppend(a[1..], b);
    }
  }

  lemma {:induction false} ProgressesAppend(a: seq<WebSocketEvent>, b: seq<WebSocketEvent>)
    ensures Progresses(a + b) == Progresses(a) + Progresses(b)
  {
    if a == [] {
      assert a + b == b;
    } else {
      assert (a + b)[1..] == a[1..] + b;
      ProgressesAppend(a[1..], b);
    }
  }

  lemma {:induction false} LifecycleAppend(a: seq<WebSocketEvent>, b: seq<WebSocketEvent>)
    ensures Lifecycle(a + b) == Lifecycle(a) + Lifecycle(b)
  {
    if a == [] {
      assert a + b == b;
    } else {
      assert (a + b)[1..] == a[1..] + b;
      LifecycleAppend(a[1..], b);
    }
  }

  lemma ProjectAppend(a: seq<WebSocketEvent>, b: seq<WebSocketEvent>)
    ensures Starts(a + b) == Starts(a) + Starts(b)
    ensures Progresses(a + b) == Progresses(a) + Progresses(b)
    ensures Lifecycle(a + b) == Lifecycle(a) + Lifecycle(b)
  {
    StartsAppend(a, b);
    ProgressesAppend(a, b);
    LifecycleAppend(a, b);
  }

  lemma ProjectOne(e: WebSocketEvent)
    ensures Starts([e]) == StartOf(e) && Progresses([e]) == ProgressOf(e) && Lifecycle([e]) == LifeOf(e)
  {
    assert [e][1..] == [];
  }

  /** No STEP_STARTED, PROGRESS_UPDATE or lifecycle event. */
  predicate Silent(t: seq<WebSocketEvent>)
  {
    forall i :: 0 <= i < |t| ==> t[i].kind != StepStarted && t[i].kind != ProgressUpdate && !IsLifecycle(t[i].kind)
  }

  /** No step number, no lifecycle event, and at most the progress value `pp`. */
  predicate OneStep(t: seq<WebSocketEvent>, pp: real)
  {
    Starts(t) == [] && Lifecycle(t) == []
    && (Progresses(t) == [] || Progresses(t) == [pp])
  }

  /** A silent trace projects to nothing. */
  lemma {:induction false} Quiet(t: seq<WebSocketEvent>)
    requires Silent(t)
    ensures Starts(t) == [] && Progresses(t) == [] && Lifecycle(t) == []
  {
    if t != [] {
      Quiet(t[1..]);
    }
  }

  lemma SilentPrepend(q: seq<WebSocketEvent>, t: seq<WebSocketEvent>, pp: real)
    requires Silent(q) && OneStep(t, pp)
    ensures OneStep(q + t, pp)
  {
    Quiet(q);
    ProjectAppend(q, t);
  }

  /** A single progress event between two silent traces. */
  lemma SilentAround(q: seq<WebSocketEvent>, pe: WebSocketEvent, r: seq<WebSocketEvent>)
    requires Silent(q) && Silent(r) && pe.kind == ProgressUpdate && pe.payload.ProgressInfo?
    ensures OneStep(q + [pe] + r, pe.payload.progress)
  {
    Quiet(q);
    Quiet(r);
    ProjectOne(pe);
    ProjectAppend(q, [pe]);
    ProjectAppend(q + [pe], r);
  }

  lemma VerifyOneStep(cfg: Config.AgentConfig, tid: Option<string>, k: nat, data: Dict<Json>, action: Json,
                      ar: D.ActionResult, screen: D.ScreenState, feedback: Option<string>)
    requires k < cfg.maxSteps
    ensures OneStep(VerifyEvents(cfg, tid, k, data, action, ar, screen, feedback), Percent(k, cfg.maxSteps))
  {
    var pe := ProgressEv(tid, k, cfg.maxSteps);
    var before := [ActionEv(tid, data, ar), StateEv(tid, Agent.Verifying), ScreenEv(tid, screen),
                   StepCompletedEv(tid, k, action, ar.success)];
    var after: seq<WebSocketEvent> := if feedback.None? then [ErrorEv(tid, AgentDispatch.Raised)] else [];
    assert VerifyEvents(cfg, tid, k, data, action, ar, screen, feedback) == before + [pe] + after;
    SilentAround(before, pe, after);
  }

  /** After the executing state: no step number, at most the progress
    * value of step `k` and no lifecycle event. */
  lemma ActOneStep(cfg: Config.AgentConfig, tid: Option<string>, k: nat, data: Dict<Json>, action: Json,
                   ar: Option<D.ActionResult>, screen: D.ScreenState, feedback: Option<string>)
    requires k < cfg.maxSteps
    ensures OneStep(ActEvents(cfg, tid, k, data, action, ar, screen, feedback), Percent(k, cfg.maxSteps))
  {
    if ar.None? {
      Quiet(ActEvents(cfg, tid, k, data, action, ar, screen, feedback));
    } else {
      VerifyOneStep(cfg, tid, k, data, action, ar.value, screen, feedback);
    }
  }

  /** After the token count: the same. */
  lemma ParsedOneStep(cfg: Config.AgentConfig, tid: Option<string>, k: nat, p: Agent.Progress,
                      reply: Agent.Reply, data: Option<Dict<Json>>, ar: Option<D.ActionResult>,
                      screen: D.ScreenState, feedback: Option<string>)
    requires k < cfg.maxSteps
    ensures OneStep(ParsedEvents(cfg, tid, k, p, reply, data, ar, screen, feedback), Percent(k, cfg.maxSteps))
  {
    var parsed := ParsedEvents(cfg, tid, k, p, reply, data, ar, screen, feedback);
    if data.None? || data.value == [] || Agent.IsDone(data.value) {
      Quiet(parsed);
    } else {
      var action := Agent.NewStep(k, data.value, p.screen, reply.totalTokens).action;
      var acted := ActEvents(cfg, tid, k, data.value, action, ar, screen, feedback);
      ActOneStep(cfg, tid, k, data.value, action, ar, screen, feedback);
      SilentPrepend([StateEv(tid, Agent.Executing)], acted, Percent(k, cfg.maxSteps));
    }
  }

  /** After the planning state: the same. */
  lemma TailOneStep(cfg: Config.AgentConfig, tid: Option<string>, k: nat, p: Agent.Progress,
                    reply: Option<Agent.Reply>, data: Option<Dict<Json>>, ar: Option<D.ActionResult>,
                    screen: D.ScreenState, feedback: Option<string>)
    requires k < cfg.maxSteps
    ensures OneStep(AdvanceTail(cfg, tid, k, p, reply, data, ar, screen, feedback), Percent(k, cfg.maxSteps))
  {
    if reply.None? {
      Quiet(AdvanceTail(cfg, tid, k, p, reply, data, ar, screen, feedback));
    } else {
      var parsed := ParsedEvents(cfg, tid, k, p, reply.value, data, ar, screen, feedback);
      ParsedOneStep(cfg, tid, k, p, reply.value, data, ar, screen, feedback);
      SilentPrepend([TokensEv(tid, reply.value.totalTokens, p.tokens + reply.value.totalTokens)], parsed,
                    Percent(k, cfg.maxSteps));
    }
  }

  /** What one pass of the body contributes: its step number once, at most
    * one progress value, the one of step `k`, and no lifecycle event. */
  lemma AdvanceProjections(cfg: Config.AgentConfig, tid: Option<string>, k: nat, p: Agent.Progress,
                           reply: Option<Agent.Reply>, data: Option<Dict<Json>>, ar: Option<D.ActionResult>,
                           screen: D.ScreenState, feedback: Option<string>)
    requires k < cfg.maxSteps
    ensures var t := AdvanceEvents(cfg, tid, k, p, reply, data, ar, screen, feedback);
      Starts(t) == [k + 1]
      && (Progresses(t) == [] || Progresses(t) == [Percent(k, cfg.maxSteps)])
      && Lifecycle(t) == []
  {
    var ss := StepStartedEv(tid, k, cfg.maxSteps);
    var tail := AdvanceTail(cfg, tid, k, p, reply, data, ar, screen, feedback);
    TailOneStep(cfg, tid, k, p, reply, data, ar, screen, feedback);
    SilentPrepend([StateEv(tid, Agent.Planning)], tail, Percent(k, cfg.maxSteps));
    var rest := [StateEv(tid, Agent.Planning)] + tail;
    assert AdvanceEvents(cfg, tid, k, p, reply, data, ar, screen, feedback) == [ss] + rest;
    ProjectOne(ss);
    ProjectAppend([ss], rest);
  }

  /** The same for one pass of the base loop's `Step`. */
  lemma StepProjections(cfg: Config.AgentConfig, env: Agent.Env, h: Agent.Helpers, tid: Option<string>,
                        k: nat, p: Agent.Progress)
    requires k < cfg.maxSteps
    ensures var t := StepEvents(cfg, env, h, tid, k, p);
      Starts(t) == [k + 1]
      && (Progresses(t) == [] || Progresses(t) == [Percent(k, cfg.maxSteps)])
      && Lifecycle(t) == []
  {
    var reply := env.chat(k, p.messages);
    var data := if reply.None? then None else h.parse(reply.value.content);
    var ar := if data.None? || data.value == [] || Agent.IsDone(data.value) then None
              else h.act(k, data.value, p.screen.elements);
    var screen := env.screen(k + 1);
    var feedback := if ar.None? then None else h.feedback(ar.value, screen);
    AdvanceProjections(cfg, tid, k, p, reply, data, ar, screen, feedback);
  }

  // ---------------------------------------------------------------------------
  // What every run's trace guarantees

  /** STEP_STARTED events count 1, 2, 3, ... */
  predicate Numbered(st: seq<int>)
  {
    forall i :: 0 <= i < |st| ==> st[i] == i + 1
  }

  predicate Rising(pr: seq<real>)
  {
    forall a, b :: 0 <= a < b < |pr| ==> pr[a] < pr[b]
  }

  /** Every progress value is positive and at most `j / maxSteps * 100`. */
  predicate Within(pr: seq<real>, maxSteps: int, j: nat)
  {
    forall i :: 0 <= i < |pr| ==> 0.0 < pr[i] && pr[i] * maxSteps as real <= j as real * 100.0
  }

  /** The loop's trace `t` after `j` passes, `stopped` telling whether it
    * broke out. */
  predicate TraceOk(maxSteps: int, j: nat, t: seq<WebSocketEvent>, stopped: bool)
  {
    var st := Starts(t);
    var pr := Progresses(t);
    Numbered(st) && |st| <= j && (!stopped && j <= maxSteps ==> |st| == j)
    && Rising(pr) && Within(pr, maxSteps, j)
    && Lifecycle(t) == []
  }

  predicate TraceInv(maxSteps: int, j: nat, s: Traced)
  {
    TraceOk(maxSteps, j, s.1, s.0.stopped)
  }

  lemma PercentScaled(k: nat, maxSteps: int)
    requires maxSteps > 0
    ensures Percent(k, maxSteps) > 0.0
    ensures Percent(k, maxSteps) * maxSteps as real == (k + 1) as real * 100.0
  {
    var m := maxSteps as real;
    var q := (k + 1) as real / m;
    assert q * m == (k + 1) as real;
    assert Percent(k, maxSteps) * m == q * m * 100.0;
  }

  lemma RisingGrow(pr: seq<real>, maxSteps: int, j: nat, x: real)
    requires maxSteps > 0 && Rising(pr) && Within(pr, maxSteps, j)
    requires x * maxSteps as real == (j + 1) as real * 100.0
    ensures Rising(pr + [x])
  {
    var t := pr + [x];
    forall a, b | 0 <= a < b < |t|
      ensures t[a] < t[b]
    {
      if b < |pr| {
        assert t[a] == pr[a] && t[b] == pr[b];
      } else {
        assert t[a] == pr[a] && t[b] == x;
        BelowScaled(pr[a], x, maxSteps as real, j as real);
      }
    }
  }

  /** A value scaled to at most `j * 100` lies below one scaled to `(j + 1) * 100`. */
  lemma BelowScaled(y: real, x: real, m: real, j: real)
    requires m > 0.0 && y * m <= j * 100.0 && x * m == (j + 1.0) * 100.0
    ensures y < x
  {
    assert (x - y) * m >= 100.0;
  }

  lemma ProgressGrow(pr: seq<real>, maxSteps: int, j: nat, add: seq<real>)
    requires j < maxSteps && Rising(pr) && Within(pr, maxSteps, j)
    requires add == [] || add == [Percent(j, maxSteps)]
    ensures Rising(pr + add) && Within(pr + add, maxSteps, j + 1)
  {
    WithinMono(pr, maxSteps, j);
    if add != [] {
      PercentScaled(j, maxSteps);
      RisingGrow(pr, maxSteps, j, add[0]);
      WithinSnoc(pr, maxSteps, j + 1, add[0]);
    } else {
      assert pr + add == pr;
    }
  }

  lemma WithinMono(pr: seq<real>, maxSteps: int, j: nat)
    requires Within(pr, maxSteps, j)
    ensures Within(pr, maxSteps, j + 1)
  {
    forall i | 0 <= i < |pr|
      ensures pr[i] * maxSteps as real <= (j + 1) as real * 100.0
    {
      assert j as real * 100.0 <= (j + 1) as real * 100.0;
    }
  }

  lemma WithinSnoc(pr: seq<real>, maxSteps: int, j: nat, x: real)
    requires Within(pr, maxSteps, j) && 0.0 < x && x * maxSteps as real <= j as real * 100.0
    ensures Within(pr + [x], maxSteps, j)
  {
    var pr' := pr + [x];
    forall i | 0 <= i < |pr'|
      ensures 0.0 < pr'[i] && pr'[i] * maxSteps as real <= j as real * 100.0
    {
      if i < |pr| {
        assert pr'[i] == pr[i];
      }
    }
  }

  /** Appending the events of pass `j` keeps the trace invariant. */
  lemma TraceGrow(maxSteps: int, j: nat, t: seq<WebSocketEvent>, e: seq<WebSocketEvent>, stopped: bool)
    requires j < maxSteps && TraceOk(maxSteps, j, t, false)
    requires Starts(e) == [j + 1] && Lifecycle(e) == []
    requires Progresses(e) == [] || Progresses(e) == [Percent(j, maxSteps)]
    ensures TraceOk(maxSteps, j + 1, t + e, stopped)
  {
    ProjectAppend(t, e);
    NumberedSnoc(Starts(t), j);
    ProgressGrow(Progresses(t), maxSteps, j, Progresses(e));
    assert Lifecycle(t + e) == [] + [];
  }

  lemma NumberedSnoc(st: seq<int>, j: nat)
    requires Numbered(st) && |st| == j
    ensures Numbered(st + [j + 1])
  {
  }

  /** One pass keeps the trace invariant. */
  lemma TracedStepKeeps(cfg: Config.AgentConfig, env: Agent.Env, h: Agent.Helpers, tid: Option<string>,
                        j: nat, s: Traced)
    requires TraceInv(cfg.maxSteps, j, s) && !s.0.stopped
    ensures TraceInv(cfg.maxSteps, j + 1, TracedStep(cfg, env, h, tid)(j, s))
  {
    if j < cfg.maxSteps {
      var next := WsStep(cfg, env, h, j, s.0);
      var e := StepEvents(cfg, env, h, tid, j, s.0);
      assert TracedStep(cfg, env, h, tid)(j, s) == (next, s.1 + e);
      StepProjections(cfg, env, h, tid, j, s.0);
      TraceGrow(cfg.maxSteps, j, s.1, e, next.stopped);
    } else {
      assert TracedStep(cfg, env, h, tid)(j, s) == s;
      WithinMono(Progresses(s.1), cfg.maxSteps, j);
    }
  }

  /** Each pass, run or skipped, keeps the trace invariant. */
  lemma TracedPassesKeep(cfg: Config.AgentConfig, env: Agent.Env, h: Agent.Helpers, tid: Option<string>)
    ensures forall j: nat, q: Traced :: TraceInv(cfg.maxSteps, j, q) && !TracedStopped(q)
              ==> TraceInv(cfg.maxSteps, j + 1, TracedStep(cfg, env, h, tid)(j, q))
    ensures forall j: nat, q: Traced :: TraceInv(cfg.maxSteps, j, q) && TracedStopped(q)
              ==> TraceInv(cfg.maxSteps, j + 1, q)
  {
    forall j: nat, q: Traced | TraceInv(cfg.maxSteps, j, q) && !TracedStopped(q)
      ensures TraceInv(cfg.maxSteps, j + 1, TracedStep(cfg, env, h, tid)(j, q))
    {
      TracedStepKeeps(cfg, env, h, tid, j, q);
    }
  }

  /** The trace invariant holds when the loop ends. */
  lemma TracedLoopKeeps(cfg: Config.AgentConfig, env: Agent.Env, h: Agent.Helpers, tid: Option<string>, s: Traced)
    requires TraceInv(cfg.maxSteps, 0, s)
    ensures TraceInv(cfg.maxSteps, if 0 < cfg.maxSteps then cfg.maxSteps else 0, TracedLoop(cfg, env, h, tid, 0, s))
  {
    TracedPassesKeep(cfg, env, h, tid);
    Agent.IterateInv(TracedStep(cfg, env, h, tid), TracedStopped, (j: nat, q: Traced) => TraceInv(cfg.maxSteps, j, q),
                     0, cfg.maxSteps, s);
  }

  /** The events of `_execute_with_events`: no lifecycle event, steps
    * announced as 1, 2, ... up to at most `max_steps`, progress rising
    * strictly within (0, 100]. */
  lemma WithEventsTrace(cfg: Config.AgentConfig, env: Agent.Env, h: Agent.Helpers, tid: Option<string>,
                        task: string, memory: seq<D.ScreenState>)
    ensures var t := WithEvents(cfg, env, h, tid, task, memory);
      && Lifecycle(t) == []
      && Numbered(Starts(t)) && (|Starts(t)| == 0 || |Starts(t)| <= cfg.maxSteps)
      && Rising(Progresses(t)) && Within(Progresses(t), 1, 100)
  {
    var opening := [ScreenEv(tid, env.screen(0))];
    var rest := WithEvents(cfg, env, h, tid, task, memory)[1..];
    assert WithEvents(cfg, env, h, tid, task, memory) == opening + rest;
    QuietPrefix(opening, rest);
    match Agent.Start(cfg, env, h, task, memory) {
      case None =>
        assert rest == [ErrorEv(tid, AgentDispatch.Raised)];
        Quiet(rest);
      case Some(p0) =>
        WithEventsIs(cfg, env, h, tid, task, memory);
        assert rest == TracedLoop(cfg, env, h, tid, 0, (p0, [])).1;
        LoopTrace(cfg, env, h, tid, p0);
    }
  }

  /** Silent events in front change no projection. */
  lemma QuietPrefix(q: seq<WebSocketEvent>, t: seq<WebSocketEvent>)
    requires Silent(q)
    ensures Starts(q + t) == Starts(t) && Progresses(q + t) == Progresses(t) && Lifecycle(q + t) == Lifecycle(t)
  {
    Quiet(q);
    ProjectAppend(q, t);
    assert [] + Starts(t) == Starts(t);
    assert [] + Progresses(t) == Progresses(t);
    assert [] + Lifecycle(t) == Lifecycle(t);
  }

  /** The events of the step loop from the first plan. */
  lemma LoopTrace(cfg: Config.AgentConfig, env: Agent.Env, h: Agent.Helpers, tid: Option<string>, p0: Agent.Progress)
    ensures var t := TracedLoop(cfg, env, h, tid, 0, (p0, [])).1;
      && Lifecycle(t) == []
      && Numbered(Starts(t)) && (|Starts(t)| == 0 || |Starts(t)| <= cfg.maxSteps)
      && Rising(Progresses(t)) && Within(Progresses(t), 1, 100)
  {
    assert TraceInv(cfg.maxSteps, 0, (p0, []));
    TracedLoopKeeps(cfg, env, h, tid, (p0, []));
    if cfg.maxSteps > 0 {
      WithinScale(Progresses(TracedLoop(cfg, env, h, tid, 0, (p0, [])).1), cfg.maxSteps);
    }
  }

  /** Values within `maxSteps / maxSteps * 100` are within 100. */
  lemma WithinScale(pr: seq<real>, maxSteps: int)
    requires maxSteps > 0 && Within(pr, maxSteps, maxSteps)
    ensures Within(pr, 1, 100)
  {
    forall i | 0 <= i < |pr|
      ensures pr[i] <= 100.0
    {
      assert pr[i] * maxSteps as real <= maxSteps as real * 100.0;
    }
  }

  /** The events of `execute(task)` open with TASK_STARTED and close with
    * TASK_COMPLETED (on success) or TASK_FAILED, with no other lifecycle
    * event. */
  lemma ExecuteLifecycle(cfg: Config.AgentConfig, env: Agent.Env, h: Agent.Helpers, tid: Option<string>,
                         task: string, memory: seq<D.ScreenState>)
    ensures var t := ExecuteEvents(cfg, env, h, tid, task, memory);
      var r := WsRun(cfg, env, h, task, memory).0;
      && t[0] == TaskStartedEv(tid, task, cfg)
      && t[|t| - 1] == ClosingEv(tid, task, r)
      && Lifecycle(t) == [TaskStarted, if r.success then TaskCompleted else TaskFailed]
  {
    var r := WsRun(cfg, env, h, task, memory).0;
    WithEventsTrace(cfg, env, h, tid, task, memory);
    Wrapped(TaskStartedEv(tid, task, cfg), WithEvents(cfg, env, h, tid, task, memory), ClosingEv(tid, task, r), r.success);
  }

  /** A body with no lifecycle event, between TASK_STARTED and the closing
    * event. */
  lemma Wrapped(a: WebSocketEvent, body: seq<WebSocketEvent>, z: WebSocketEvent, success: bool)
    requires a.kind == TaskStarted && z.kind == (if success then TaskCompleted else TaskFailed)
    requires Lifecycle(body) == []
    ensures var t := [a] + body + [z];
      t[0] == a && t[|t| - 1] == z && Lifecycle(t) == [TaskStarted, if success then TaskCompleted else TaskFailed]
  {
    assert [a] + body + [z] == [a] + (body + [z]);
    AroundLifecycle(a, body, z);
  }

  /** In the events of `execute(task)` the steps are announced as 1, 2, ...
    * up to at most `max_steps`, and the progress values rise strictly and
    * stay within (0, 100]. */
  lemma ExecuteProgress(cfg: Config.AgentConfig, env: Agent.Env, h: Agent.Helpers, tid: Option<string>,
                        task: string, memory: seq<D.ScreenState>)
    ensures var t := ExecuteEvents(cfg, env, h, tid, task, memory);
      && Numbered(Starts(t)) && (|Starts(t)| == 0 || |Starts(t)| <= cfg.maxSteps)
      && Rising(Progresses(t)) && Within(Progresses(t), 1, 100)
  {
    var r := WsRun(cfg, env, h, task, memory).0;
    var first := [TaskStartedEv(tid, task, cfg)];
    var body := WithEvents(cfg, env, h, tid, task, memory);
    var last := [ClosingEv(tid, task, r)];
    assert ExecuteEvents(cfg, env, h, tid, task, memory) == first + (body + last);
    WithEventsTrace(cfg, env, h, tid, task, memory);
    AroundStarts(first[0], body, last[0]);
    AroundProgresses(first[0], body, last[0]);
  }

  /** Wrapping a body in two lifecycle events adds no step number ... */
  lemma AroundStarts(a: WebSocketEvent, body: seq<WebSocketEvent>, z: WebSocketEvent)
    requires a.kind == TaskStarted && IsLifecycle(z.kind)
    ensures Starts([a] + (body + [z])) == Starts(body)
  {
    ProjectOne(a);
    ProjectOne(z);
    StartsAppend(body, [z]);
    StartsAppend([a], body + [z]);
  }

  /** ... no progress value ... */
  lemma AroundProgresses(a: WebSocketEvent, body: seq<WebSocketEvent>, z: WebSocketEvent)
    requires a.kind == TaskStarted && IsLifecycle(z.kind)
    ensures Progresses([a] + (body + [z])) == Progresses(body)
  {
    ProjectOne(a);
    ProjectOne(z);
    ProgressesAppend(body, [z]);
    ProgressesAppend([a], body + [z]);
  }

  /** ... and the two events around the body's lifecycle. */
  lemma AroundLifecycle(a: WebSocketEvent, body: seq<WebSocketEvent>, z: WebSocketEvent)
    requires a.kind == TaskStarted && IsLifecycle(z.kind)
    ensures Lifecycle([a] + (body + [z])) == [a.kind] + Lifecycle(body) + [z.kind]
  {
    var mid := Lifecycle(body);
    ProjectOne(z);
    assert LifeOf(z) == [z.kind];
    LifecycleAppend(body, [z]);
    assert Lifecycle(body + [z]) == mid + [z.kind];
    ProjectOne(a);
    assert LifeOf(a) == [a.kind];
    LifecycleAppend([a], body + [z]);
    assert Lifecycle([a] + (body + [z])) == [a.kind] + (mid + [z.kind]);
  }

  lemma TracedLoopStep(cfg: Config.AgentConfig, env: Agent.Env, h: Agent.Helpers, tid: Option<string>,
                       k: nat, s: Traced)
    requires !s.0.stopped && k < cfg.maxSteps
    ensures TracedLoop(cfg, env, h, tid, k, s)
         == TracedLoop(cfg, env, h, tid, k + 1, (WsStep(cfg, env, h, k, s.0), s.1 + StepEvents(cfg, env, h, tid, k, s.0)))
  {
  }

  lemma TracedLoopEnd(cfg: Config.AgentConfig, env: Agent.Env, h: Agent.Helpers, tid: Option<string>,
                      k: nat, s: Traced)
    requires s.0.stopped || k >= cfg.maxSteps
    ensures TracedLoop(cfg, env, h, tid, k, s) == s
  {
  }

  // ---------------------------------------------------------------------------
  // The agent object

  /** A decoded action other than "done" is announced as executing, then acted on. */
  lemma ParsedActs(cfg: Config.AgentConfig, tid: Option<string>, k: nat, cur: Agent.Progress, reply: Agent.Reply,
                   data: Dict<Json>, ar: Option<D.ActionResult>, screen: D.ScreenState, feedback: Option<string>)
    requires k < cfg.maxSteps && data != [] && !Agent.IsDone(data)
    ensures ParsedEvents(cfg, tid, k, cur, reply, Some(data), ar, screen, feedback)
      == [StateEv(tid, Agent.Executing)]
         + ActEvents(cfg, tid, k, data, Agent.NewStep(k, data, cur.screen, reply.totalTokens).action, ar, screen, feedback)
  {
  }

  lemma EmitThen(log: seq<WebSocketEvent>, a: seq<WebSocketEvent>, b: seq<WebSocketEvent>)
    ensures log + a + b == log + (a + b)
  {
  }

  /** The agent with an optional broadcast callback (`hasCallback`);
    * `emitted` is every event `_emit` was called with, and `Received` what
    * the callback was given of them. A callback that raises is ignored, so
    * it is not modelled. */
  class WebSocketMobileAgent {
    const config: Config.MobileAgentConfig
    const hasCallback: bool
    var state: Agent.AgentState
    var contextMemory: seq<D.ScreenState>
    var currentTask: Option<string>
    var taskId: Option<string>
    var emitted: seq<WebSocketEvent>

    constructor (config: Config.MobileAgentConfig, hasCallback: bool)
      ensures this.config == config && this.hasCallback == hasCallback
      ensures state == Agent.Idle && contextMemory == [] && currentTask == None && taskId == None && emitted == []
    {
      this.config := config;
      this.hasCallback := hasCallback;
      state := Agent.Idle;
      contextMemory := [];
      currentTask := None;
      taskId := None;
      emitted := [];
    }

    /** The events the broadcast callback has been given. */
    function Received(): (r: seq<WebSocketEvent>)
      reads this
      ensures hasCallback ==> r == emitted
      ensures !hasCallback ==> r == []
    {
      if hasCallback then emitted else []
    }

    /** `_emit` for each of `es` in turn. */
    method EmitAll(es: seq<WebSocketEvent>)
      modifies this`emitted
      ensures emitted == old(emitted) + es
    {
      emitted := emitted + es;
    }

    /** `_add_to_context` */
    method AddToContext(screen: D.ScreenState)
      modifies this`contextMemory
      ensures contextMemory == F.AddToContext(old(contextMemory), screen, config.agent.contextMemorySize)
    {
      var lst := contextMemory + [screen];
      var maxSize := config.agent.contextMemorySize;
      var keep := if maxSize > 0 then maxSize else 0;
      if |lst| > keep {
        lst := lst[|lst| - keep..];
      }
      contextMemory := lst;
    }

    /** `execute(task)`, `tid` standing for the generated task id. */
    method Execute(task: string, tid: string, env: Agent.Env) returns (result: Agent.AgentResult)
      modifies this`state, this`contextMemory, this`currentTask, this`taskId, this`emitted
      ensures (result, state, contextMemory) == WsRun(config.agent, env, Agent.Wired(config.agent, env), task, old(contextMemory))
      ensures taskId == Some(tid) && currentTask == Some(task)
      ensures emitted == old(emitted)
        + ExecuteEvents(config.agent, env, Agent.Wired(config.agent, env), Some(tid), task, old(contextMemory))
    {
      result := ExecuteTask(task, tid, env, Agent.Wired(config.agent, env));
    }

    /** `execute(task)` with helpers `h`. */
    method ExecuteTask(task: string, tid: string, env: Agent.Env, h: Agent.Helpers) returns (result: Agent.AgentResult)
      modifies this`state, this`contextMemory, this`currentTask, this`taskId, this`emitted
      ensures (result, state, contextMemory) == WsRun(config.agent, env, h, task, old(contextMemory))
      ensures taskId == Some(tid) && currentTask == Some(task)
      ensures emitted == old(emitted) + ExecuteEvents(config.agent, env, h, Some(tid), task, old(contextMemory))
    {
      taskId := Some(tid);
      EmitAll([TaskStartedEv(taskId, task, config.agent)]);
      ghost var memory := contextMemory;
      result := ExecuteWithEvents(task, env, h);
      EmitAll([ClosingEv(taskId, task, result)]);
      ghost var first := [TaskStartedEv(taskId, task, config.agent)];
      ghost var body := WithEvents(config.agent, env, h, taskId, task, memory);
      EmitThen(old(emitted), first, body);
      EmitThen(old(emitted), first + body, [ClosingEv(taskId, task, result)]);
    }

    /** `_execute_with_events(task)` with helpers `h`, the loop run step by
      * step on the object's fields. */
    method ExecuteWithEvents(task: string, env: Agent.Env, h: Agent.Helpers) returns (result: Agent.AgentResult)
      modifies this`state, this`contextMemory, this`currentTask, this`emitted
      ensures (result, state, contextMemory) == WsRun(config.agent, env, h, task, old(contextMemory))
      ensures currentTask == Some(task)
      ensures emitted == old(emitted) + WithEvents(config.agent, env, h, taskId, task, old(contextMemory))
    {
      var cfg := config.agent;
      ghost var memory := contextMemory;
      ghost var before := emitted;
      currentTask := Some(task);
      state := Agent.Planning;
      var screen := env.screen(0);
      AddToContext(screen);
      EmitAll([ScreenEv(taskId, screen)]);
      var initial := h.initial(task, screen);
      if initial.None? {
        state := Agent.Failed;
        EmitAll([ErrorEv(taskId, AgentDispatch.Raised)]);
        return Agent.AgentResult(false, task, [], 0, Some(AgentDispatch.Raised), None);
      }
      var p0 := Agent.Progress(Agent.Planning, [], 0, initial.value, screen, contextMemory, false, None, false, false);
      assert Agent.Start(cfg, env, h, task, memory) == Some(p0);
      WithEventsIs(cfg, env, h, taskId, task, memory);
      TracedLoopIsLoop(cfg, env, h, taskId, 0, (p0, []));
      var last := RunLoop(env, h, p0);
      EmitThen(before, [ScreenEv(taskId, screen)], TracedLoop(cfg, env, h, taskId, 0, (p0, [])).1);
      var (r, st) := Agent.Finish(task, last);
      result := r;
      state := st;
    }

    /** The loop of `_execute_with_events` from the loop's variables `p0` on. */
    method RunLoop(env: Agent.Env, h: Agent.Helpers, p0: Agent.Progress) returns (last: Agent.Progress)
      requires contextMemory == p0.memory
      modifies this`state, this`contextMemory, this`emitted
      ensures last == TracedLoop(config.agent, env, h, taskId, 0, (p0, [])).0 && contextMemory == last.memory
      ensures emitted == old(emitted) + TracedLoop(config.agent, env, h, taskId, 0, (p0, [])).1
    {
      var cfg := config.agent;
      ghost var before := emitted;
      ghost var final := TracedLoop(cfg, env, h, taskId, 0, (p0, []));
      ghost var t: seq<WebSocketEvent> := [];
      var cur := p0;
      var k: nat := 0;
      while k < cfg.maxSteps && !cur.stopped
        invariant TracedLoop(cfg, env, h, taskId, k, (cur, t)) == final
        invariant contextMemory == cur.memory
        invariant emitted == before + t
        decreases if cfg.maxSteps > k then cfg.maxSteps - k else 0
      {
        TracedLoopStep(cfg, env, h, taskId, k, (cur, t));
        ghost var events := StepEvents(cfg, env, h, taskId, k, cur);
        cur := RunStep(env, h, k, cur);
        EmitThen(before, t, events);
        t := t + events;
        k := k + 1;
      }
      TracedLoopEnd(cfg, env, h, taskId, k, (cur, t));
      last := cur;
    }

    /** One pass of the loop body on the loop's variables `cur`, for step
      * index `k`; an exception that escapes it sets `crashed`. */
    method RunStep(env: Agent.Env, h: Agent.Helpers, k: nat, cur: Agent.Progress) returns (next: Agent.Progress)
      requires contextMemory == cur.memory && k < config.agent.maxSteps
      modifies this`state, this`contextMemory, this`emitted
      ensures next == WsStep(config.agent, env, h, k, cur)
      ensures state == next.state && contextMemory == next.memory
      ensures emitted == old(emitted) + StepEvents(config.agent, env, h, taskId, k, cur)
    {
      var cfg := config.agent;
      var reply := env.chat(k, cur.messages);
      var data := if reply.None? then None else h.parse(reply.value.content);
      var ar := if data.None? || data.value == [] || Agent.IsDone(data.value) then None
                else h.act(k, data.value, cur.screen.elements);
      var nextScreen := env.screen(k + 1);
      var feedback := if ar.None? then None else h.feedback(ar.value, nextScreen);
      assert WsStep(cfg, env, h, k, cur) == WsAdvance(cfg, k, cur, reply, data, ar, nextScreen, feedback);
      next := Update(k, cur, reply, data, ar, nextScreen, feedback);
    }

    /** The loop body's changes and events, given what the model, the
      * parser, the device and the formatter gave. */
    method Update(k: nat, cur: Agent.Progress, reply: Option<Agent.Reply>, data: Option<Dict<Json>>,
                  ar: Option<D.ActionResult>, nextScreen: D.ScreenState, feedback: Option<string>)
      returns (next: Agent.Progress)
      requires contextMemory == cur.memory && k < config.agent.maxSteps
      modifies this`state, this`contextMemory, this`emitted
      ensures next == WsAdvance(config.agent, k, cur, reply, data, ar, nextScreen, feedback)
      ensures state == next.state && contextMemory == next.memory
      ensures emitted == old(emitted) + AdvanceEvents(config.agent, taskId, k, cur, reply, data, ar, nextScreen, feedback)
    {
      ghost var log := emitted;
      var planned := [StepStartedEv(taskId, k, config.agent.maxSteps), StateEv(taskId, Agent.Planning)];
      state := Agent.Planning;
      EmitAll(planned);
      if reply.None? {
        next := Agent.Crash(cur.(state := Agent.Planning));
        state := next.state;
        EmitAll([ErrorEv(taskId, AgentDispatch.Raised)]);
        EmitThen(log, planned, [ErrorEv(taskId, AgentDispatch.Raised)]);
        assert AdvanceEvents(config.agent, taskId, k, cur, reply, data, ar, nextScreen, feedback)
          == planned + [ErrorEv(taskId, AgentDispatch.Raised)];
      } else {
        ghost var tail := AdvanceTail(config.agent, taskId, k, cur, reply, data, ar, nextScreen, feedback);
        next := Counted(k, cur, reply.value, data, ar, nextScreen, feedback);
        EmitThen(log, planned, tail);
      }
    }

    /** The loop body once the model replied `reply`: the token count, then
      * the rest. */
    method Counted(k: nat, cur: Agent.Progress, reply: Agent.Reply, data: Option<Dict<Json>>,
                   ar: Option<D.ActionResult>, nextScreen: D.ScreenState, feedback: Option<string>)
      returns (next: Agent.Progress)
      requires contextMemory == cur.memory && k < config.agent.maxSteps && state == Agent.Planning
      modifies this`state, this`contextMemory, this`emitted
      ensures next == WsAdvance(config.agent, k, cur, Some(reply), data, ar, nextScreen, feedback)
      ensures state == next.state && contextMemory == next.memory
      ensures emitted == old(emitted) + AdvanceTail(config.agent, taskId, k, cur, Some(reply), data, ar, nextScreen, feedback)
    {
      ghost var log := emitted;
      next := cur.(state := Agent.Planning, tokens := cur.tokens + reply.totalTokens);
      var counted := [TokensEv(taskId, reply.totalTokens, next.tokens)];
      EmitAll(counted);
      ghost var parsed := ParsedEvents(config.agent, taskId, k, cur, reply, data, ar, nextScreen, feedback);
      assert emitted == log + counted;
      next := Parsed(k, cur, next, reply, data, ar, nextScreen, feedback);
      EmitThen(log, counted, parsed);
      assert AdvanceTail(config.agent, taskId, k, cur, Some(reply), data, ar, nextScreen, feedback) == counted + parsed;
    }

    /** The loop body once the model replied `reply` and the tokens are
      * counted in `counted`. */
    method Parsed(k: nat, cur: Agent.Progress, counted: Agent.Progress, reply: Agent.Reply, data: Option<Dict<Json>>,
                  ar: Option<D.ActionResult>, nextScreen: D.ScreenState, feedback: Option<string>)
      returns (next: Agent.Progress)
      requires contextMemory == cur.memory && k < config.agent.maxSteps && state == Agent.Planning
      requires counted == cur.(state := Agent.Planning, tokens := cur.tokens + reply.totalTokens)
      modifies this`state, this`contextMemory, this`emitted
      ensures next == WsAdvance(config.agent, k, cur, Some(reply), data, ar, nextScreen, feedback)
      ensures state == next.state && contextMemory == next.memory
      ensures emitted == old(emitted) + ParsedEvents(config.agent, taskId, k, cur, reply, data, ar, nextScreen, feedback)
    {
      ghost var log := emitted;
      next := counted;
      Agent.AdvanceReplied(config.agent, k, cur, reply, data, ar, nextScreen, feedback);
      if data.None? || data.value == [] {
        return;
      }
      var step := Agent.NewStep(k, data.value, cur.screen, reply.totalTokens);
      if Agent.IsDone(data.value) {
        next := next.(steps := cur.steps + [step.(result := Some(WsDoneResult))], success := true,
                      state := Agent.Completed, stopped := true);
        state := next.state;
        EmitAll([StateEv(taskId, Agent.Completed)]);
        return;
      }
      next := Dispatch(k, cur, next, reply, data.value, ar, nextScreen, feedback);
    }

    /** The loop body for a decoded action other than "done": the executing
      * state, then the action. */
    method Dispatch(k: nat, cur: Agent.Progress, counted: Agent.Progress, reply: Agent.Reply, data: Dict<Json>,
                    ar: Option<D.ActionResult>, nextScreen: D.ScreenState, feedback: Option<string>)
      returns (next: Agent.Progress)
      requires contextMemory == cur.memory && k < config.agent.maxSteps && data != [] && !Agent.IsDone(data)
      requires counted == cur.(state := Agent.Planning, tokens := cur.tokens + reply.totalTokens)
      modifies this`state, this`contextMemory, this`emitted
      ensures next == Agent.Advance(config.agent, k, cur, Some(reply), Some(data), ar, nextScreen, feedback)
      ensures state == next.state && contextMemory == next.memory
      ensures emitted == old(emitted) + ParsedEvents(config.agent, taskId, k, cur, reply, Some(data), ar, nextScreen, feedback)
    {
      ghost var log := emitted;
      var step := Agent.NewStep(k, data, cur.screen, reply.totalTokens);
      state := Agent.Executing;
      var executing := [StateEv(taskId, Agent.Executing)];
      EmitAll(executing);
      next := Act(k, data, counted, step, reply.content, ar, nextScreen, feedback);
      EmitThen(log, executing, ActEvents(config.agent, taskId, k, data, step.action, ar, nextScreen, feedback));
      Agent.AdvanceActs(config.agent, k, cur, reply, data, ar, nextScreen, feedback);
      ParsedActs(config.agent, taskId, k, cur, reply, data, ar, nextScreen, feedback);
    }

    /** The action raised (`ar` is `None`) or ran. */
    method Act(k: nat, data: Dict<Json>, cur: Agent.Progress, step: Agent.AgentStep, content: string,
               ar: Option<D.ActionResult>, nextScreen: D.ScreenState, feedback: Option<string>)
      returns (next: Agent.Progress)
      requires contextMemory == cur.memory && k < config.agent.maxSteps
      modifies this`state, this`contextMemory, this`emitted
      ensures next == if ar.None? then Agent.Crash(cur)
                      else Agent.Verify(config.agent, k, cur, step.(result := ar, screenAfter := Some(nextScreen)),
                                        content, ar.value, nextScreen, feedback)
      ensures state == next.state && contextMemory == next.memory
      ensures emitted == old(emitted) + ActEvents(config.agent, taskId, k, data, step.action, ar, nextScreen, feedback)
    {
      if ar.None? {
        next := Agent.Crash(cur);
        state := next.state;
        EmitAll([ErrorEv(taskId, AgentDispatch.Raised)]);
      } else {
        next := VerifyStep(k, data, cur, step.(result := ar, screenAfter := Some(nextScreen)),
                           content, ar.value, nextScreen, feedback);
      }
    }

    /** `Verify` on the object, emitting the action's result, the verifying
      * state, the new screen, the step's completion and the progress. */
    method VerifyStep(k: nat, data: Dict<Json>, cur: Agent.Progress, step: Agent.AgentStep, content: string,
                      ar: D.ActionResult, nextScreen: D.ScreenState, feedback: Option<string>)
      returns (next: Agent.Progress)
      requires contextMemory == cur.memory && k < config.agent.maxSteps
      modifies this`state, this`contextMemory, this`emitted
      ensures next == Agent.Verify(config.agent, k, cur, step, content, ar, nextScreen, feedback)
      ensures state == next.state && contextMemory == next.memory
      ensures emitted == old(emitted) + VerifyEvents(config.agent, taskId, k, data, step.action, ar, nextScreen, feedback)
    {
      var cfg := config.agent;
      ghost var log := emitted;
      state := Agent.Verifying;
      AddToContext(nextScreen);
      next := cur.(state := Agent.Verifying, screen := nextScreen, memory := contextMemory, steps := cur.steps + [step]);
      var shown := [ActionEv(taskId, data, ar), StateEv(taskId, Agent.Verifying), ScreenEv(taskId, nextScreen),
                    StepCompletedEv(taskId, k, step.action, ar.success), ProgressEv(taskId, k, cfg.maxSteps)];
      EmitAll(shown);
      if feedback.None? {
        state := Agent.Failed;
        next := Agent.Crash(next);
        EmitAll([ErrorEv(taskId, AgentDispatch.Raised)]);
        EmitThen(log, shown, [ErrorEv(taskId, AgentDispatch.Raised)]);
        return;
      }
      next := next.(messages := cur.messages + [Ollama.ChatMessage("assistant", content, None, None),
                                                Ollama.ChatMessage("user", feedback.value, None, None)]);
      if !ar.success && k >= cfg.retryAttempts {
        state := Agent.Failed;
        next := next.(error := Some("Action failed: " + F.OptStr(ar.error)), state := Agent.Failed, stopped := true);
      }
    }
  }
}
