// The mobile agent's plan-execute-verify loop. The language model, the
// device screens and the device's shell outcomes are an environment given
// as functions; an exception that escapes a step ends the run.
module Agent {
  import opened Wrappers
  import opened Seqs
  import opened Dicts
  import opened Json
  import D = Droidrun
  import Config
  import Ollama
  import AgentReply
  import AgentDispatch
  import F = AgentFormat

  datatype AgentState = Idle | Planning | Executing | Verifying | Reflecting | Completed | Failed

  datatype AgentStep = AgentStep(
    stepNumber: int,
    action: Json,
    reasoning: Json,
    result: Option<D.ActionResult>,
    screenBefore: Option<D.ScreenState>,
    screenAfter: Option<D.ScreenState>,
    tokensUsed: int)

  datatype AgentResult = AgentResult(
    success: bool,
    task: string,
    steps: seq<AgentStep>,
    totalTokens: int,
    error: Option<string>,
    finalScreen: Option<D.ScreenState>)

  /** What the model answered: the message text and the token count. */
  datatype Reply = Reply(content: string, totalTokens: int)

  /** The world the agent acts on. `chat(k, messages)` is the model's answer
    * at step `k` (`None`: the request raised); `screen(0)` is the screen at
    * the start and `screen(k + 1)` the one read after step `k`; `shell(k)` is
    * how step `k`'s shell call ended (`None`: it succeeded). */
  datatype Env = Env(
    chat: (nat, seq<Ollama.ChatMessage>) -> Option<Reply>,
    screen: nat -> D.ScreenState,
    shell: nat -> Option<string>,
    decode: string -> Option<Dict<Json>>,
    show: real -> string)

  /** The helpers the loop calls: `_parse_action`, `_execute_action` (at a
    * step index, which picks the shell outcome), `_build_step_feedback` and
    * `_build_initial_messages`. `Wired` gives the ones this model defines;
    * the loop's properties hold whatever they return. */
  datatype Helpers = Helpers(
    parse: string -> Option<Dict<Json>>,
    act: (nat, Dict<Json>, seq<D.UIElement>) -> Option<D.ActionResult>,
    feedback: (D.ActionResult, D.ScreenState) -> Option<string>,
    initial: (string, D.ScreenState) -> Option<seq<Ollama.ChatMessage>>)

  function Wired(cfg: Config.AgentConfig, env: Env): Helpers
  {
    Helpers(
      (content: string) => AgentReply.ParseAction(content, env.decode),
      (k: nat, data: Dict<Json>, elements: seq<D.UIElement>) =>
        AgentDispatch.ExecuteAction(data, elements, env.shell(k), env.show),
      (ar: D.ActionResult, screen: D.ScreenState) => F.StepFeedback(cfg.useComptext, ar, screen),
      (task: string, screen: D.ScreenState) => F.InitialMessages(cfg.useComptext, task, screen))
  }

  const MaxStepsError := "Max steps reached without completing task"
  const DoneResult := D.ActionResult(true, D.Typed(D.Wait), "Task completed", None, None)

  /** The loop's variables between two steps. `stopped`: the loop broke out;
    * `crashed`: by an exception. */
  datatype Progress = Progress(
    state: AgentState,
    steps: seq<AgentStep>,
    tokens: int,
    messages: seq<Ollama.ChatMessage>,
    screen: D.ScreenState,
    memory: seq<D.ScreenState>,
    success: bool,
    error: Option<string>,
    stopped: bool,
    crashed: bool)

  function Crash(p: Progress): Progress
  {
    p.(state := Failed, error := Some(AgentDispatch.Raised), stopped := true, crashed := true)
  }

  /** The step record before the action runs. */
  function NewStep(k: nat, data: Dict<Json>, screen: D.ScreenState, tokens: int): AgentStep
  {
    AgentStep(k + 1, FieldOr(data, "action", JStr("unknown")), FieldOr(data, "thought", JStr("")),
              None, Some(screen), None, tokens)
  }

  predicate IsDone(data: Dict<Json>)
  {
    Get(data, "action") == Some(JStr("done"))
  }

  /** One pass of the loop body, for step index `k`: what the model, the
    * parser, the device and the formatter give, then how the loop's variables
    * change. */
  function Step(cfg: Config.AgentConfig, env: Env, h: Helpers, k: nat, p: Progress): (q: Progress)
  {
    var reply := env.chat(k, p.messages);
    var data := if reply.None? then None else h.parse(reply.value.content);
    var ar := if data.None? || data.value == [] || IsDone(data.value) then None
              else h.act(k, data.value, p.screen.elements);
    var screen := env.screen(k + 1);
    var feedback := if ar.None? then None else h.feedback(ar.value, screen);
    Advance(cfg, k, p, reply, data, ar, screen, feedback)
  }

  /** The loop body's effect given the model's reply (`None`: raised), the
    * parsed action (`None`: unparsable), the action's result (`None`:
    * raised), the screen read next and the feedback (`None`: raised). */
  function Advance(cfg: Config.AgentConfig, k: nat, p: Progress, reply: Option<Reply>, data: Option<Dict<Json>>,
                   ar: Option<D.ActionResult>, screen: D.ScreenState, feedback: Option<string>): Progress
  {
    if reply.None? then Crash(p.(state := Planning))
    else
      var p2 := p.(state := Planning, tokens := p.tokens + reply.value.totalTokens);
      if data.None? || data.value == [] then p2
      else
        var step := NewStep(k, data.value, p.screen, reply.value.totalTokens);
        if IsDone(data.value) then
          p2.(steps := p.steps + [step.(result := Some(DoneResult))], success := true, state := Completed, stopped := true)
        else if ar.None? then Crash(p2)
        else Verify(cfg, k, p2, step.(result := ar, screenAfter := Some(screen)), reply.value.content, ar.value,
                    screen, feedback)
  }

  /** Once the model replied: the token count, then nothing more without a
    * decoded action, the finished task for "done", else the action. */
  lemma AdvanceReplied(cfg: Config.AgentConfig, k: nat, cur: Progress, reply: Reply, data: Option<Dict<Json>>,
                       ar: Option<D.ActionResult>, screen: D.ScreenState, feedback: Option<string>)
    ensures var counted := cur.(state := Planning, tokens := cur.tokens + reply.totalTokens);
      data.None? || data.value == [] ==> Advance(cfg, k, cur, Some(reply), data, ar, screen, feedback) == counted
    ensures var counted := cur.(state := Planning, tokens := cur.tokens + reply.totalTokens);
      data.Some? && data.value != [] && IsDone(data.value) ==>
        var step := NewStep(k, data.value, cur.screen, reply.totalTokens);
        Advance(cfg, k, cur, Some(reply), data, ar, screen, feedback)
          == counted.(steps := cur.steps + [step.(result := Some(DoneResult))], success := true,
                      state := Completed, stopped := true)
  {
  }

  /** A decoded action other than "done" is acted on after the token count. */
  lemma AdvanceActs(cfg: Config.AgentConfig, k: nat, cur: Progress, reply: Reply, data: Dict<Json>,
                    ar: Option<D.ActionResult>, screen: D.ScreenState, feedback: Option<string>)
    requires data != [] && !IsDone(data)
    ensures var counted := cur.(state := Planning, tokens := cur.tokens + reply.totalTokens);
      var step := NewStep(k, data, cur.screen, reply.totalTokens);
      Advance(cfg, k, cur, Some(reply), Some(data), ar, screen, feedback)
        == (if ar.None? then Crash(counted)
            else Verify(cfg, k, counted, step.(result := ar, screenAfter := Some(screen)), reply.content,
                        ar.value, screen, feedback))
  {
    var counted := cur.(state := Planning, tokens := cur.tokens + reply.totalTokens);
    var step := NewStep(k, data, cur.screen, reply.totalTokens);
    if ar.None? {
      assert Advance(cfg, k, cur, Some(reply), Some(data), ar, screen, feedback) == Crash(counted);
    } else {
      assert Advance(cfg, k, cur, Some(reply), Some(data), ar, screen, feedback)
          == Verify(cfg, k, counted, step.(result := ar, screenAfter := Some(screen)), reply.content, ar.value, screen, feedback);
    }
  }

  /** The rest of the loop body once the action ran with result `ar`: record
    * the step and the new screen, then extend the conversation with the
    * reply and the feedback (`None`: raised), then stop on a failure without
    * retries left. */
  function Verify(cfg: Config.AgentConfig, k: nat, p: Progress, step: AgentStep, content: string,
                  ar: D.ActionResult, screen: D.ScreenState, feedback: Option<string>): Progress
  {
    var p3 := p.(state := Verifying, screen := screen, memory := F.AddToContext(p.memory, screen, cfg.contextMemorySize),
                 steps := p.steps + [step]);
    if feedback.None? then Crash(p3)
    else
      var p4 := p3.(messages := p.messages + [Ollama.ChatMessage("assistant", content, None, None),
                                              Ollama.ChatMessage("user", feedback.value, None, None)]);
      if ar.success || k < cfg.retryAttempts then p4
      else p4.(error := Some("Action failed: " + F.OptStr(ar.error)), state := Failed, stopped := true)
  }

  /** `for k in range(n)` over a body `f` that may break (`stop`), from index `k`. */
  function Iterate<S>(f: (nat, S) -> S, stop: S -> bool, k: nat, n: int, s: S): S
    decreases if n > k then n - k else 0
  {
    if stop(s) || k >= n then s else Iterate(f, stop, k + 1, n, f(k, s))
  }

  /** An invariant the body keeps holds when the loop ends. */
  lemma {:induction false} IterateInv<S>(f: (nat, S) -> S, stop: S -> bool, inv: (nat, S) -> bool, k: nat, n: int, s: S)
    requires inv(k, s)
    requires forall j: nat, t: S :: inv(j, t) && !stop(t) ==> inv(j + 1, f(j, t))
    requires forall j: nat, t: S :: inv(j, t) && stop(t) ==> inv(j + 1, t)
    ensures inv(if k < n then n else k, Iterate(f, stop, k, n, s))
    decreases if n > k then n - k else 0
  {
    if k < n {
      if stop(s) {
        IterateInv(f, stop, inv, k + 1, n, s);
      } else {
        IterateInv(f, stop, inv, k + 1, n, f(k, s));
      }
    }
  }

  function StepFn(cfg: Config.AgentConfig, env: Env, h: Helpers): (nat, Progress) -> Progress
  {
    (j: nat, q: Progress) => Step(cfg, env, h, j, q)
  }

  function Stopped(p: Progress): bool { p.stopped }

  /** The loop from step index `k` on. */
  function Loop(cfg: Config.AgentConfig, env: Env, h: Helpers, k: nat, p: Progress): Progress
  {
    Iterate(StepFn(cfg, env, h), Stopped, k, cfg.maxSteps, p)
  }

  /** The run's result from the loop's final variables. */
  function Finish(task: string, p: Progress): (AgentResult, AgentState)
  {
    if p.crashed then (AgentResult(false, task, p.steps, p.tokens, p.error, None), Failed)
    else if !p.success && p.state != Failed then
      (AgentResult(false, task, p.steps, p.tokens, Some(MaxStepsError), Some(p.screen)), Failed)
    else (AgentResult(p.success, task, p.steps, p.tokens, p.error, Some(p.screen)), p.state)
  }

  /** The loop's variables before step 0, or `None` where formatting the
    * first screen raises. */
  function Start(cfg: Config.AgentConfig, env: Env, h: Helpers, task: string, memory: seq<D.ScreenState>): Option<Progress>
  {
    var screen := env.screen(0);
    match h.initial(task, screen)
    case None => None
    case Some(messages) =>
      Some(Progress(Planning, [], 0, messages, screen, F.AddToContext(memory, screen, cfg.contextMemorySize),
                    false, None, false, false))
  }

  /** `execute(task)` with helpers `h`: the result, the agent's final state
    * and its memory. */
  function Run(cfg: Config.AgentConfig, env: Env, h: Helpers, task: string, memory: seq<D.ScreenState>)
    : (AgentResult, AgentState, seq<D.ScreenState>)
  {
    match Start(cfg, env, h, task, memory)
    case None =>
      (AgentResult(false, task, [], 0, Some(AgentDispatch.Raised), None), Failed,
       F.AddToContext(memory, env.screen(0), cfg.contextMemorySize))
    case Some(p0) =>
      var p := Loop(cfg, env, h, 0, p0);
      var (r, st) := Finish(task, p);
      (r, st, p.memory)
  }

  /** `execute(task)` with the helpers this model defines. */
  function RunTask(cfg: Config.AgentConfig, env: Env, task: string, memory: seq<D.ScreenState>)
    : (AgentResult, AgentState, seq<D.ScreenState>)
  {
    Run(cfg, env, Wired(cfg, env), task, memory)
  }

  // ---------------------------------------------------------------------------
  // What every run guarantees

  /** A step that may be followed by another: it succeeded, or failed while
    * retries were left (its index below `retry_attempts`). */
  predicate MayContinue(cfg: Config.AgentConfig, st: AgentStep)
  {
    st.result.Some? && (st.result.value.success || st.stepNumber <= cfg.retryAttempts)
  }

  /** Steps numbered 1..k in increasing order, each with a result. */
  predicate Numbered(steps: seq<AgentStep>, k: int)
  {
    (forall i :: 0 <= i < |steps| ==> 1 <= steps[i].stepNumber <= k && steps[i].result.Some?)
    && (forall i, j :: 0 <= i < j < |steps| ==> steps[i].stepNumber < steps[j].stepNumber)
  }

  predicate AllContinue(cfg: Config.AgentConfig, steps: seq<AgentStep>)
  {
    forall i :: 0 <= i < |steps| ==> MayContinue(cfg, steps[i])
  }

  /** Between steps: nothing decided yet, and every step so far allows another. */
  predicate Running(cfg: Config.AgentConfig, p: Progress)
  {
    !p.success && !p.crashed && p.error.None? && (p.state == Planning || p.state == Verifying)
    && AllContinue(cfg, p.steps)
  }

  /** After the loop broke out: completed on "done", failed on an action
    * failure without retries left, or failed on an exception. */
  predicate Ended(cfg: Config.AgentConfig, p: Progress)
  {
    (p.success ==> !p.crashed && p.state == Completed && p.error.None? && |p.steps| > 0
                   && p.steps[|p.steps| - 1].result == Some(DoneResult)
                   && p.steps[|p.steps| - 1].action == JStr("done"))
    && (!p.crashed && !p.success ==>
          p.state == Failed && |p.steps| > 0 && p.steps[|p.steps| - 1].result.Some?
          && !MayContinue(cfg, p.steps[|p.steps| - 1])
          && p.error == Some("Action failed: " + F.OptStr(p.steps[|p.steps| - 1].result.value.error)))
    && (p.crashed ==> !p.success && p.state == Failed && p.error == Some(AgentDispatch.Raised))
  }

  /** How the loop's variables stand after `k` steps. */
  predicate Inv(cfg: Config.AgentConfig, k: int, p: Progress)
  {
    |p.steps| <= k && Numbered(p.steps, k)
    && (|p.steps| > 0 ==> AllContinue(cfg, p.steps[..|p.steps| - 1]))
    && (if p.stopped then Ended(cfg, p) else Running(cfg, p))
  }

  lemma NumberedGrow(steps: seq<AgentStep>, k: int, s: AgentStep)
    requires |steps| <= k && Numbered(steps, k) && s.stepNumber == k + 1 && s.result.Some?
    ensures |steps + [s]| <= k + 1 && Numbered(steps + [s], k + 1)
  {
    var t := steps + [s];
    assert forall i :: 0 <= i < |steps| ==> t[i] == steps[i];
  }

  lemma NumberedMono(steps: seq<AgentStep>, k: int, n: int)
    requires Numbered(steps, k) && k <= n
    ensures Numbered(steps, n)
  {
  }

  lemma ContinueGrow(cfg: Config.AgentConfig, steps: seq<AgentStep>, s: AgentStep)
    requires AllContinue(cfg, steps)
    ensures AllContinue(cfg, (steps + [s])[..|steps + [s]| - 1])
  {
    assert (steps + [s])[..|steps + [s]| - 1] == steps;
  }

  lemma NewStepAction(k: nat, data: Dict<Json>, screen: D.ScreenState, tokens: int)
    requires IsDone(data)
    ensures NewStep(k, data, screen, tokens).action == JStr("done")
  {
  }

  /** One pass keeps the invariant, one step further. */
  lemma AdvanceKeepsInv(cfg: Config.AgentConfig, k: nat, p: Progress, reply: Option<Reply>, data: Option<Dict<Json>>,
                        ar: Option<D.ActionResult>, screen: D.ScreenState, feedback: Option<string>)
    requires Inv(cfg, k, p) && !p.stopped
    ensures Inv(cfg, k + 1, Advance(cfg, k, p, reply, data, ar, screen, feedback))
  {
    if reply.None? || data.None? || data.value == [] {
      IdleKeepsInv(cfg, k, p, reply, data, ar, screen, feedback);
    } else if IsDone(data.value) {
      FinishKeepsInv(cfg, k, p, reply, data, ar, screen, feedback);
    } else {
      ActKeepsInv(cfg, k, p, reply, data, ar, screen, feedback);
    }
  }

  /** A pass without a decoded action keeps the invariant. */
  lemma IdleKeepsInv(cfg: Config.AgentConfig, k: nat, p: Progress, reply: Option<Reply>, data: Option<Dict<Json>>,
                        ar: Option<D.ActionResult>, screen: D.ScreenState, feedback: Option<string>)
    requires Inv(cfg, k, p) && !p.stopped
    requires reply.None? || data.None? || data.value == []
    ensures Inv(cfg, k + 1, Advance(cfg, k, p, reply, data, ar, screen, feedback))
  {
    if reply.None? {
      CrashKeepsInv(cfg, k, p, p.(state := Planning));
    } else {
      NumberedMono(p.steps, k, k + 1);
    }
  }

  /** A pass that decodes "done" keeps the invariant. */
  lemma FinishKeepsInv(cfg: Config.AgentConfig, k: nat, p: Progress, reply: Option<Reply>, data: Option<Dict<Json>>,
                        ar: Option<D.ActionResult>, screen: D.ScreenState, feedback: Option<string>)
    requires Inv(cfg, k, p) && !p.stopped
    requires reply.Some? && data.Some? && data.value != [] && IsDone(data.value)
    ensures Inv(cfg, k + 1, Advance(cfg, k, p, reply, data, ar, screen, feedback))
  {
    var counted := p.(state := Planning, tokens := p.tokens + reply.value.totalTokens);
    NewStepAction(k, data.value, p.screen, reply.value.totalTokens);
    var s := NewStep(k, data.value, p.screen, reply.value.totalTokens).(result := Some(DoneResult));
    DoneKeepsInv(cfg, k, p, s, counted.(steps := p.steps + [s], success := true, state := Completed, stopped := true));
  }

  /** A pass that acts keeps the invariant. */
  lemma ActKeepsInv(cfg: Config.AgentConfig, k: nat, p: Progress, reply: Option<Reply>, data: Option<Dict<Json>>,
                        ar: Option<D.ActionResult>, screen: D.ScreenState, feedback: Option<string>)
    requires Inv(cfg, k, p) && !p.stopped
    requires reply.Some? && data.Some? && data.value != [] && !IsDone(data.value)
    ensures Inv(cfg, k + 1, Advance(cfg, k, p, reply, data, ar, screen, feedback))
  {
    var counted := p.(state := Planning, tokens := p.tokens + reply.value.totalTokens);
    if ar.None? {
      CrashKeepsInv(cfg, k, p, counted);
    } else {
      var step := NewStep(k, data.value, p.screen, reply.value.totalTokens);
      VerifyKeepsInv(cfg, k, counted, step.(result := ar, screenAfter := Some(screen)), reply.value.content,
                     ar.value, screen, feedback);
    }
  }

  /** Raising before a step is recorded keeps the invariant, one step further. */
  lemma CrashKeepsInv(cfg: Config.AgentConfig, k: nat, p: Progress, r: Progress)
    requires Inv(cfg, k, p) && !p.stopped
    requires r.steps == p.steps && r.success == p.success
    ensures Inv(cfg, k + 1, Crash(r))
  {
    NumberedMono(p.steps, k, k + 1);
  }

  /** Recording the "done" step keeps the invariant, one step further. */
  lemma DoneKeepsInv(cfg: Config.AgentConfig, k: nat, p: Progress, s: AgentStep, q: Progress)
    requires Inv(cfg, k, p) && !p.stopped
    requires s.stepNumber == k + 1 && s.result == Some(DoneResult) && s.action == JStr("done")
    requires q.steps == p.steps + [s] && q.success && q.state == Completed && q.stopped
    requires q.crashed == p.crashed && q.error == p.error
    ensures Inv(cfg, k + 1, q)
  {
    NumberedMono(p.steps, k, k + 1);
    NumberedGrow(p.steps, k, s);
    ContinueGrow(cfg, p.steps, s);
  }

  /** Recording an acted step keeps the invariant, one step further. */
  lemma VerifyKeepsInv(cfg: Config.AgentConfig, k: nat, p: Progress, s: AgentStep, content: string,
                       ar: D.ActionResult, screen: D.ScreenState, feedback: Option<string>)
    requires Inv(cfg, k, p) && !p.stopped
    requires s.stepNumber == k + 1 && s.result == Some(ar)
    ensures Inv(cfg, k + 1, Verify(cfg, k, p, s, content, ar, screen, feedback))
  {
    var q := Verify(cfg, k, p, s, content, ar, screen, feedback);
    assert q.steps == p.steps + [s];
    NumberedMono(p.steps, k, k + 1);
    NumberedGrow(p.steps, k, s);
    ContinueGrow(cfg, p.steps, s);
    if !q.stopped {
      assert MayContinue(cfg, s);
      assert AllContinue(cfg, q.steps) by {
        assert forall i :: 0 <= i < |p.steps| ==> q.steps[i] == p.steps[i];
      }
    }
  }

  lemma StepKeepsInv(cfg: Config.AgentConfig, env: Env, h: Helpers, k: nat, p: Progress)
    requires Inv(cfg, k, p) && !p.stopped
    ensures Inv(cfg, k + 1, Step(cfg, env, h, k, p))
  {
    var reply := env.chat(k, p.messages);
    var data := if reply.None? then None else h.parse(reply.value.content);
    var ar := if data.None? || data.value == [] || IsDone(data.value) then None
              else h.act(k, data.value, p.screen.elements);
    var screen := env.screen(k + 1);
    var feedback := if ar.None? then None else h.feedback(ar.value, screen);
    AdvanceKeepsInv(cfg, k, p, reply, data, ar, screen, feedback);
  }

  function Bound(cfg: Config.AgentConfig, k: nat): nat
  {
    if k < cfg.maxSteps then cfg.maxSteps else k
  }

  lemma StoppedKeepsInv(cfg: Config.AgentConfig, k: nat, p: Progress)
    requires Inv(cfg, k, p) && p.stopped
    ensures Inv(cfg, k + 1, p)
  {
    NumberedMono(p.steps, k, k + 1);
  }

  /** The invariant holds when the loop ends, at the last step index. */
  lemma LoopKeepsInv(cfg: Config.AgentConfig, env: Env, h: Helpers, k: nat, p: Progress)
    requires Inv(cfg, k, p)
    ensures Inv(cfg, Bound(cfg, k), Loop(cfg, env, h, k, p))
  {
    var inv := (j: nat, q: Progress) => Inv(cfg, j, q);
    var f := StepFn(cfg, env, h);
    forall j: nat, t: Progress | inv(j, t) && !Stopped(t)
      ensures inv(j + 1, f(j, t))
    {
      StepKeepsInv(cfg, env, h, j, t);
    }
    forall j: nat, t: Progress | inv(j, t) && Stopped(t)
      ensures inv(j + 1, t)
    {
      StoppedKeepsInv(cfg, j, t);
    }
    IterateInv(f, Stopped, inv, k, cfg.maxSteps, p);
  }

  lemma RaisedDiffers(e: string)
    ensures "Action failed: " + e != AgentDispatch.Raised
    ensures MaxStepsError != AgentDispatch.Raised
    ensures "Action failed: " + e != MaxStepsError
  {
    assert ("Action failed: " + e)[0] == 'A';
    assert AgentDispatch.Raised[0] == '<';
    assert MaxStepsError[0] == 'M';
  }

  /** What `execute` promises about a result `r` and the final state `st`:
    * success exactly when the agent completed, an error exactly on failure,
    * at most `max_steps` steps numbered in order, a success ending in
    * "done", every step but the last one allowing another, a run stopped
    * at `max_steps` only when every step allowed another, and a final
    * screen unless an exception escaped. */
  predicate Outcome(cfg: Config.AgentConfig, task: string, r: AgentResult, st: AgentState)
  {
    (r.success <==> st == Completed) && (r.success <==> r.error.None?)
    && r.task == task
    && |r.steps| <= (if cfg.maxSteps > 0 then cfg.maxSteps else 0)
    && Numbered(r.steps, cfg.maxSteps)
    && (r.success ==> |r.steps| > 0 && r.steps[|r.steps| - 1].action == JStr("done")
                      && r.steps[|r.steps| - 1].result == Some(DoneResult))
    && (forall i :: 0 <= i < |r.steps| - 1 ==> MayContinue(cfg, r.steps[i]))
    && (r.finalScreen.None? <==> r.error == Some(AgentDispatch.Raised))
    && (r.error == Some(MaxStepsError) ==> forall i :: 0 <= i < |r.steps| ==> MayContinue(cfg, r.steps[i]))
  }

  /** What a run's end makes of the loop's final variables. */
  lemma FinishOutcome(cfg: Config.AgentConfig, task: string, p: Progress)
    requires Inv(cfg, Bound(cfg, 0), p)
    ensures Outcome(cfg, task, Finish(task, p).0, Finish(task, p).1)
  {
    if |p.steps| > 0 && p.steps[|p.steps| - 1].result.Some? {
      RaisedDiffers(F.OptStr(p.steps[|p.steps| - 1].result.value.error));
    } else {
      RaisedDiffers("");
    }
    if |p.steps| > 0 {
      assert forall i :: 0 <= i < |p.steps| - 1 ==> p.steps[i] == p.steps[..|p.steps| - 1][i];
    }
  }

  /** `execute` keeps every promise of `Outcome`, whatever the model and the
    * device do. */
  lemma ExecuteOutcome(cfg: Config.AgentConfig, env: Env, h: Helpers, task: string, memory: seq<D.ScreenState>)
    ensures Outcome(cfg, task, Run(cfg, env, h, task, memory).0, Run(cfg, env, h, task, memory).1)
  {
    match Start(cfg, env, h, task, memory)
    case None =>
      RaisedDiffers("");
    case Some(p0) =>
      LoopKeepsInv(cfg, env, h, 0, p0);
      FinishOutcome(cfg, task, Loop(cfg, env, h, 0, p0));
  }

  /** The memory never holds more than `context_memory_size` screens (none
    * when it is not positive), and after a run it ends with the last screen
    * read when the size is positive. */
  lemma ExecuteMemory(cfg: Config.AgentConfig, env: Env, h: Helpers, task: string, memory: seq<D.ScreenState>)
    ensures |Run(cfg, env, h, task, memory).2| <= (if cfg.contextMemorySize > 0 then cfg.contextMemorySize else 0)
    ensures NewestKept(cfg, Run(cfg, env, h, task, memory).0, Run(cfg, env, h, task, memory).2)
  {
    match Start(cfg, env, h, task, memory)
    case None =>
      if cfg.contextMemorySize > 0 {
        F.AddToContextAgrees(memory, env.screen(0), cfg.contextMemorySize);
      }
    case Some(p0) =>
      var p := Loop(cfg, env, h, 0, p0);
      RunIs(cfg, env, h, task, memory);
      LoopMemory(cfg, env, h, 0, p0);
      if cfg.contextMemorySize > 0 {
        F.AddToContextAgrees(memory, env.screen(0), cfg.contextMemorySize);
      }
      LoopNewest(cfg, env, h, 0, p0);
      FinishNewest(cfg, task, p);
  }

  /** With a positive size the memory `m` is not empty, and a result that
    * reports a final screen has it as the memory's newest. */
  predicate NewestKept(cfg: Config.AgentConfig, r: AgentResult, m: seq<D.ScreenState>)
  {
    cfg.contextMemorySize > 0 ==> |m| > 0 && (r.finalScreen.Some? ==> m[|m| - 1] == r.finalScreen.value)
  }

  lemma FinishNewest(cfg: Config.AgentConfig, task: string, p: Progress)
    requires Newest(cfg, p)
    ensures NewestKept(cfg, Finish(task, p).0, p.memory)
  {
  }

  lemma LoopMemory(cfg: Config.AgentConfig, env: Env, h: Helpers, k: nat, p: Progress)
    requires |p.memory| <= (if cfg.contextMemorySize > 0 then cfg.contextMemorySize else 0)
    ensures |Loop(cfg, env, h, k, p).memory| <= (if cfg.contextMemorySize > 0 then cfg.contextMemorySize else 0)
  {
    var keep := if cfg.contextMemorySize > 0 then cfg.contextMemorySize else 0;
    var inv := (j: nat, q: Progress) => |q.memory| <= keep;
    var f := StepFn(cfg, env, h);
    forall j: nat, t: Progress | inv(j, t) && !Stopped(t)
      ensures inv(j + 1, f(j, t))
    {
      StepMemory(cfg, env, h, j, t);
    }
    IterateInv(f, Stopped, inv, k, cfg.maxSteps, p);
  }

  lemma AdvanceMemory(cfg: Config.AgentConfig, k: nat, p: Progress, reply: Option<Reply>, data: Option<Dict<Json>>,
                      ar: Option<D.ActionResult>, screen: D.ScreenState, feedback: Option<string>)
    requires |p.memory| <= (if cfg.contextMemorySize > 0 then cfg.contextMemorySize else 0)
    ensures |Advance(cfg, k, p, reply, data, ar, screen, feedback).memory|
            <= (if cfg.contextMemorySize > 0 then cfg.contextMemorySize else 0)
  {
    if reply.None? {
      assert Advance(cfg, k, p, reply, data, ar, screen, feedback).memory == p.memory;
    } else {
      var counted := p.(state := Planning, tokens := p.tokens + reply.value.totalTokens);
      var r := Advance(cfg, k, p, reply, data, ar, screen, feedback);
      AdvanceReplied(cfg, k, p, reply.value, data, ar, screen, feedback);
      if data.None? || data.value == [] {
        assert r == counted;
      } else if IsDone(data.value) {
        assert r.memory == p.memory;
      } else {
        AdvanceActs(cfg, k, p, reply.value, data.value, ar, screen, feedback);
        if ar.None? {
          assert r == Crash(counted);
        } else {
          var step := NewStep(k, data.value, p.screen, reply.value.totalTokens);
          VerifyMemory(cfg, k, counted, step.(result := ar, screenAfter := Some(screen)), reply.value.content,
                       ar.value, screen, feedback);
        }
      }
    }
  }

  lemma VerifyMemory(cfg: Config.AgentConfig, k: nat, p: Progress, step: AgentStep, content: string,
                     ar: D.ActionResult, screen: D.ScreenState, feedback: Option<string>)
    requires |p.memory| <= (if cfg.contextMemorySize > 0 then cfg.contextMemorySize else 0)
    ensures |Verify(cfg, k, p, step, content, ar, screen, feedback).memory|
            <= (if cfg.contextMemorySize > 0 then cfg.contextMemorySize else 0)
  {
    assert Verify(cfg, k, p, step, content, ar, screen, feedback).memory
        == F.AddToContext(p.memory, screen, cfg.contextMemorySize);
  }

  lemma StepMemory(cfg: Config.AgentConfig, env: Env, h: Helpers, k: nat, p: Progress)
    requires |p.memory| <= (if cfg.contextMemorySize > 0 then cfg.contextMemorySize else 0)
    ensures |Step(cfg, env, h, k, p).memory| <= (if cfg.contextMemorySize > 0 then cfg.contextMemorySize else 0)
  {
    var reply := env.chat(k, p.messages);
    var data := if reply.None? then None else h.parse(reply.value.content);
    var ar := if data.None? || data.value == [] || IsDone(data.value) then None
              else h.act(k, data.value, p.screen.elements);
    var screen := env.screen(k + 1);
    var feedback := if ar.None? then None else h.feedback(ar.value, screen);
    AdvanceMemory(cfg, k, p, reply, data, ar, screen, feedback);
  }

  /** The memory's newest screen is the one the loop last read. */
  predicate Newest(cfg: Config.AgentConfig, p: Progress)
  {
    cfg.contextMemorySize > 0 ==> |p.memory| > 0 && p.memory[|p.memory| - 1] == p.screen
  }

  lemma LoopNewest(cfg: Config.AgentConfig, env: Env, h: Helpers, k: nat, p: Progress)
    requires Newest(cfg, p)
    ensures Newest(cfg, Loop(cfg, env, h, k, p))
  {
    var inv := (j: nat, q: Progress) => Newest(cfg, q);
    var f := StepFn(cfg, env, h);
    forall j: nat, t: Progress | inv(j, t) && !Stopped(t)
      ensures inv(j + 1, f(j, t))
    {
      StepNewest(cfg, env, h, j, t);
    }
    IterateInv(f, Stopped, inv, k, cfg.maxSteps, p);
  }

  lemma StepNewest(cfg: Config.AgentConfig, env: Env, h: Helpers, k: nat, p: Progress)
    requires Newest(cfg, p)
    ensures Newest(cfg, Step(cfg, env, h, k, p))
  {
    var reply := env.chat(k, p.messages);
    var data := if reply.None? then None else h.parse(reply.value.content);
    var ar := if data.None? || data.value == [] || IsDone(data.value) then None
              else h.act(k, data.value, p.screen.elements);
    var screen := env.screen(k + 1);
    var feedback := if ar.None? then None else h.feedback(ar.value, screen);
    AdvanceNewest(cfg, k, p, reply, data, ar, screen, feedback);
  }

  lemma AdvanceNewest(cfg: Config.AgentConfig, k: nat, p: Progress, reply: Option<Reply>, data: Option<Dict<Json>>,
                      ar: Option<D.ActionResult>, screen: D.ScreenState, feedback: Option<string>)
    requires Newest(cfg, p)
    ensures Newest(cfg, Advance(cfg, k, p, reply, data, ar, screen, feedback))
  {
    var r := Advance(cfg, k, p, reply, data, ar, screen, feedback);
    if reply.None? {
      assert r.memory == p.memory && r.screen == p.screen;
    } else {
      var counted := p.(state := Planning, tokens := p.tokens + reply.value.totalTokens);
      AdvanceReplied(cfg, k, p, reply.value, data, ar, screen, feedback);
      if data.None? || data.value == [] {
        assert r == counted;
      } else if IsDone(data.value) {
        assert r.memory == p.memory && r.screen == p.screen;
      } else {
        AdvanceActs(cfg, k, p, reply.value, data.value, ar, screen, feedback);
        if ar.None? {
          assert r == Crash(counted);
        } else {
          var step := NewStep(k, data.value, p.screen, reply.value.totalTokens);
          VerifyNewest(cfg, k, counted, step.(result := ar, screenAfter := Some(screen)), reply.value.content,
                       ar.value, screen, feedback);
        }
      }
    }
  }

  lemma VerifyNewest(cfg: Config.AgentConfig, k: nat, p: Progress, step: AgentStep, content: string,
                     ar: D.ActionResult, screen: D.ScreenState, feedback: Option<string>)
    ensures Newest(cfg, Verify(cfg, k, p, step, content, ar, screen, feedback))
  {
    var r := Verify(cfg, k, p, step, content, ar, screen, feedback);
    assert r.memory == F.AddToContext(p.memory, screen, cfg.contextMemorySize) && r.screen == screen;
    if cfg.contextMemorySize > 0 {
      F.AddToContextAgrees(p.memory, screen, cfg.contextMemorySize);
    }
  }

  /** One pass of the loop, from the values the body computes. */
  lemma StepIs(cfg: Config.AgentConfig, env: Env, h: Helpers, k: nat, p: Progress, reply: Option<Reply>, data: Option<Dict<Json>>,
               ar: Option<D.ActionResult>, screen: D.ScreenState, feedback: Option<string>)
    requires reply == env.chat(k, p.messages)
    requires data == if reply.None? then None else h.parse(reply.value.content)
    requires ar == if data.None? || data.value == [] || IsDone(data.value) then None
                   else h.act(k, data.value, p.screen.elements)
    requires screen == env.screen(k + 1)
    requires feedback == if ar.None? then None else h.feedback(ar.value, screen)
    ensures Step(cfg, env, h, k, p) == Advance(cfg, k, p, reply, data, ar, screen, feedback)
  {
  }

  lemma LoopStep(cfg: Config.AgentConfig, env: Env, h: Helpers, k: nat, p: Progress)
    requires !p.stopped && k < cfg.maxSteps
    ensures Loop(cfg, env, h, k, p) == Loop(cfg, env, h, k + 1, Step(cfg, env, h, k, p))
  {
  }

  lemma LoopEnd(cfg: Config.AgentConfig, env: Env, h: Helpers, k: nat, p: Progress)
    requires p.stopped || k >= cfg.maxSteps
    ensures Loop(cfg, env, h, k, p) == p
  {
  }

  lemma RunIs(cfg: Config.AgentConfig, env: Env, h: Helpers, task: string, memory: seq<D.ScreenState>)
    requires Start(cfg, env, h, task, memory).Some?
    ensures var p := Loop(cfg, env, h, 0, Start(cfg, env, h, task, memory).value);
      Run(cfg, env, h, task, memory) == (Finish(task, p).0, Finish(task, p).1, p.memory)
  {
  }

  /** The run completes only on a decoded "done" action, and then it stops
    * with success. */
  lemma CompletedOnDone(cfg: Config.AgentConfig, k: nat, p: Progress, reply: Option<Reply>, data: Option<Dict<Json>>,
                        ar: Option<D.ActionResult>, screen: D.ScreenState, feedback: Option<string>)
    ensures var q := Advance(cfg, k, p, reply, data, ar, screen, feedback);
      q.state == Completed <==> reply.Some? && data.Some? && data.value != [] && IsDone(data.value)
    ensures var q := Advance(cfg, k, p, reply, data, ar, screen, feedback);
      q.state == Completed ==> q.stopped && q.success && |q.steps| > 0 && q.steps[|q.steps| - 1].result == Some(DoneResult)
    ensures var q := Advance(cfg, k, p, reply, data, ar, screen, feedback);
      q.state != Completed ==> q.success == p.success
  {
    var q := Advance(cfg, k, p, reply, data, ar, screen, feedback);
    if reply.None? {
      assert q == Crash(p.(state := Planning));
    } else {
      var counted := p.(state := Planning, tokens := p.tokens + reply.value.totalTokens);
      AdvanceReplied(cfg, k, p, reply.value, data, ar, screen, feedback);
      if data.None? || data.value == [] {
        assert q == counted;
      } else if !IsDone(data.value) {
        ActsAdd(cfg, k, p, reply.value, data.value, ar, screen, feedback);
      }
    }
  }

  /** A pass that acts adds the reply's tokens and at most one step, keeps
    * the success flag, and does not complete the task. */
  lemma ActsAdd(cfg: Config.AgentConfig, k: nat, p: Progress, reply: Reply, data: Dict<Json>,
                ar: Option<D.ActionResult>, screen: D.ScreenState, feedback: Option<string>)
    requires data != [] && !IsDone(data)
    ensures var q := Advance(cfg, k, p, Some(reply), Some(data), ar, screen, feedback);
      q.state != Completed && q.success == p.success && q.tokens == p.tokens + reply.totalTokens
      && p.steps <= q.steps && |q.steps| <= |p.steps| + 1
  {
    var counted := p.(state := Planning, tokens := p.tokens + reply.totalTokens);
    AdvanceActs(cfg, k, p, reply, data, ar, screen, feedback);
    if ar.Some? {
      var step := NewStep(k, data, p.screen, reply.totalTokens);
      VerifyAdds(cfg, k, counted, step.(result := ar, screenAfter := Some(screen)), reply.content,
                 ar.value, screen, feedback);
    }
  }

  /** The rest of a pass after an action records its step, keeps the token
    * count and the success flag, and never completes the task. */
  lemma VerifyAdds(cfg: Config.AgentConfig, k: nat, p: Progress, step: AgentStep, content: string,
                   ar: D.ActionResult, screen: D.ScreenState, feedback: Option<string>)
    ensures var q := Verify(cfg, k, p, step, content, ar, screen, feedback);
      q.state != Completed && q.success == p.success && q.tokens == p.tokens && q.steps == p.steps + [step]
  {
  }

  /** `CompletedOnDone` for one pass of the loop. */
  lemma StepDone(cfg: Config.AgentConfig, env: Env, h: Helpers, k: nat, p: Progress)
    ensures var q := Step(cfg, env, h, k, p);
      q.state == Completed ==> q.stopped && q.success && |q.steps| > 0 && q.steps[|q.steps| - 1].result == Some(DoneResult)
    ensures var q := Step(cfg, env, h, k, p);
      q.state != Completed ==> q.success == p.success
  {
    var reply := env.chat(k, p.messages);
    var data := if reply.None? then None else h.parse(reply.value.content);
    var ar := if data.None? || data.value == [] || IsDone(data.value) then None
              else h.act(k, data.value, p.screen.elements);
    var screen := env.screen(k + 1);
    var feedback := if ar.None? then None else h.feedback(ar.value, screen);
    CompletedOnDone(cfg, k, p, reply, data, ar, screen, feedback);
  }

  // ---------------------------------------------------------------------------
  // What a run spends

  /** The model's replies, one per pass of the loop from step index `k`
    * (`None`: the request raised). */
  function Replies(cfg: Config.AgentConfig, env: Env, h: Helpers, k: nat, p: Progress): seq<Option<Reply>>
    decreases if cfg.maxSteps > k then cfg.maxSteps - k else 0
  {
    if p.stopped || k >= cfg.maxSteps then []
    else [env.chat(k, p.messages)] + Replies(cfg, env, h, k + 1, Step(cfg, env, h, k, p))
  }

  /** The tokens the replies that arrived report. */
  function Spent(replies: seq<Option<Reply>>): int
  {
    if replies == [] then 0
    else (if replies[0].Some? then replies[0].value.totalTokens else 0) + Spent(replies[1..])
  }

  /** A pass adds its reply's token count, whether or not the reply decodes,
    * and records at most one step. */
  lemma AdvanceSpends(cfg: Config.AgentConfig, k: nat, p: Progress, reply: Option<Reply>, data: Option<Dict<Json>>,
                      ar: Option<D.ActionResult>, screen: D.ScreenState, feedback: Option<string>)
    ensures var q := Advance(cfg, k, p, reply, data, ar, screen, feedback);
      q.tokens == p.tokens + (if reply.Some? then reply.value.totalTokens else 0) &&
      p.steps <= q.steps && |q.steps| <= |p.steps| + 1
  {
    var q := Advance(cfg, k, p, reply, data, ar, screen, feedback);
    if reply.None? {
      assert q == Crash(p.(state := Planning));
    } else {
      var counted := p.(state := Planning, tokens := p.tokens + reply.value.totalTokens);
      AdvanceReplied(cfg, k, p, reply.value, data, ar, screen, feedback);
      if data.None? || data.value == [] {
        assert q == counted;
      } else if !IsDone(data.value) {
        ActsAdd(cfg, k, p, reply.value, data.value, ar, screen, feedback);
      }
    }
  }

  lemma StepSpends(cfg: Config.AgentConfig, env: Env, h: Helpers, k: nat, p: Progress)
    ensures var q := Step(cfg, env, h, k, p);
      var reply := env.chat(k, p.messages);
      q.tokens == p.tokens + (if reply.Some? then reply.value.totalTokens else 0) &&
      p.steps <= q.steps && |q.steps| <= |p.steps| + 1
  {
    var reply := env.chat(k, p.messages);
    var data := if reply.None? then None else h.parse(reply.value.content);
    var ar := if data.None? || data.value == [] || IsDone(data.value) then None
              else h.act(k, data.value, p.screen.elements);
    var screen := env.screen(k + 1);
    var feedback := if ar.None? then None else h.feedback(ar.value, screen);
    AdvanceSpends(cfg, k, p, reply, data, ar, screen, feedback);
  }

  /** From step index `k` the loop asks the model at most `max_steps - k`
    * times, its token count grows by exactly what the replies report, and
    * it records at most one step per request. */
  lemma {:induction false} LoopAccounting(cfg: Config.AgentConfig, env: Env, h: Helpers, k: nat, p: Progress)
    ensures |Replies(cfg, env, h, k, p)| <= (if cfg.maxSteps > k then cfg.maxSteps - k else 0)
    ensures Loop(cfg, env, h, k, p).tokens == p.tokens + Spent(Replies(cfg, env, h, k, p))
    ensures p.steps <= Loop(cfg, env, h, k, p).steps
    ensures |Loop(cfg, env, h, k, p).steps| <= |p.steps| + |Replies(cfg, env, h, k, p)|
    decreases if cfg.maxSteps > k then cfg.maxSteps - k else 0
  {
    if p.stopped || k >= cfg.maxSteps {
      LoopEnd(cfg, env, h, k, p);
    } else {
      var q := Step(cfg, env, h, k, p);
      var reply := env.chat(k, p.messages);
      var rest := Replies(cfg, env, h, k + 1, q);
      assert Replies(cfg, env, h, k, p) == [reply] + rest;
      assert ([reply] + rest)[1..] == rest;
      LoopStep(cfg, env, h, k, p);
      StepSpends(cfg, env, h, k, p);
      LoopAccounting(cfg, env, h, k + 1, q);
    }
  }

  /** `execute(task)`: `total_tokens` is the sum of every reply's count, the
    * model is asked at most `max_steps` times, and there are no more steps
    * than requests. */
  lemma RunAccounting(cfg: Config.AgentConfig, env: Env, h: Helpers, task: string, memory: seq<D.ScreenState>)
    ensures Start(cfg, env, h, task, memory).None? ==>
      Run(cfg, env, h, task, memory).0.totalTokens == 0 && Run(cfg, env, h, task, memory).0.steps == []
    ensures Start(cfg, env, h, task, memory).Some? ==>
      var calls := Replies(cfg, env, h, 0, Start(cfg, env, h, task, memory).value);
      var r := Run(cfg, env, h, task, memory).0;
      r.totalTokens == Spent(calls) && |calls| <= (if cfg.maxSteps > 0 then cfg.maxSteps else 0) &&
      |r.steps| <= |calls|
  {
    match Start(cfg, env, h, task, memory)
    case None =>
    case Some(p0) =>
      LoopAccounting(cfg, env, h, 0, p0);
  }

  // ---------------------------------------------------------------------------
  // The agent object

  class MobileAgent {
    var config: Config.MobileAgentConfig
    var state: AgentState
    var contextMemory: seq<D.ScreenState>
    var currentTask: Option<string>

    constructor (config: Config.MobileAgentConfig)
      ensures this.config == config && state == Idle && contextMemory == [] && currentTask == None
    {
      this.config := config;
      state := Idle;
      contextMemory := [];
      currentTask := None;
    }

    /** `_add_to_context` */
    method AddToContext(screen: D.ScreenState)
      modifies this`contextMemory
      ensures contextMemory == F.AddToContext(old(contextMemory), screen, config.agent.contextMemorySize)
    {
      var lst := contextMemory + [screen];
      var maxSize := config.agent.contextMemorySize;
      var keep := if maxSize > 0 then maxSize else 0;
      if |lst| > keep {
        lst := lst[|lst| - keep..];
      }
      contextMemory := lst;
    }

    /** `execute(task)` */
    method Execute(task: string, env: Env) returns (result: AgentResult)
      modifies this`state, this`contextMemory, this`currentTask
      ensures (result, state, contextMemory) == RunTask(config.agent, env, task, old(contextMemory))
      ensures currentTask == Some(task)
    {
      result := ExecuteWith(task, env, Wired(config.agent, env));
    }

    /** `execute(task)` with helpers `h`, the loop run step by step on the
      * object's fields. */
    method ExecuteWith(task: string, env: Env, h: Helpers) returns (result: AgentResult)
      modifies this`state, this`contextMemory, this`currentTask
      ensures (result, state, contextMemory) == Run(config.agent, env, h, task, old(contextMemory))
      ensures currentTask == Some(task)
    {
      var cfg := config.agent;
      ghost var memory := contextMemory;
      currentTask := Some(task);
      state := Planning;
      var screen := env.screen(0);
      AddToContext(screen);
      var initial := h.initial(task, screen);
      if initial.None? {
        state := Failed;
        return AgentResult(false, task, [], 0, Some(AgentDispatch.Raised), None);
      }
      var cur := Progress(Planning, [], 0, initial.value, screen, contextMemory, false, None, false, false);
      ghost var final := Loop(cfg, env, h, 0, cur);
      RunIs(cfg, env, h, task, memory);
      var k: nat := 0;
      while k < cfg.maxSteps && !cur.stopped
        invariant Loop(cfg, env, h, k, cur) == final
        invariant contextMemory == cur.memory && config.agent == cfg && currentTask == Some(task)
        decreases if cfg.maxSteps > k then cfg.maxSteps - k else 0
      {
        LoopStep(cfg, env, h, k, cur);
        cur := RunStep(env, h, k, cur);
        k := k + 1;
      }
      LoopEnd(cfg, env, h, k, cur);
      var (r, st) := Finish(task, cur);
      result := r;
      state := st;
    }

    /** One pass of `execute`'s loop body on the loop's variables `cur`, for
      * step index `k`; an exception that escapes it sets `crashed`. */
    method RunStep(env: Env, h: Helpers, k: nat, cur: Progress) returns (next: Progress)
      requires contextMemory == cur.memory
      modifies this`state, this`contextMemory
      ensures next == Step(config.agent, env, h, k, cur)
      ensures state == next.state && contextMemory == next.memory
    {
      var cfg := config.agent;
      var reply := env.chat(k, cur.messages);
      var data := if reply.None? then None else h.parse(reply.value.content);
      var ar := if data.None? || data.value == [] || IsDone(data.value) then None
                else h.act(k, data.value, cur.screen.elements);
      var nextScreen := env.screen(k + 1);
      var feedback := if ar.None? then None else h.feedback(ar.value, nextScreen);
      StepIs(cfg, env, h, k, cur, reply, data, ar, nextScreen, feedback);
      next := Update(k, cur, reply, data, ar, nextScreen, feedback);
    }

    /** The loop body's changes to the loop's variables and to the object,
      * given what the model, the parser, the device and the formatter gave. */
    method Update(k: nat, cur: Progress, reply: Option<Reply>, data: Option<Dict<Json>>,
                  ar: Option<D.ActionResult>, nextScreen: D.ScreenState, feedback: Option<string>)
      returns (next: Progress)
      requires contextMemory == cur.memory
      modifies this`state, this`contextMemory
      ensures next == Advance(config.agent, k, cur, reply, data, ar, nextScreen, feedback)
      ensures state == next.state && contextMemory == next.memory
    {
      state := Planning;
      if reply.None? {
        next := Crash(cur.(state := Planning));
        state := next.state;
        return;
      }
      next := Replied(k, cur, reply.value, data, ar, nextScreen, feedback);
    }

    /** The loop body once the model replied `reply`. */
    method Replied(k: nat, cur: Progress, reply: Reply, data: Option<Dict<Json>>,
                   ar: Option<D.ActionResult>, nextScreen: D.ScreenState, feedback: Option<string>)
      returns (next: Progress)
      requires contextMemory == cur.memory
      modifies this`state, this`contextMemory
      ensures next == Advance(config.agent, k, cur, Some(reply), data, ar, nextScreen, feedback)
      ensures state == next.state && contextMemory == next.memory
    {
      var counted := cur.(state := Planning, tokens := cur.tokens + reply.totalTokens);
      AdvanceReplied(config.agent, k, cur, reply, data, ar, nextScreen, feedback);
      if data.None? || data.value == [] {
        next := counted;
        state := next.state;
        return;
      }
      var step := NewStep(k, data.value, cur.screen, reply.totalTokens);
      if IsDone(data.value) {
        next := counted.(steps := cur.steps + [step.(result := Some(DoneResult))], success := true,
                         state := Completed, stopped := true);
        state := next.state;
        return;
      }
      AdvanceActs(config.agent, k, cur, reply, data.value, ar, nextScreen, feedback);
      if ar.None? {
        next := Crash(counted);
        state := next.state;
        return;
      }
      state := Executing;
      next := VerifyStep(k, counted, step.(result := ar, screenAfter := Some(nextScreen)), reply.content,
                         ar.value, nextScreen, feedback);
    }

    /** `Verify` on the object: the memory takes the new screen. */
    method VerifyStep(k: nat, cur: Progress, step: AgentStep, content: string, ar: D.ActionResult,
                      nextScreen: D.ScreenState, feedback: Option<string>) returns (next: Progress)
      requires contextMemory == cur.memory
      modifies this`state, this`contextMemory
      ensures next == Verify(config.agent, k, cur, step, content, ar, nextScreen, feedback)
      ensures state == next.state && contextMemory == next.memory
    {
      var cfg := config.agent;
      state := Verifying;
      AddToContext(nextScreen);
      next := cur.(state := Verifying, screen := nextScreen, memory := contextMemory, steps := cur.steps + [step]);
      if feedback.None? {
        state := Failed;
        next := Crash(next);
        return;
      }
      next := next.(messages := cur.messages + [Ollama.ChatMessage("assistant", content, None, None),
                                                Ollama.ChatMessage("user", feedback.value, None, None)]);
      if !ar.success && k >= cfg.retryAttempts {
        state := Failed;
        next := next.(error := Some("Action failed: " + F.OptStr(ar.error)), state := Failed, stopped := true);
      }
    }
  }
}
