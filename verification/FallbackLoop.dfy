/**
 The checkpointed ReAct loop (meta/fallback_prototype.py).

 `FallbackReactLoop.Run` is the program's loop over a mutable state object with its
 two rollback points.  `Step` says what one iteration does to the state; the lemmas
 describe whole runs from the outcomes of the completions and tools alone.
 */
module FallbackLoop {
  import opened Basics
  import opened Wrappers
  import opened Router

  datatype Message = Message(role: string, content: string, callsTool: bool, toolCallId: Option<string>)

  datatype StepResult = StepResult(stepId: nat, action: string, model: string, reason: Reason, outcome: string,
                                   errorType: Option<string>, reasoning: string, toolName: Option<string>, toolInput: Option<string>)

  /** What the surroundings do in one iteration: the completion may raise, answer (with or
      without a final answer), or ask for a tool, which returns an output or raises a problem. */
  datatype Turn =
    | CompletionRaises
    | Answers(content: string, final: Option<string>)
    | CallsTool(content: string, toolName: string, arguments: string, callId: Option<string>, output: Option<string>, problem: string)

  /** A checkpoint: the serialized state. */
  datatype Snapshot = Snapshot(
    messages: seq<Message>, stepCount: nat, selectedModel: string, routingReason: Option<Reason>,
    lastOutcome: string, lastErrorType: string, consecutiveErrors: nat, totalCost: real,
    modelHistory: seq<Entry>, stepResults: seq<StepResult>, finalAnswer: Option<string>, status: string)

  datatype TaskResult = TaskResult(steps: seq<StepResult>, finalAnswer: Option<string>, totalCost: real, totalSteps: nat, status: string)

  function Initial(systemPrompt: string, task: string): Snapshot {
    Snapshot([Message("system", systemPrompt, false, None), Message("user", task, false, None)],
             0, "", None, "", "", 0, 0.0, [], [], None, "running")
  }

  predicate IsTerminal(config: AgentConfig, s: Snapshot) {
    s.finalAnswer.Some? || s.stepCount >= config.maxSteps || s.totalCost >= config.maxCost || s.lastErrorType == "terminal"
  }

  function Chosen(config: AgentConfig, routing: RoutingConfig, s: Snapshot): Choice {
    SelectModel(s.stepCount, s.consecutiveErrors, s.lastErrorType, s.totalCost, s.modelHistory, config, routing, "")
  }

  function Assistant(turn: Turn): Message
    requires !turn.CompletionRaises?
  {
    Message("assistant", turn.content, turn.CallsTool?, None)
  }

  function ToolMessage(turn: Turn): Message
    requires turn.CallsTool? && turn.output.Some?
  {
    Message("tool", turn.output.value, false, turn.callId)
  }

  const MAX_REASONING: nat := 200

  /** What a result gives as its reasoning: the problem of a failed tool, else the reply; cut. */
  function Reasoning(turn: Turn): string
    requires !turn.CompletionRaises?
  {
    var text := if turn.CallsTool? && turn.output.None? then "tool " + turn.toolName + " raised: " + turn.problem else turn.content;
    if |text| <= MAX_REASONING then text else text[..MAX_REASONING]
  }

  function ResultOf(s: Snapshot, c: Choice, turn: Turn): StepResult
    requires !turn.CompletionRaises?
  {
    var failed := turn.CallsTool? && turn.output.None?;
    StepResult(s.stepCount, if turn.CallsTool? then "tool_call" else "answer", c.profile.name, c.reason,
               if failed then "failure" else "success", if failed then Some("tool_error") else None, Reasoning(turn),
               if turn.CallsTool? then Some(turn.toolName) else None, if turn.CallsTool? then Some(turn.arguments) else None)
  }

  /** One iteration. */
  function Step(config: AgentConfig, routing: RoutingConfig, s: Snapshot, turn: Turn): Snapshot {
    StepWith(Chosen(config, routing, s), s, turn)
  }

  /** One iteration, once the model is chosen. */
  function StepWith(c: Choice, s: Snapshot, turn: Turn): Snapshot {
    if turn.CompletionRaises? then
      s.(stepCount := s.stepCount + 1, consecutiveErrors := s.consecutiveErrors + 1,
         lastOutcome := "failure", lastErrorType := "model_error")
    else
      var told := s.(selectedModel := c.profile.name, routingReason := Some(c.reason),
                     messages := s.messages + [Assistant(turn)],
                     stepResults := s.stepResults + [ResultOf(s, c, turn)], stepCount := s.stepCount + 1);
      if turn.CallsTool? && turn.output.None? then
        told.(consecutiveErrors := s.consecutiveErrors + 1, lastOutcome := "failure", lastErrorType := "tool_error")
      else
        var done := told.(consecutiveErrors := 0, lastOutcome := "success",
                          modelHistory := s.modelHistory + [Entry(s.stepCount + 1, c.profile.name, c.profile.tier, c.reason)]);
        if turn.CallsTool? then done.(messages := told.messages + [ToolMessage(turn)])
        else if turn.final.Some? then done.(finalAnswer := turn.final, status := "completed")
        else done
  }

  /** The loop: iteration `i` meets turn `i`. */
  function Finish(config: AgentConfig, routing: RoutingConfig, env: nat -> Turn, s: Snapshot): Snapshot
    decreases if s.stepCount < config.maxSteps then config.maxSteps - s.stepCount else 0
  {
    if IsTerminal(config, s) then s else Finish(config, routing, env, Step(config, routing, s, env(s.stepCount)))
  }

  function Report(s: Snapshot): TaskResult {
    TaskResult(s.stepResults, s.finalAnswer, s.totalCost, s.stepCount,
               if s.finalAnswer.Some? && s.finalAnswer.value != "" then s.status else "exhausted")
  }

  // ----- the loop object

  class FallbackState {
    var messages: seq<Message>
    var stepCount: nat
    var selectedModel: string
    var routingReason: Option<Reason>
    var lastOutcome: string
    var lastErrorType: string
    var consecutiveErrors: nat
    var totalCost: real
    var modelHistory: seq<Entry>
    var stepResults: seq<StepResult>
    var finalAnswer: Option<string>
    var status: string

    /** Serializing and restoring are inverse: a restored state has the checkpointed fields. */
    constructor Restore(s: Snapshot)
      ensures Value() == s
    {
      messages, stepCount, selectedModel, routingReason := s.messages, s.stepCount, s.selectedModel, s.routingReason;
      lastOutcome, lastErrorType, consecutiveErrors := s.lastOutcome, s.lastErrorType, s.consecutiveErrors;
      totalCost, modelHistory, stepResults := s.totalCost, s.modelHistory, s.stepResults;
      finalAnswer, status := s.finalAnswer, s.status;
    }

    function Value(): Snapshot
      reads this
    {
      Snapshot(messages, stepCount, selectedModel, routingReason, lastOutcome, lastErrorType, consecutiveErrors, totalCost,
               modelHistory, stepResults, finalAnswer, status)
    }

    method Checkpoint() returns (payload: Snapshot)
      ensures payload == Value()
    {
      payload := Value();
    }

    /** The bookkeeping both failure paths share, on the freshly restored state. */
    method CountFailure(errorType: string)
      modifies this
      ensures Value() == old(Value()).(consecutiveErrors := old(consecutiveErrors) + 1, lastOutcome := "failure",
                                       lastErrorType := errorType, stepCount := old(stepCount) + 1)
    {
      consecutiveErrors := consecutiveErrors + 1;
      lastOutcome := "failure";
      lastErrorType := errorType;
      stepCount := stepCount + 1;
    }
  }

  class FallbackReactLoop {
    const config: AgentConfig
    const routing: RoutingConfig

    constructor (config: AgentConfig, routing: RoutingConfig)
      ensures this.config == config && this.routing == routing
    {
      this.config, this.routing := config, routing;
    }

    method Run(systemPrompt: string, task: string, env: nat -> Turn) returns (r: TaskResult)
      ensures r == Report(Finish(config, routing, env, Initial(systemPrompt, task)))
    {
      var state := new FallbackState.Restore(Initial(systemPrompt, task));
      while !IsTerminal(config, state.Value())
        invariant fresh(state)
        invariant Finish(config, routing, env, state.Value()) == Finish(config, routing, env, Initial(systemPrompt, task))
        decreases config.maxSteps - state.stepCount
      {
        state := Iterate(state, env(state.stepCount));
      }
      r := Report(state.Value());
    }

    method Iterate(current: FallbackState, turn: Turn) returns (state: FallbackState)
      modifies current
      ensures state == current || fresh(state)
      ensures state.Value() == Step(config, routing, old(current.Value()), turn)
    {
      var payload := current.Checkpoint();
      var choice := Chosen(config, routing, payload);
      current.selectedModel := choice.profile.name;
      current.routingReason := Some(choice.reason);
      if turn.CompletionRaises? {
        state := new FallbackState.Restore(payload);
        state.CountFailure("model_error");
      } else {
        state := Respond(current, payload, choice, turn);
      }
    }

    method Respond(current: FallbackState, ghost before: Snapshot, choice: Choice, turn: Turn) returns (state: FallbackState)
      requires !turn.CompletionRaises?
      requires current.Value() == before.(selectedModel := choice.profile.name, routingReason := Some(choice.reason))
      modifies current
      ensures state == current || fresh(state)
      ensures state.Value() == StepWith(choice, before, turn)
    {
      state := current;
      state.messages := state.messages + [Assistant(turn)];
      if turn.CallsTool? {
        var toolCheckpoint := state.Checkpoint();
        if turn.output.None? {
          state := new FallbackState.Restore(toolCheckpoint);
          state.stepResults := state.stepResults + [ResultOf(state.Value(), choice, turn)];
          state.CountFailure("tool_error");
          return;
        }
        state.messages := state.messages + [ToolMessage(turn)];
      } else if turn.final.Some? {
        state.finalAnswer := turn.final;
        state.status := "completed";
      }
      RecordSuccess(state, choice, turn);
    }

    method RecordSuccess(state: FallbackState, choice: Choice, turn: Turn)
      requires !Failed(turn)
      modifies state
      ensures var s := old(state.Value());
              state.Value() == s.(stepResults := s.stepResults + [ResultOf(s, choice, turn)], stepCount := s.stepCount + 1,
                                  lastOutcome := "success", consecutiveErrors := 0,
                                  modelHistory := s.modelHistory
                                                  + [Entry(s.stepCount + 1, choice.profile.name, choice.profile.tier, choice.reason)])
    {
      state.stepResults := state.stepResults + [ResultOf(state.Value(), choice, turn)];
      state.stepCount := state.stepCount + 1;
      state.lastOutcome := "success";
      state.consecutiveErrors := 0;
      state.modelHistory := state.modelHistory + [Entry(state.stepCount, choice.profile.name, choice.profile.tier, choice.reason)];
    }
  }

  // ----- whole runs, told from the turns

  predicate Failed(turn: Turn) { turn.CompletionRaises? || (turn.CallsTool? && turn.output.None?) }

  /** The length of the unbroken run of failures that ends at iteration `n`. */
  function TrailingFailures(env: nat -> Turn, n: nat): nat {
    if n == 0 || !Failed(env(n - 1)) then 0 else 1 + TrailingFailures(env, n - 1)
  }

  /** The iterations whose completion came back. */
  function Heard(env: nat -> Turn, n: nat): seq<int> {
    if n == 0 then [] else Heard(env, n - 1) + if env(n - 1).CompletionRaises? then [] else [n - 1]
  }

  /** The iterations without a failure. */
  function Clean(env: nat -> Turn, n: nat): seq<int> {
    if n == 0 then [] else Clean(env, n - 1) + if Failed(env(n - 1)) then [] else [n - 1]
  }

  /** What the conversation gains: nothing from a failed completion, the request alone from a
      failed tool. */
  function Transcript(env: nat -> Turn, n: nat): seq<Message> {
    if n == 0 then [] else Transcript(env, n - 1) + Spoken(env(n - 1))
  }

  function Spoken(turn: Turn): seq<Message> {
    if turn.CompletionRaises? then []
    else [Assistant(turn)] + if turn.CallsTool? && turn.output.Some? then [ToolMessage(turn)] else []
  }

  predicate Concludes(turn: Turn) { turn.Answers? && turn.final.Some? }

  /** The last failure's type; a later success does not erase it. */
  function LastError(env: nat -> Turn, n: nat): string {
    if n == 0 then ""
    else if env(n - 1).CompletionRaises? then "model_error"
    else if Failed(env(n - 1)) then "tool_error"
    else LastError(env, n - 1)
  }

  function StepIds(results: seq<StepResult>): seq<int> {
    seq(|results|, i requires 0 <= i < |results| => results[i].stepId)
  }

  /** Every result says what its iteration was: a tool call or an answer, failed or not. */
  ghost predicate TellTurns(results: seq<StepResult>, env: nat -> Turn) {
    forall k :: 0 <= k < |results| ==> TellsTurn(results[k], env(results[k].stepId))
  }

  predicate TellsTurn(r: StepResult, turn: Turn) {
    && r.action == (if turn.CallsTool? then "tool_call" else "answer")
    && r.outcome == (if Failed(turn) then "failure" else "success")
    && r.errorType == (if Failed(turn) then Some("tool_error") else None)
    && r.toolName == (if turn.CallsTool? then Some(turn.toolName) else None)
    && r.toolInput == (if turn.CallsTool? then Some(turn.arguments) else None)
  }

  /** History entries are stamped after the step counter moved. */
  function Iterations(history: seq<Entry>): seq<int> {
    seq(|history|, i requires 0 <= i < |history| => history[i].step - 1)
  }

  ghost predicate Counters(s: Snapshot, env: nat -> Turn) {
    var n := s.stepCount;
    && s.consecutiveErrors == TrailingFailures(env, n)
    && s.lastErrorType == LastError(env, n)
    && s.totalCost == 0.0
    && s.finalAnswer == (if n > 0 && Concludes(env(n - 1)) then env(n - 1).final else None)
    && (forall i :: 0 <= i < n - 1 ==> !Concludes(env(i)))
    && (s.status == "completed" <==> s.finalAnswer.Some?)
  }

  ghost predicate Accounts(start: Snapshot, s: Snapshot, env: nat -> Turn) {
    && Counters(s, env)
    && s.messages == start.messages + Transcript(env, s.stepCount)
    && StepIds(s.stepResults) == Heard(env, s.stepCount)
    && TellTurns(s.stepResults, env)
    && Iterations(s.modelHistory) == Clean(env, s.stepCount)
  }

  lemma Append<T>(a: seq<T>, b: seq<T>, c: seq<T>)
    ensures (a + b) + c == a + (b + c)
  {
  }

  lemma StepLists(c: Choice, s: Snapshot, turn: Turn)
    ensures var t := StepWith(c, s, turn);
            && t.messages == s.messages + Spoken(turn)
            && StepIds(t.stepResults) == StepIds(s.stepResults) + (if turn.CompletionRaises? then [] else [s.stepCount])
            && Iterations(t.modelHistory) == Iterations(s.modelHistory) + (if Failed(turn) then [] else [s.stepCount])
  {
    HistoryStep(c, s, turn);
    assert Iterations(s.modelHistory + [PickOf(c, s)]) == Iterations(s.modelHistory) + [s.stepCount];
    if !turn.CompletionRaises? {
      assert StepIds(s.stepResults + [ResultOf(s, c, turn)]) == StepIds(s.stepResults) + [s.stepCount];
    }
  }

  lemma StepTells(c: Choice, s: Snapshot, env: nat -> Turn)
    requires TellTurns(s.stepResults, env)
    ensures TellTurns(StepWith(c, s, env(s.stepCount)).stepResults, env)
  {
  }

  lemma StepCounters(c: Choice, s: Snapshot, env: nat -> Turn)
    requires Counters(s, env) && s.finalAnswer.None?
    ensures Counters(StepWith(c, s, env(s.stepCount)), env)
  {
  }

  lemma StepAccounts(c: Choice, start: Snapshot, s: Snapshot, env: nat -> Turn)
    requires Accounts(start, s, env) && s.finalAnswer.None?
    ensures Accounts(start, StepWith(c, s, env(s.stepCount)), env)
    ensures StepWith(c, s, env(s.stepCount)).stepCount == s.stepCount + 1
  {
    var turn := env(s.stepCount);
    StepCounters(c, s, env);
    StepLists(c, s, turn);
    StepTells(c, s, env);
    Append(start.messages, Transcript(env, s.stepCount), Spoken(turn));
  }

  lemma {:induction false} FinishAccounts(config: AgentConfig, routing: RoutingConfig, start: Snapshot, s: Snapshot, env: nat -> Turn)
    requires Accounts(start, s, env)
    ensures var f := Finish(config, routing, env, s);
            Accounts(start, f, env) && IsTerminal(config, f) && s.stepCount <= f.stepCount
            && (f.stepCount > s.stepCount ==> f.stepCount <= config.maxSteps && config.maxCost > 0.0)
    decreases if s.stepCount < config.maxSteps then config.maxSteps - s.stepCount else 0
  {
    if !IsTerminal(config, s) {
      StepAccounts(Chosen(config, routing, s), start, s, env);
      FinishAccounts(config, routing, start, Step(config, routing, s, env(s.stepCount)), env);
    }
  }

  lemma {:induction false} HeardCount(env: nat -> Turn, n: nat)
    ensures |Heard(env, n)| + |set i | 0 <= i < n && env(i).CompletionRaises?| == n
    ensures forall k, l :: 0 <= k < l < |Heard(env, n)| ==> Heard(env, n)[k] < Heard(env, n)[l]
    ensures forall k :: 0 <= k < |Heard(env, n)| ==> Heard(env, n)[k] < n
  {
    if n > 0 {
      HeardCount(env, n - 1);
      var raises := set i | 0 <= i < n - 1 && env(i).CompletionRaises?;
      assert (set i | 0 <= i < n && env(i).CompletionRaises?) == if env(n - 1).CompletionRaises? then raises + {n - 1} else raises;
    }
  }

  lemma {:induction false} CleanCount(env: nat -> Turn, n: nat)
    ensures |Clean(env, n)| + |set i | 0 <= i < n && Failed(env(i))| == n
  {
    if n > 0 {
      CleanCount(env, n - 1);
      var fails := set i | 0 <= i < n - 1 && Failed(env(i));
      assert (set i | 0 <= i < n && Failed(env(i))) == if Failed(env(n - 1)) then fails + {n - 1} else fails;
    }
  }

  /** The books of a whole run, for every sequence of completion and tool outcomes. */
  lemma RunAccounting(config: AgentConfig, routing: RoutingConfig, systemPrompt: string, task: string, env: nat -> Turn)
    ensures var f := Finish(config, routing, env, Initial(systemPrompt, task));
            var n := f.stepCount;
            && (n == 0 || n <= config.maxSteps)
            && |f.stepResults| == n - |set i | 0 <= i < n && env(i).CompletionRaises?|
            && |f.modelHistory| == n - |set i | 0 <= i < n && Failed(env(i))|
            && (forall k, l :: 0 <= k < l < |f.stepResults| ==> f.stepResults[k].stepId < f.stepResults[l].stepId < n)
            && TellTurns(f.stepResults, env)
            && f.consecutiveErrors == TrailingFailures(env, n)
            && f.messages == Initial(systemPrompt, task).messages + Transcript(env, n)
  {
    var start := Initial(systemPrompt, task);
    FinishAccounts(config, routing, start, start, env);
    var f := Finish(config, routing, env, start);
    HeardCount(env, f.stepCount);
    CleanCount(env, f.stepCount);
    var ids := StepIds(f.stepResults);
    assert |ids| == |f.stepResults| && |Iterations(f.modelHistory)| == |f.modelHistory|;
    forall k, l | 0 <= k < l < |f.stepResults|
      ensures f.stepResults[k].stepId < f.stepResults[l].stepId < f.stepCount
    {
      assert ids[k] == f.stepResults[k].stepId && ids[l] == f.stepResults[l].stepId;
    }
  }

  lemma EndsExactly(config: AgentConfig, f: Snapshot, env: nat -> Turn)
    requires Counters(f, env) && IsTerminal(config, f)
    ensures var n := f.stepCount;
            && ((n > 0 && Concludes(env(n - 1))) || n >= config.maxSteps || config.maxCost <= 0.0)
            && (Report(f).status == "completed" <==> n > 0 && Concludes(env(n - 1)) && env(n - 1).final != Some(""))
  {
    LastErrorIsNeverTerminal(env, f.stepCount);
  }

  /** A run stops at its first final answer, and otherwise exactly when its steps run out;
      it is reported completed exactly when that answer is not empty. */
  lemma RunStopsExactly(config: AgentConfig, routing: RoutingConfig, systemPrompt: string, task: string, env: nat -> Turn)
    ensures var f := Finish(config, routing, env, Initial(systemPrompt, task));
            var n := f.stepCount;
            && (forall i :: 0 <= i < n - 1 ==> !Concludes(env(i)))
            && ((n > 0 && Concludes(env(n - 1))) || n >= config.maxSteps || config.maxCost <= 0.0)
            && (config.maxCost <= 0.0 ==> n == 0)
            && (Report(f).status == "completed" <==> n > 0 && Concludes(env(n - 1)) && env(n - 1).final != Some(""))
            && Report(f).totalSteps == n
  {
    var start := Initial(systemPrompt, task);
    FinishAccounts(config, routing, start, start, env);
    EndsExactly(config, Finish(config, routing, env, start), env);
  }

  lemma {:induction false} LastErrorIsNeverTerminal(env: nat -> Turn, n: nat)
    ensures LastError(env, n) in {"", "model_error", "tool_error"}
  {
    if n > 0 {
      LastErrorIsNeverTerminal(env, n - 1);
    }
  }

  // ----- bounded escalation

  function Escalations(history: seq<Entry>): nat {
    if history == [] then 0
    else Escalations(history[..|history| - 1]) + if history[|history| - 1].reason.rule.EscalateAfter? then 1 else 0
  }

  /** What every iteration keeps; the first bound needs a cheap steady-state choice. */
  ghost predicate Bounded(routing: RoutingConfig, history: seq<Entry>, n: nat, env: nat -> Turn, cheap: bool) {
    && (cheap ==> Expensive(history) <= Max(1, routing.maxEscalations))
    && Escalations(history) <= Expensive(history)
    && Escalations(history) <= Max(0, routing.maxEscalations)
    && (n == 0 ==> history == [])
    && Justified(routing, history, env)
  }

  /** Every escalation answers an unbroken run of at least `escalateAfter` failures, and
      no entry comes from the retry branch or from a pin. */
  ghost predicate Justified(routing: RoutingConfig, history: seq<Entry>, env: nat -> Turn) {
    forall k :: 0 <= k < |history| ==>
      var e := history[k];
      && e.step >= 1 && !e.reason.rule.RetryAfterBackoff? && !e.reason.rule.UserPinned? && e.reason.pinMiss.None?
      && (e.reason.rule.EscalateAfter? ==> e.reason.rule.failures == TrailingFailures(env, e.step - 1) >= routing.escalateAfter)
  }

  /** What the router promises the loop about one choice. */
  ghost predicate Sound(routing: RoutingConfig, s: Snapshot, c: Choice, cheap: bool) {
    && (cheap && IsExpensive(c.profile.tier) ==> Expensive(s.modelHistory) < routing.maxEscalations || s.stepCount == 0)
    && (c.reason.rule.EscalateAfter? ==>
          && IsExpensive(c.profile.tier) && Expensive(s.modelHistory) < routing.maxEscalations
          && c.reason.rule.failures == s.consecutiveErrors >= routing.escalateAfter)
    && !c.reason.rule.RetryAfterBackoff? && !c.reason.rule.UserPinned? && c.reason.pinMiss.None?
  }

  lemma ChoiceIsSound(config: AgentConfig, routing: RoutingConfig, s: Snapshot)
    requires s.lastErrorType != "retryable"
    ensures Sound(routing, s, Chosen(config, routing, s), !IsExpensive(Steady(config, routing).tier))
  {
  }

  lemma PickKeepsBounds(routing: RoutingConfig, c: Choice, s: Snapshot, e: Entry, env: nat -> Turn, cheap: bool)
    requires Bounded(routing, s.modelHistory, s.stepCount, env, cheap) && Sound(routing, s, c, cheap)
    requires s.consecutiveErrors == TrailingFailures(env, s.stepCount)
    requires e == PickOf(c, s)
    ensures Bounded(routing, s.modelHistory + [e], s.stepCount + 1, env, cheap)
  {
  }

  lemma StepBounded(routing: RoutingConfig, c: Choice, s: Snapshot, env: nat -> Turn, cheap: bool)
    requires Bounded(routing, s.modelHistory, s.stepCount, env, cheap) && Sound(routing, s, c, cheap)
    requires s.consecutiveErrors == TrailingFailures(env, s.stepCount)
    ensures Bounded(routing, StepWith(c, s, env(s.stepCount)).modelHistory, s.stepCount + 1, env, cheap)
  {
    var turn := env(s.stepCount);
    HistoryStep(c, s, turn);
    if !Failed(turn) {
      PickKeepsBounds(routing, c, s, PickOf(c, s), env, cheap);
    }
  }

  function PickOf(c: Choice, s: Snapshot): Entry {
    Entry(s.stepCount + 1, c.profile.name, c.profile.tier, c.reason)
  }

  lemma HistoryStep(c: Choice, s: Snapshot, turn: Turn)
    ensures StepWith(c, s, turn).modelHistory == if Failed(turn) then s.modelHistory else s.modelHistory + [PickOf(c, s)]
  {
  }

  lemma {:induction false} FinishBounded(config: AgentConfig, routing: RoutingConfig, start: Snapshot, s: Snapshot, env: nat -> Turn)
    requires Accounts(start, s, env) && Bounded(routing, s.modelHistory, s.stepCount, env, !IsExpensive(Steady(config, routing).tier))
    ensures var f := Finish(config, routing, env, s);
            Bounded(routing, f.modelHistory, f.stepCount, env, !IsExpensive(Steady(config, routing).tier))
    decreases if s.stepCount < config.maxSteps then config.maxSteps - s.stepCount else 0
  {
    if !IsTerminal(config, s) {
      StepAccounts(Chosen(config, routing, s), start, s, env);
      LastErrorIsNeverTerminal(env, s.stepCount);
      ChoiceIsSound(config, routing, s);
      StepBounded(routing, Chosen(config, routing, s), s, env, !IsExpensive(Steady(config, routing).tier));
      FinishBounded(config, routing, start, Step(config, routing, s, env(s.stepCount)), env);
    }
  }

  function Picks(config: AgentConfig, routing: RoutingConfig, systemPrompt: string, task: string, env: nat -> Turn): seq<Entry> {
    Finish(config, routing, env, Initial(systemPrompt, task)).modelHistory
  }

  /** The history never records more than `maxEscalations` escalations and, with a cheap
      steady-state model (a registered fast tier is enough), never more than
      `max(1, maxEscalations)` capable or reasoning picks.  Iterations that fail leave no
      entry; `LoopSpending` counts those too. */
  lemma RecordedPicksAreBounded(config: AgentConfig, routing: RoutingConfig, systemPrompt: string, task: string, env: nat -> Turn)
    ensures var h := Picks(config, routing, systemPrompt, task, env);
            && (!IsExpensive(Steady(config, routing).tier) ==> Expensive(h) <= Max(1, routing.maxEscalations))
            && Escalations(h) <= Max(0, routing.maxEscalations)
            && Justified(routing, h, env)
  {
    var start := Initial(systemPrompt, task);
    FinishBounded(config, routing, start, start, env);
  }

  lemma FastTierIsCheap(config: AgentConfig, routing: RoutingConfig)
    requires exists m :: m in config.models && m.tier == FAST
    ensures !IsExpensive(Steady(config, routing).tier)
  {
  }

  function PlainAnswer(i: nat): Turn { Answers("", None) }

  /** When the steady-state model is itself expensive, a run of plain answers picks an
      expensive model in every single step. */
  lemma {:induction false} PlainAnswersStayExpensive(config: AgentConfig, routing: RoutingConfig, s: Snapshot)
    requires IsExpensive(Steady(config, routing).tier)
    requires s.lastErrorType == "" && s.finalAnswer.None? && s.totalCost == 0.0 < config.maxCost
    requires Expensive(s.modelHistory) == s.stepCount
    ensures Expensive(Finish(config, routing, PlainAnswer, s).modelHistory) >= config.maxSteps
    decreases if s.stepCount < config.maxSteps then config.maxSteps - s.stepCount else 0
  {
    if !IsTerminal(config, s) {
      var t := Step(config, routing, s, PlainAnswer(s.stepCount));
      SelectionIsSound(s.stepCount, s.consecutiveErrors, s.lastErrorType, s.totalCost, s.modelHistory, config, routing, "");
      assert t.modelHistory[..|t.modelHistory| - 1] == s.modelHistory;
      PlainAnswersStayExpensive(config, routing, t);
    }
  }

  lemma {:induction false} ExpensiveAtMostAll(history: seq<Entry>)
    ensures Expensive(history) <= |history|
  {
    if history != [] {
      ExpensiveAtMostAll(history[..|history| - 1]);
    }
  }

  /** The exact condition for the bound on recorded expensive picks, which the configuration
      alone decides: the steady-state choice is cheap, or the run is too short or too poor to
      exceed it. */
  lemma RecordedExpensiveBoundedIff(config: AgentConfig, routing: RoutingConfig)
    ensures (forall systemPrompt: string, task: string, env: nat -> Turn ::
               Expensive(Picks(config, routing, systemPrompt, task, env)) <= Max(1, routing.maxEscalations))
            <==> !IsExpensive(Steady(config, routing).tier)
                 || config.maxSteps <= Max(1, routing.maxEscalations)
                 || config.maxCost <= 0.0
  {
    forall systemPrompt: string, task: string, env: nat -> Turn
      ensures !IsExpensive(Steady(config, routing).tier) || config.maxSteps <= Max(1, routing.maxEscalations) || config.maxCost <= 0.0
              ==> Expensive(Picks(config, routing, systemPrompt, task, env)) <= Max(1, routing.maxEscalations)
    {
      if !IsExpensive(Steady(config, routing).tier) {
        RecordedPicksAreBounded(config, routing, systemPrompt, task, env);
      }
      RunAccounting(config, routing, systemPrompt, task, env);
      RunStopsExactly(config, routing, systemPrompt, task, env);
      ExpensiveAtMostAll(Picks(config, routing, systemPrompt, task, env));
    }
    if IsExpensive(Steady(config, routing).tier) && config.maxCost > 0.0 {
      PlainAnswersStayExpensive(config, routing, Initial("", ""));
      assert Expensive(Picks(config, routing, "", "", PlainAnswer)) >= config.maxSteps;
    }
  }
}
