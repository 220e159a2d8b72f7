/**
 What the checkpointed loop spends (meta/fallback_prototype.py with components/router.py).

 `FallbackLoop` bounds the picks that the model history records.  The router is asked in
 every iteration, though, and both failure exits leave the history as it was, so the
 next iteration finds the same escalation budget again.  This module counts the
 iterations themselves: how many an escalation or an expensive model was chosen for,
 whatever became of them.
 */
module LoopSpending {
  import opened Basics
  import opened FallbackLoop
  import opened Router
  import opened Wrappers

  datatype Concern = Escalation | Expense

  /** Which iterations to count: all, those whose completion came back, those without failure. */
  datatype Scope = Every | Returned | Succeeded

  predicate Costs(k: Concern, c: Choice) {
    match k
    case Escalation => c.reason.rule.EscalateAfter?
    case Expense => IsExpensive(c.profile.tier)
  }

  predicate Covers(w: Scope, turn: Turn) {
    match w
    case Every => true
    case Returned => !turn.CompletionRaises?
    case Succeeded => !Failed(turn)
  }

  datatype Iteration = Iteration(turn: Turn, choice: Choice)

  /** The iterations from here on: what the router chose, and what then happened. */
  function Trace(config: AgentConfig, routing: RoutingConfig, env: nat -> Turn, s: Snapshot): seq<Iteration>
    decreases if s.stepCount < config.maxSteps then config.maxSteps - s.stepCount else 0
  {
    if IsTerminal(config, s) then []
    else
      var turn := env(s.stepCount);
      [Iteration(turn, Chosen(config, routing, s))] + Trace(config, routing, env, Step(config, routing, s, turn))
  }

  function Count(w: Scope, k: Concern, its: seq<Iteration>): nat {
    if its == [] then 0
    else (if Covers(w, its[0].turn) && Costs(k, its[0].choice) then 1 else 0) + Count(w, k, its[1..])
  }

  /** How many of them chose what is of concern. */
  function Spent(w: Scope, k: Concern, config: AgentConfig, routing: RoutingConfig, env: nat -> Turn, s: Snapshot): nat {
    Count(w, k, Trace(config, routing, env, s))
  }

  lemma SpentStep(w: Scope, k: Concern, config: AgentConfig, routing: RoutingConfig, env: nat -> Turn, s: Snapshot)
    requires !IsTerminal(config, s)
    ensures var (c, turn) := (Chosen(config, routing, s), env(s.stepCount));
            Spent(w, k, config, routing, env, s)
            == Spent(w, k, config, routing, env, StepWith(c, s, turn)) + if Covers(w, turn) && Costs(k, c) then 1 else 0
  {
    var it, rest := Iteration(env(s.stepCount), Chosen(config, routing, s)),
                    Trace(config, routing, env, Step(config, routing, s, env(s.stepCount)));
    assert ([it] + rest)[1..] == rest;
  }

  // ----- what is recorded of it

  function Recorded(k: Concern, history: seq<Entry>): nat {
    match k case Escalation => Escalations(history) case Expense => Expensive(history)
  }

  lemma OneMorePick(k: Concern, c: Choice, s: Snapshot)
    ensures Recorded(k, s.modelHistory + [PickOf(c, s)]) == Recorded(k, s.modelHistory) + if Costs(k, c) then 1 else 0
  {
    assert (s.modelHistory + [PickOf(c, s)])[..|s.modelHistory|] == s.modelHistory;
  }

  /** The history records exactly what the iterations without failure spent. */
  lemma {:induction false} HistoryRecordsSuccesses(k: Concern, config: AgentConfig, routing: RoutingConfig, env: nat -> Turn, s: Snapshot)
    ensures Recorded(k, Finish(config, routing, env, s).modelHistory)
            == Recorded(k, s.modelHistory) + Spent(Succeeded, k, config, routing, env, s)
    decreases if s.stepCount < config.maxSteps then config.maxSteps - s.stepCount else 0
  {
    if !IsTerminal(config, s) {
      var c, turn := Chosen(config, routing, s), env(s.stepCount);
      SpentStep(Succeeded, k, config, routing, env, s);
      HistoryStep(c, s, turn);
      OneMorePick(k, c, s);
      HistoryRecordsSuccesses(k, config, routing, env, Step(config, routing, s, turn));
    }
  }

  /** The step results that name an escalation as their reason. */
  function EscalatedResults(results: seq<StepResult>): nat {
    if results == [] then 0
    else EscalatedResults(results[..|results| - 1]) + if results[|results| - 1].reason.rule.EscalateAfter? then 1 else 0
  }

  lemma OneMoreResult(c: Choice, s: Snapshot, turn: Turn)
    ensures EscalatedResults(StepWith(c, s, turn).stepResults)
            == EscalatedResults(s.stepResults) + if Covers(Returned, turn) && Costs(Escalation, c) then 1 else 0
  {
    if !turn.CompletionRaises? {
      assert (s.stepResults + [ResultOf(s, c, turn)])[..|s.stepResults|] == s.stepResults;
    }
  }

  /** The step results show what the iterations with a completion spent, failed tools included. */
  lemma {:induction false} ResultsShowHeard(config: AgentConfig, routing: RoutingConfig, env: nat -> Turn, s: Snapshot)
    ensures EscalatedResults(Finish(config, routing, env, s).stepResults)
            == EscalatedResults(s.stepResults) + Spent(Returned, Escalation, config, routing, env, s)
    decreases if s.stepCount < config.maxSteps then config.maxSteps - s.stepCount else 0
  {
    if !IsTerminal(config, s) {
      SpentStep(Returned, Escalation, config, routing, env, s);
      OneMoreResult(Chosen(config, routing, s), s, env(s.stepCount));
      ResultsShowHeard(config, routing, env, Step(config, routing, s, env(s.stepCount)));
    }
  }

  // ----- the worst run

  predicate CanEscalate(config: AgentConfig, routing: RoutingConfig) {
    Strongest(config.models).Some? && routing.maxEscalations > 0 && routing.budgetThreshold > 0.0
  }

  /** What a configuration lets the router do: in every iteration, in all but the first `after`,
      or in the very first. */
  datatype Outlook = Outlook(always: bool, later: bool, after: int, first: bool)

  function OutlookOf(k: Concern, config: AgentConfig, routing: RoutingConfig): Outlook {
    match k
    case Escalation => Outlook(false, CanEscalate(config, routing), routing.escalateAfter, false)
    case Expense =>
      Outlook(IsExpensive(Steady(config, routing).tier), CanEscalate(config, routing), routing.escalateAfter,
              routing.budgetThreshold > 0.0 && HasTier(config.models, CAPABLE))
  }

  /** Whether iteration `n` of some run can be of concern. */
  predicate May(o: Outlook, n: nat) {
    o.always || (o.later && n >= o.after) || (o.first && n == 0)
  }

  function Worst(o: Outlook, steps: int, n: nat): nat
    decreases if n < steps then steps - n else 0
  {
    if n >= steps then 0 else (if May(o, n) then 1 else 0) + Worst(o, steps, n + 1)
  }

  /** No cost is ever booked, so the cost cap rules all iterations or none. */
  lemma UnderBudget(config: AgentConfig, routing: RoutingConfig)
    ensures OverBudget(0.0, config, routing) <==> routing.budgetThreshold <= 0.0
  {
  }

  lemma ChoiceMay(k: Concern, config: AgentConfig, routing: RoutingConfig, s: Snapshot)
    requires s.totalCost == 0.0 && s.lastErrorType != "retryable" && s.consecutiveErrors <= s.stepCount
    ensures Costs(k, Chosen(config, routing, s)) ==> May(OutlookOf(k, config, routing), s.stepCount)
  {
    UnderBudget(config, routing);
  }

  /** While nothing but failures happened the router does all that it may. */
  lemma FailingChoice(k: Concern, config: AgentConfig, routing: RoutingConfig, s: Snapshot)
    requires s.totalCost == 0.0 && s.lastErrorType != "retryable" && s.consecutiveErrors == s.stepCount && s.modelHistory == []
    ensures Costs(k, Chosen(config, routing, s)) <==> May(OutlookOf(k, config, routing), s.stepCount)
  {
    UnderBudget(config, routing);
    RulesArePrioritized(s.stepCount, s.consecutiveErrors, s.lastErrorType, s.totalCost, s.modelHistory, config, routing, "");
  }

  /** What the router's choice depends on besides the history, in every reachable state. */
  predicate Reachable(s: Snapshot) {
    s.totalCost == 0.0 && s.lastErrorType in {"", "model_error", "tool_error"} && s.consecutiveErrors <= s.stepCount
  }

  lemma StepReachable(c: Choice, s: Snapshot, turn: Turn)
    requires Reachable(s)
    ensures Reachable(StepWith(c, s, turn)) && StepWith(c, s, turn).stepCount == s.stepCount + 1
  {
  }

  /** Iteration `i` was chosen for in a reachable state, `i` steps on. */
  lemma {:induction false} StateAt(config: AgentConfig, routing: RoutingConfig, env: nat -> Turn, s: Snapshot, i: nat)
    returns (t: Snapshot)
    requires Reachable(s) && i < |Trace(config, routing, env, s)|
    ensures Reachable(t) && t.stepCount == s.stepCount + i < config.maxSteps
    ensures Trace(config, routing, env, s)[i].choice == Chosen(config, routing, t)
    decreases i
  {
    t := s;
    if i > 0 {
      StepReachable(Chosen(config, routing, s), s, env(s.stepCount));
      t := StateAt(config, routing, env, Step(config, routing, s, env(s.stepCount)), i - 1);
    }
  }

  predicate ForeseesAt(o: Outlook, k: Concern, it: Iteration, steps: int, n: nat) {
    n < steps && (Costs(k, it.choice) ==> May(o, n))
  }

  ghost predicate Foresees(o: Outlook, k: Concern, its: seq<Iteration>, steps: int, n: nat) {
    forall i :: 0 <= i < |its| ==> ForeseesAt(o, k, its[i], steps, n + i)
  }

  lemma IterationIsForeseen(k: Concern, config: AgentConfig, routing: RoutingConfig, env: nat -> Turn, s: Snapshot, i: nat, it: Iteration)
    requires Reachable(s) && i < |Trace(config, routing, env, s)| && it == Trace(config, routing, env, s)[i]
    ensures ForeseesAt(OutlookOf(k, config, routing), k, it, config.maxSteps, s.stepCount + i)
  {
    var t := StateAt(config, routing, env, s, i);
    ChoiceMay(k, config, routing, t);
  }

  lemma TraceIsForeseen(k: Concern, config: AgentConfig, routing: RoutingConfig, env: nat -> Turn, s: Snapshot, o: Outlook,
                        its: seq<Iteration>)
    requires Reachable(s) && o == OutlookOf(k, config, routing) && its == Trace(config, routing, env, s)
    ensures Foresees(o, k, its, config.maxSteps, s.stepCount)
  {
    forall i | 0 <= i < |its|
      ensures ForeseesAt(o, k, its[i], config.maxSteps, s.stepCount + i)
    {
      IterationIsForeseen(k, config, routing, env, s, i, its[i]);
    }
  }

  lemma {:induction false} CountAtMostWorst(w: Scope, k: Concern, its: seq<Iteration>, o: Outlook, steps: int, n: nat)
    requires Foresees(o, k, its, steps, n)
    ensures Count(w, k, its) <= Worst(o, steps, n)
    decreases |its|
  {
    if its != [] {
      assert ForeseesAt(o, k, its[0], steps, n + 0);
      var rest := its[1..];
      forall i | 0 <= i < |rest|
        ensures ForeseesAt(o, k, rest[i], steps, n + 1 + i)
      {
        assert ForeseesAt(o, k, its[i + 1], steps, n + (i + 1));
      }
      CountAtMostWorst(w, k, rest, o, steps, n + 1);
    }
  }

  /** A run in which every completion asks for a tool that raises. */
  function FailedTool(i: nat): Turn { CallsTool("", "", "", None, None, "") }

  lemma {:induction false} FailingSpendsWorst(w: Scope, k: Concern, config: AgentConfig, routing: RoutingConfig, s: Snapshot)
    requires w != Succeeded && config.maxCost > 0.0 && s.totalCost == 0.0 && s.finalAnswer.None?
    requires s.lastErrorType in {"", "tool_error"} && s.consecutiveErrors == s.stepCount && s.modelHistory == []
    ensures Spent(w, k, config, routing, FailedTool, s) == Worst(OutlookOf(k, config, routing), config.maxSteps, s.stepCount)
    decreases if s.stepCount < config.maxSteps then config.maxSteps - s.stepCount else 0
  {
    if !IsTerminal(config, s) {
      SpentStep(w, k, config, routing, FailedTool, s);
      FailingChoice(k, config, routing, s);
      FailingSpendsWorst(w, k, config, routing, Step(config, routing, s, FailedTool(s.stepCount)));
    }
  }

  function RunSpent(w: Scope, k: Concern, config: AgentConfig, routing: RoutingConfig, systemPrompt: string, task: string,
                    env: nat -> Turn): nat
  {
    Spent(w, k, config, routing, env, Initial(systemPrompt, task))
  }

  /** The exact maximum of what a run spends. */
  function Most(k: Concern, config: AgentConfig, routing: RoutingConfig): nat {
    if config.maxCost <= 0.0 then 0 else Worst(OutlookOf(k, config, routing), config.maxSteps, 0)
  }

  /** No outcomes make a run spend more than one in which every tool fails. */
  lemma FailingRunIsWorst(w: Scope, k: Concern, config: AgentConfig, routing: RoutingConfig, systemPrompt: string, task: string,
                          env: nat -> Turn)
    ensures RunSpent(w, k, config, routing, systemPrompt, task, env) <= Most(k, config, routing)
    ensures w != Succeeded ==> RunSpent(w, k, config, routing, systemPrompt, task, FailedTool) == Most(k, config, routing)
  {
    var start, o := Initial(systemPrompt, task), OutlookOf(k, config, routing);
    if config.maxCost > 0.0 {
      TraceIsForeseen(k, config, routing, env, start, o, Trace(config, routing, env, start));
      CountAtMostWorst(w, k, Trace(config, routing, env, start), o, config.maxSteps, 0);
      if w != Succeeded {
        FailingSpendsWorst(w, k, config, routing, start);
      }
    }
  }

  /** The worst run in closed form. */
  lemma {:induction false} WorstInClosedForm(o: Outlook, steps: int, n: nat)
    ensures Worst(o, steps, n)
            == if o.always then Max(0, steps - n)
               else (if o.later then Max(0, steps - Max(n, o.after)) else 0)
                    + if o.first && n == 0 < steps && !(o.later && o.after <= 0) then 1 else 0
    decreases if n < steps then steps - n else 0
  {
    if n < steps {
      WorstInClosedForm(o, steps, n + 1);
    }
  }

  /** When the configured number of escalations bounds what runs attempt, exactly: nothing
      to escalate to, no steps left once the failures suffice, or no run at all. */
  predicate EscalationsFit(config: AgentConfig, routing: RoutingConfig) {
    || Strongest(config.models).None?
    || routing.maxEscalations <= 0
    || config.maxSteps - Max(0, routing.escalateAfter) <= routing.maxEscalations
    || config.maxCost <= 0.0
    || routing.budgetThreshold <= 0.0
  }

  lemma EscalationsFitIff(config: AgentConfig, routing: RoutingConfig)
    ensures Most(Escalation, config, routing) <= Max(0, routing.maxEscalations) <==> EscalationsFit(config, routing)
  {
    WorstInClosedForm(OutlookOf(Escalation, config, routing), config.maxSteps, 0);
  }

  /** The escalations a run attempts stay within `maxEscalations`, whatever its completions and
      tools do, if and only if the configuration fits; the budget itself bounds only what succeeds. */
  lemma EscalationsBoundedIff(config: AgentConfig, routing: RoutingConfig)
    ensures (forall systemPrompt: string, task: string, env: nat -> Turn ::
               RunSpent(Every, Escalation, config, routing, systemPrompt, task, env) <= Max(0, routing.maxEscalations))
            <==> EscalationsFit(config, routing)
  {
    EscalationsFitIff(config, routing);
    forall systemPrompt: string, task: string, env: nat -> Turn
      ensures RunSpent(Every, Escalation, config, routing, systemPrompt, task, env) <= Most(Escalation, config, routing)
    {
      FailingRunIsWorst(Every, Escalation, config, routing, systemPrompt, task, env);
    }
    FailingRunIsWorst(Every, Escalation, config, routing, "", "", FailedTool);
  }

  /** The same for the step results a run reports: failed tools leave results that name an
      escalation, so the report too exceeds the budget unless the configuration fits. */
  lemma EscalatedResultsBoundedIff(config: AgentConfig, routing: RoutingConfig)
    ensures (forall systemPrompt: string, task: string, env: nat -> Turn ::
               EscalatedResults(Finish(config, routing, env, Initial(systemPrompt, task)).stepResults) <= Max(0, routing.maxEscalations))
            <==> EscalationsFit(config, routing)
  {
    EscalationsFitIff(config, routing);
    forall systemPrompt: string, task: string, env: nat -> Turn
      ensures EscalatedResults(Finish(config, routing, env, Initial(systemPrompt, task)).stepResults) <= Most(Escalation, config, routing)
    {
      ResultsShowHeard(config, routing, env, Initial(systemPrompt, task));
      FailingRunIsWorst(Returned, Escalation, config, routing, systemPrompt, task, env);
    }
    ResultsShowHeard(config, routing, FailedTool, Initial("", ""));
    FailingRunIsWorst(Returned, Escalation, config, routing, "", "", FailedTool);
  }

  /** When `max(1, maxEscalations)` bounds the expensive models runs ask for, exactly. */
  predicate ExpenseFits(config: AgentConfig, routing: RoutingConfig) {
    || config.maxCost <= 0.0
    || (if IsExpensive(Steady(config, routing).tier) then config.maxSteps <= Max(1, routing.maxEscalations)
        else
          || !CanEscalate(config, routing)
          || config.maxSteps - Max(0, routing.escalateAfter)
             + (if routing.escalateAfter > 0 && HasTier(config.models, CAPABLE) then 1 else 0) <= routing.maxEscalations)
  }

  lemma ExpenseFitsIff(config: AgentConfig, routing: RoutingConfig)
    ensures Most(Expense, config, routing) <= Max(1, routing.maxEscalations) <==> ExpenseFits(config, routing)
  {
    WorstInClosedForm(OutlookOf(Expense, config, routing), config.maxSteps, 0);
  }

  /** The expensive models a run asks for stay within `max(1, maxEscalations)` in every run if and
      only if the configuration fits; a cheap steady state alone is not enough. */
  lemma ExpenseBoundedIff(config: AgentConfig, routing: RoutingConfig)
    ensures (forall systemPrompt: string, task: string, env: nat -> Turn ::
               RunSpent(Every, Expense, config, routing, systemPrompt, task, env) <= Max(1, routing.maxEscalations))
            <==> ExpenseFits(config, routing)
  {
    ExpenseFitsIff(config, routing);
    forall systemPrompt: string, task: string, env: nat -> Turn
      ensures RunSpent(Every, Expense, config, routing, systemPrompt, task, env) <= Most(Expense, config, routing)
    {
      FailingRunIsWorst(Every, Expense, config, routing, systemPrompt, task, env);
    }
    FailingRunIsWorst(Every, Expense, config, routing, "", "", FailedTool);
  }
}
