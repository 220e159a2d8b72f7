/**
 The reflexion budget (components/reflexion.py, `decide_escalation` of
 components/router.py, and the nodes of orchestration/react_loop.py that use them).

 Critiques live in one append-only channel per thread, which many tasks share.  A
 terminal turn reads the critiques of its own task, decides, and may add one.
 */
module Reflexion {
  import opened Basics
  import opened Wrappers
  import opened StateReducers

  datatype Critique = Critique(taskId: string, attempt: nat, text: string)

  type Channel = seq<Item<int, Critique>>

  datatype Prose = ToolRepeat | ProseRepeat | NoRepeat

  /** One terminal turn on the thread; `stepId` is the thread's step counter at that moment. */
  datatype Turn = Turn(taskId: string, workflowId: string, verdict: string, prose: Prose, stepId: int, critique: string)

  datatype Budget = Budget(enabled: bool, maxAttempts: int)

  /** Only entries recorded under this very task; an empty task id scopes nothing. */
  function ReflectionsForTask(channel: Channel, taskId: string): Channel {
    if taskId == "" || channel == [] then []
    else ReflectionsForTask(channel[..|channel| - 1], taskId)
         + if channel[|channel| - 1].body.taskId == taskId then [channel[|channel| - 1]] else []
  }

  predicate DecideReentry(attempt: nat, maxAttempts: int, lastVerdict: string) {
    attempt < maxAttempts && (lastVerdict == "failed" || lastVerdict == "partial")
  }

  predicate DecideEscalation(goalVerdict: string, prose: Prose, attempt: nat, maxAttempts: int) {
    DecideReentry(attempt, maxAttempts, goalVerdict) || (attempt < maxAttempts && prose.ProseRepeat?)
  }

  /** The task id, or the workflow id when there is none. */
  function Scope(t: Turn): string { if t.taskId != "" then t.taskId else t.workflowId }

  function Attempt(channel: Channel, t: Turn): nat { |ReflectionsForTask(channel, Scope(t))| }

  predicate Reflects(budget: Budget, channel: Channel, t: Turn) {
    budget.enabled && DecideEscalation(t.verdict, t.prose, Attempt(channel, t), budget.maxAttempts)
  }

  function EntryOf(channel: Channel, t: Turn): Item<int, Critique> {
    Item(t.stepId, Critique(Scope(t), Attempt(channel, t), t.critique))
  }

  function Visit(budget: Budget, channel: Channel, t: Turn): Channel {
    if Reflects(budget, channel, t) then AppendList(channel, [EntryOf(channel, t)]) else channel
  }

  function Run(budget: Budget, turns: seq<Turn>): Channel {
    if turns == [] then [] else Visit(budget, Run(budget, turns[..|turns| - 1]), turns[|turns| - 1])
  }

  /** How often the turns of one scope re-entered the loop. */
  function Reentries(budget: Budget, turns: seq<Turn>, scope: string): nat {
    if turns == [] then 0
    else
      var init, t := turns[..|turns| - 1], turns[|turns| - 1];
      Reentries(budget, init, scope) + if Scope(t) == scope && Reflects(budget, Run(budget, init), t) then 1 else 0
  }

  function TurnsOf(turns: seq<Turn>, scope: string): seq<Turn> {
    if turns == [] then []
    else TurnsOf(turns[..|turns| - 1], scope) + if Scope(turns[|turns| - 1]) == scope then [turns[|turns| - 1]] else []
  }

  /** No two terminal turns find the same step counter. */
  predicate FreshSteps(turns: seq<Turn>) {
    forall i, j :: 0 <= i < j < |turns| ==> turns[i].stepId != turns[j].stepId
  }

  lemma AppendOne(channel: Channel, e: Item<int, Critique>)
    ensures AppendList(channel, [e]) == if e.id in Ids(channel) then channel else channel + [e]
  {
    var one := [e];
    assert one[..0] == [];
    assert Unseen(one, Ids(channel)) == if e.id in Ids(channel) then [] else one;
    assert channel + [] == channel;
  }

  lemma OwnAfterAppend(channel: Channel, e: Item<int, Critique>, scope: string)
    ensures ReflectionsForTask(channel + [e], scope)
            == if scope != "" && e.body.taskId == scope then ReflectionsForTask(channel, scope) + [e]
               else ReflectionsForTask(channel, scope)
  {
  }

  /** What one turn does to the critiques of a scope. */
  lemma VisitOwn(budget: Budget, channel: Channel, t: Turn, scope: string)
    ensures ReflectionsForTask(Visit(budget, channel, t), scope)
            == if Reflects(budget, channel, t) && t.stepId !in Ids(channel) && scope != "" && Scope(t) == scope
               then ReflectionsForTask(channel, scope) + [EntryOf(channel, t)]
               else ReflectionsForTask(channel, scope)
  {
    AppendOne(channel, EntryOf(channel, t));
    OwnAfterAppend(channel, EntryOf(channel, t), scope);
  }

  /** A re-entry moves its own task's counter, and no other, exactly when its step id is
      fresh and its scope is not empty; it happens only below the ceiling. */
  lemma ReentryCountsIffFresh(budget: Budget, channel: Channel, t: Turn, other: string)
    requires Reflects(budget, channel, t)
    ensures Attempt(channel, t) < budget.maxAttempts
    ensures var after := Visit(budget, channel, t);
            && (Attempt(after, t) == Attempt(channel, t) + 1 <==> t.stepId !in Ids(channel) && Scope(t) != "")
            && (Attempt(after, t) == Attempt(channel, t) <==> t.stepId in Ids(channel) || Scope(t) == "")
            && (other != Scope(t) ==> ReflectionsForTask(after, other) == ReflectionsForTask(channel, other))
  {
    VisitOwn(budget, channel, t, Scope(t));
    VisitOwn(budget, channel, t, other);
  }

  predicate Numbered(own: Channel, scope: string) {
    forall k :: 0 <= k < |own| ==> own[k].body.attempt == k && own[k].body.taskId == scope
  }

  /** However many tasks share the thread, a task never records more critiques than its
      budget, and they are numbered 0, 1, 2, ... in the order they were written. */
  lemma {:induction false} RecordedCritiquesAreBounded(budget: Budget, turns: seq<Turn>, scope: string)
    ensures var own := ReflectionsForTask(Run(budget, turns), scope);
            |own| <= Max(0, budget.maxAttempts) && Numbered(own, scope)
  {
    if turns != [] {
      var init, t := turns[..|turns| - 1], turns[|turns| - 1];
      RecordedCritiquesAreBounded(budget, init, scope);
      VisitOwn(budget, Run(budget, init), t, scope);
    }
  }

  lemma {:induction false} ChannelIdsAreSteps(budget: Budget, turns: seq<Turn>)
    ensures forall id :: id in Ids(Run(budget, turns)) ==> exists i :: 0 <= i < |turns| && turns[i].stepId == id
  {
    if turns != [] {
      var init, t := turns[..|turns| - 1], turns[|turns| - 1];
      ChannelIdsAreSteps(budget, init);
      AppendIds(Run(budget, init), [EntryOf(Run(budget, init), t)]);
      forall id | id in Ids(Run(budget, turns))
        ensures exists i :: 0 <= i < |turns| && turns[i].stepId == id
      {
        if id in Ids(Run(budget, init)) {
          var i :| 0 <= i < |init| && init[i].stepId == id;
          assert turns[i] == init[i];
        } else {
          assert turns[|turns| - 1].stepId == id;
        }
      }
    }
  }

  lemma LastStepIsFresh(budget: Budget, turns: seq<Turn>)
    requires turns != [] && FreshSteps(turns)
    ensures turns[|turns| - 1].stepId !in Ids(Run(budget, turns[..|turns| - 1]))
  {
    ChannelIdsAreSteps(budget, turns[..|turns| - 1]);
  }

  /** With fresh steps every re-entry is recorded, so the ceiling bounds the re-entries
      themselves: the loop cannot thrash. */
  lemma {:induction false} ReentriesAreRecorded(budget: Budget, turns: seq<Turn>, scope: string)
    requires FreshSteps(turns) && scope != ""
    ensures Reentries(budget, turns, scope) == |ReflectionsForTask(Run(budget, turns), scope)| <= Max(0, budget.maxAttempts)
  {
    RecordedCritiquesAreBounded(budget, turns, scope);
    if turns != [] {
      var init, t := turns[..|turns| - 1], turns[|turns| - 1];
      ReentriesAreRecorded(budget, init, scope);
      LastStepIsFresh(budget, turns);
      VisitOwn(budget, Run(budget, init), t, scope);
    }
  }

  lemma {:induction false} TurnsOfIsSelection(turns: seq<Turn>, scope: string)
    ensures forall t :: t in TurnsOf(turns, scope) ==> t in turns
  {
    if turns != [] {
      TurnsOfIsSelection(turns[..|turns| - 1], scope);
    }
  }

  lemma {:induction false} TurnsOfFresh(turns: seq<Turn>, scope: string)
    requires FreshSteps(turns)
    ensures FreshSteps(TurnsOf(turns, scope))
  {
    if turns != [] {
      var init, t := turns[..|turns| - 1], turns[|turns| - 1];
      TurnsOfFresh(init, scope);
      TurnsOfIsSelection(init, scope);
      var own := TurnsOf(init, scope);
      forall i | 0 <= i < |own|
        ensures own[i].stepId != t.stepId
      {
        assert own[i] in init;
      }
    }
  }

  /** Tasks do not see each other: a task's critiques are those of a thread that it has to
      itself. */
  lemma {:induction false} TasksDoNotInterfere(budget: Budget, turns: seq<Turn>, scope: string)
    requires FreshSteps(turns) && scope != ""
    ensures ReflectionsForTask(Run(budget, turns), scope) == ReflectionsForTask(Run(budget, TurnsOf(turns, scope)), scope)
  {
    if turns != [] {
      var init, t := turns[..|turns| - 1], turns[|turns| - 1];
      var channel, alone := Run(budget, init), Run(budget, TurnsOf(init, scope));
      TasksDoNotInterfere(budget, init, scope);
      LastStepIsFresh(budget, turns);
      VisitOwn(budget, channel, t, scope);
      if Scope(t) == scope {
        var own := TurnsOf(turns, scope);
        assert own[..|own| - 1] == TurnsOf(init, scope);
        TurnsOfFresh(turns, scope);
        LastStepIsFresh(budget, own);
        VisitOwn(budget, alone, t, scope);
      } else {
        assert TurnsOf(turns, scope) == TurnsOf(init, scope);
      }
    }
  }

  /** ... and so are its decisions. */
  lemma DecisionsDoNotInterfere(budget: Budget, turns: seq<Turn>, t: Turn)
    requires FreshSteps(turns) && Scope(t) != ""
    ensures Reflects(budget, Run(budget, turns), t) <==> Reflects(budget, Run(budget, TurnsOf(turns, Scope(t))), t)
  {
    TasksDoNotInterfere(budget, turns, Scope(t));
  }

  // ----- the step counter of the graph

  /** A terminal turn as the graph makes it: it comes from an evaluation, after `laps` evaluations
      that continued.  Every evaluation adds one to the thread's additive step counter, and a
      critique is written only after an evaluation. */
  datatype Ending = Ending(taskId: string, workflowId: string, verdict: string, prose: Prose, critique: string, laps: nat)

  function StepCount(endings: seq<Ending>): nat {
    if endings == [] then 0 else StepCount(endings[..|endings| - 1]) + endings[|endings| - 1].laps + 1
  }

  function Stamp(e: Ending, stepId: int): Turn { Turn(e.taskId, e.workflowId, e.verdict, e.prose, stepId, e.critique) }

  /** The terminal turns of a thread, each with the step counter it finds. */
  function Stamped(endings: seq<Ending>): seq<Turn> {
    if endings == [] then []
    else Stamped(endings[..|endings| - 1]) + [Stamp(endings[|endings| - 1], StepCount(endings))]
  }

  lemma {:induction false} StepsRise(endings: seq<Ending>)
    ensures |Stamped(endings)| == |endings|
    ensures forall i :: 0 <= i < |endings| ==> Stamped(endings)[i].stepId <= StepCount(endings)
    ensures forall i, j :: 0 <= i < j < |endings| ==> Stamped(endings)[i].stepId < Stamped(endings)[j].stepId
  {
    if endings != [] {
      StepsRise(endings[..|endings| - 1]);
    }
  }

  /** On every thread the graph can produce, no two critiques share a step id. */
  lemma GraphStepsAreFresh(endings: seq<Ending>)
    ensures FreshSteps(Stamped(endings))
  {
    StepsRise(endings);
  }

  /** A task on a thread shared with any others: its re-entries are recorded one by one and stay
      within the budget, and its critiques are those of a thread it has to itself. */
  lemma EveryThreadKeepsBudget(budget: Budget, endings: seq<Ending>, scope: string)
    requires scope != ""
    ensures var turns := Stamped(endings);
            && Reentries(budget, turns, scope) == |ReflectionsForTask(Run(budget, turns), scope)| <= Max(0, budget.maxAttempts)
            && ReflectionsForTask(Run(budget, turns), scope) == ReflectionsForTask(Run(budget, TurnsOf(turns, scope)), scope)
  {
    GraphStepsAreFresh(endings);
    ReentriesAreRecorded(budget, Stamped(endings), scope);
    TasksDoNotInterfere(budget, Stamped(endings), scope);
  }

  /** ... and so are its decisions. */
  lemma EveryThreadDecidesAlone(budget: Budget, endings: seq<Ending>, t: Turn)
    requires Scope(t) != ""
    ensures Reflects(budget, Run(budget, Stamped(endings)), t)
            <==> Reflects(budget, Run(budget, TurnsOf(Stamped(endings), Scope(t))), t)
  {
    GraphStepsAreFresh(endings);
    DecisionsDoNotInterfere(budget, Stamped(endings), t);
  }

  /** Failing turns without task or workflow id. */
  function Unscoped(n: nat): seq<Ending> {
    if n == 0 then [] else Unscoped(n - 1) + [Ending("", "", "failed", NoRepeat, "", 0)]
  }

  lemma {:induction false} UnscopedReenters(budget: Budget, n: nat)
    requires budget.enabled && budget.maxAttempts >= 1
    ensures Reentries(budget, Stamped(Unscoped(n)), "") == n
  {
    if n > 0 {
      UnscopedReenters(budget, n - 1);
      assert Unscoped(n)[..|Unscoped(n)| - 1] == Unscoped(n - 1);
      OneMoreTurn(budget, Stamped(Unscoped(n - 1)), Stamp(Ending("", "", "failed", NoRepeat, "", 0), StepCount(Unscoped(n))));
    }
  }

  /** The budget binds the re-entries of a scope, on every thread the graph can produce, exactly
      when the scope is not empty (or there is nothing to bind). */
  lemma BudgetBindsIff(budget: Budget, scope: string)
    ensures (forall endings :: Reentries(budget, Stamped(endings), scope) <= Max(0, budget.maxAttempts))
            <==> scope != "" || !budget.enabled || budget.maxAttempts <= 0
  {
    if scope != "" {
      forall endings
        ensures Reentries(budget, Stamped(endings), scope) <= Max(0, budget.maxAttempts)
      {
        EveryThreadKeepsBudget(budget, endings, scope);
      }
    } else if budget.enabled && budget.maxAttempts >= 1 {
      UnscopedReenters(budget, budget.maxAttempts + 1);
    } else {
      forall endings
        ensures Reentries(budget, Stamped(endings), scope) == 0
      {
        NothingToBind(budget, Stamped(endings), scope);
      }
    }
  }

  lemma {:induction false} NothingToBind(budget: Budget, turns: seq<Turn>, scope: string)
    requires !budget.enabled || budget.maxAttempts <= 0
    ensures Reentries(budget, turns, scope) == 0
  {
    if turns != [] {
      NothingToBind(budget, turns[..|turns| - 1], scope);
    }
  }

  // ----- why the reducer needs fresh ids

  /** The same failing turn over and over, at a step counter that stands still. */
  function Stuck(t: Turn, n: nat): seq<Turn> {
    if n == 0 then [] else Stuck(t, n - 1) + [t]
  }

  lemma StuckVisits(budget: Budget, t: Turn)
    requires budget.enabled && budget.maxAttempts >= 2 && Scope(t) != "" && t.verdict == "failed"
    ensures var e := EntryOf([], t);
            && Reflects(budget, [], t) && Reflects(budget, [e], t)
            && Visit(budget, [], t) == [e] == Visit(budget, [e], t)
  {
    var e := EntryOf([], t);
    AppendOne([], e);
    OwnAfterAppend([], e, Scope(t));
    assert [] + [e] == [e] && [e][..0] == [];
    assert Ids([e]) == {t.stepId};
    AppendOne([e], EntryOf([e], t));
  }

  lemma OneMoreTurn(budget: Budget, turns: seq<Turn>, t: Turn)
    ensures Run(budget, turns + [t]) == Visit(budget, Run(budget, turns), t)
    ensures Reentries(budget, turns + [t], Scope(t))
            == Reentries(budget, turns, Scope(t)) + if Reflects(budget, Run(budget, turns), t) then 1 else 0
  {
    assert (turns + [t])[..|turns|] == turns;
  }

  lemma StuckTurn(budget: Budget, t: Turn, turns: seq<Turn>, e: Item<int, Critique>)
    requires budget.enabled && budget.maxAttempts >= 2 && Scope(t) != "" && t.verdict == "failed"
    requires e == EntryOf([], t) && (Run(budget, turns) == [] || Run(budget, turns) == [e])
    ensures Run(budget, turns + [t]) == [e]
    ensures Reentries(budget, turns + [t], Scope(t)) == Reentries(budget, turns, Scope(t)) + 1
  {
    StuckVisits(budget, t);
    OneMoreTurn(budget, turns, t);
  }

  /** Fresh steps are needed (the graph provides them): were a step id to repeat, the reducer would
      drop every critique after the first, the counter stay at one, and the loop re-enter every time. */
  lemma {:induction false} StaleStepsBypassTheBudget(budget: Budget, t: Turn, n: nat)
    requires budget.enabled && budget.maxAttempts >= 2 && Scope(t) != "" && t.verdict == "failed"
    ensures Reentries(budget, Stuck(t, n), Scope(t)) == n
    ensures Run(budget, Stuck(t, n)) == if n == 0 then [] else [EntryOf([], t)]
  {
    if n > 0 {
      StaleStepsBypassTheBudget(budget, t, n - 1);
      StuckTurn(budget, t, Stuck(t, n - 1), EntryOf([], t));
    }
  }
}
