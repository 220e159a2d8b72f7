/**
 Aggregate agent metrics (meta/analysis.py, `compute_metrics`).

 The program walks the records once with a dozen accumulators.  `Summary` defines the
 same figures by counting and summing over the whole list, with no notion of "so
 far"; it does not depend on the order of the records.
 */
module Metrics {
  import opened Basics
  import opened Wrappers
  import opened Text

  datatype Record = Record(taskId: string, target: string, model: Option<string>, costUsd: Option<real>,
                           latencyMs: Option<real>, errorType: Option<string>, step: int)

  datatype AgentMetrics = AgentMetrics(
    totalTasks: nat, successfulTasks: nat, failedTasks: int, successRate: real, successRateByTier: map<string, real>,
    costPerSuccess: real, totalCost: real, unnecessaryEscalationRate: real, failureRateBeforeEscalation: real,
    avgSteps: real, avgLatency: real,
    modelCounts: map<string, nat>, errorCounts: map<string, nat>, targetCounts: map<string, nat>,
    rollbackByTier: map<string, real>)

  const NOTHING := AgentMetrics(0, 0, 0, 0.0, map[], 0.0, 0.0, 0.0, 0.0, 0.0, 0.0, map[], map[], map[], map[])

  // ----- reading one record

  function InferTier(modelName: string): string {
    var name := Lower(modelName);
    if Contains(name, "mini") || Contains(name, "fast") || Contains(name, "small") then "fast"
    else if Contains(name, "capable") || (Contains(name, "gpt-4o") && !Contains(name, "mini")) then "capable"
    else "fast"
  }

  function ModelOf(r: Record): string {
    if r.model.Some? && r.model.value != "" then r.model.value else "unknown"
  }

  function TierOf(r: Record): string { InferTier(ModelOf(r)) }

  predicate Failed(r: Record) { r.errorType.Some? && r.errorType.value != "" }

  function CostOf(r: Record): real { if r.costUsd.Some? then r.costUsd.value else 0.0 }

  predicate HasLatency(r: Record) { r.latencyMs.Some? && r.latencyMs.value != 0.0 }

  // ----- counting and summing

  /** What records can be grouped by. */
  datatype Field = Model | Target | Tier | Error | Task

  /** Only failed records have an error type. */
  function Key(f: Field, r: Record): Option<string> {
    match f
    case Model => Some(ModelOf(r))
    case Target => Some(r.target)
    case Tier => Some(TierOf(r))
    case Error => if Failed(r) then r.errorType else None
    case Task => Some(r.taskId)
  }

  /** What records can be asked. */
  datatype Query =
    | Any
    | KeyIs(field: Field, key: string)
    | TierSucceeded(tier: string)
    | Succeeded
    | Timed
    | FailedFast
    | InTier(inTier: string)
    | Routed(targets: set<string>)
    | Escalated(escTargets: set<string>)

  predicate Holds(q: Query, r: Record) {
    match q
    case Any => true
    case KeyIs(f, k) => Key(f, r) == Some(k)
    case TierSucceeded(t) => TierOf(r) == t && !Failed(r)
    case Succeeded => !Failed(r)
    case Timed => HasLatency(r)
    case FailedFast => Failed(r) && TierOf(r) == "fast"
    case InTier(t) => TierOf(r) == t
    case Routed(ts) => r.target in ts && TierOf(r) == "capable"
    case Escalated(ts) => r.target in ts && TierOf(r) == "capable" && r.step != 0
  }

  function Count(q: Query, rs: seq<Record>): nat {
    if rs == [] then 0 else Count(q, rs[..|rs| - 1]) + if Holds(q, rs[|rs| - 1]) then 1 else 0
  }

  datatype Measure = Cost | SuccessCost | LatencyMs

  function Value(m: Measure, r: Record): real {
    match m
    case Cost => CostOf(r)
    case SuccessCost => if Failed(r) then 0.0 else CostOf(r)
    case LatencyMs => if HasLatency(r) then r.latencyMs.value else 0.0
  }

  function Sum(m: Measure, rs: seq<Record>): real {
    if rs == [] then 0.0 else Sum(m, rs[..|rs| - 1]) + Value(m, rs[|rs| - 1])
  }

  /** The tasks with a record that answers yes. */
  function Tasks(q: Query, rs: seq<Record>): set<string> {
    if rs == [] then {} else Tasks(q, rs[..|rs| - 1]) + if Holds(q, rs[|rs| - 1]) then {rs[|rs| - 1].taskId} else {}
  }

  function Keys(f: Field, rs: seq<Record>): set<string> {
    if rs == [] then {} else Keys(f, rs[..|rs| - 1]) + One(Key(f, rs[|rs| - 1]))
  }

  function One(k: Option<string>): set<string> {
    if k.Some? then {k.value} else {}
  }

  function CountBy(f: Field, rs: seq<Record>): map<string, nat> {
    map k | k in Keys(f, rs) :: Count(KeyIs(f, k), rs)
  }

  function Ratio(part: real, whole: nat): real { if whole == 0 then 0.0 else part / whole as real }

  function RateByTier(rs: seq<Record>): map<string, real> {
    map t | t in Keys(Tier, rs) :: Ratio(Count(TierSucceeded(t), rs) as real, Count(KeyIs(Tier, t), rs))
  }

  /** The figures of the records, by counting and summing. */
  function Figures(rs: seq<Record>, targets: set<string>): AgentMetrics {
    var tasks, good := Tasks(Any, rs), Tasks(Succeeded, rs);
    AgentMetrics(
      |tasks|, |good|, |tasks| - |good|, Ratio(|good| as real, |tasks|),
      RateByTier(rs),
      Ratio(Sum(SuccessCost, rs), Count(Succeeded, rs)), Sum(Cost, rs),
      Ratio(Count(Escalated(targets), rs) as real, Count(Routed(targets), rs)),
      Ratio(|Tasks(FailedFast, rs) * Tasks(InTier("capable"), rs)| as real, |Tasks(InTier("fast"), rs)|),
      Ratio(|rs| as real, |tasks|), Ratio(Sum(LatencyMs, rs), Count(Timed, rs)),
      CountBy(Model, rs), CountBy(Error, rs), CountBy(Target, rs), map[])
  }

  /** Rollbacks per record of their tier; a tier without records counts as one. */
  function RollbackRates(rollbacks: seq<string>, rs: seq<Record>): map<string, real> {
    map t | t in rollbacks :: RollbackRate(multiset(rollbacks)[t], Count(KeyIs(Tier, t), rs))
  }

  function RollbackRate(rollbacks: nat, records: nat): real {
    rollbacks as real / (if records == 0 then 1 else records) as real
  }

  /** All figures: those of the records, and the rollbacks of their tiers. */
  function Summary(rs: seq<Record>, rollbacks: seq<string>, targets: set<string>): AgentMetrics {
    Figures(rs, targets).(rollbackByTier := if rs == [] then map[] else RollbackRates(rollbacks, rs))
  }

  // ----- order does not matter

  lemma {:induction false} CountConcat(q: Query, xs: seq<Record>, ys: seq<Record>)
    ensures Count(q, xs + ys) == Count(q, xs) + Count(q, ys)
    decreases |ys|
  {
    if ys == [] {
      assert xs + ys == xs;
    } else {
      assert (xs + ys)[..|xs + ys| - 1] == xs + ys[..|ys| - 1];
      CountConcat(q, xs, ys[..|ys| - 1]);
    }
  }

  lemma {:induction false} SumConcat(m: Measure, xs: seq<Record>, ys: seq<Record>)
    ensures Sum(m, xs + ys) == Sum(m, xs) + Sum(m, ys)
    decreases |ys|
  {
    if ys == [] {
      assert xs + ys == xs;
    } else {
      assert (xs + ys)[..|xs + ys| - 1] == xs + ys[..|ys| - 1];
      SumConcat(m, xs, ys[..|ys| - 1]);
    }
  }

  lemma SplitAt(rs: seq<Record>, i: nat)
    requires i < |rs|
    ensures rs == (rs[..i] + [rs[i]]) + rs[i + 1..]
    ensures multiset(rs[..i] + rs[i + 1..]) == multiset(rs) - multiset{rs[i]}
  {
  }

  lemma CountRemove(q: Query, rs: seq<Record>, i: nat)
    requires i < |rs|
    ensures Count(q, rs) == Count(q, rs[..i] + rs[i + 1..]) + if Holds(q, rs[i]) then 1 else 0
  {
    SplitAt(rs, i);
    CountConcat(q, rs[..i] + [rs[i]], rs[i + 1..]);
    CountConcat(q, rs[..i], [rs[i]]);
    CountConcat(q, rs[..i], rs[i + 1..]);
    assert [rs[i]][..0] == [];
  }

  lemma SumRemove(m: Measure, rs: seq<Record>, i: nat)
    requires i < |rs|
    ensures Sum(m, rs) == Sum(m, rs[..i] + rs[i + 1..]) + Value(m, rs[i])
  {
    SplitAt(rs, i);
    SumConcat(m, rs[..i] + [rs[i]], rs[i + 1..]);
    SumConcat(m, rs[..i], [rs[i]]);
    SumConcat(m, rs[..i], rs[i + 1..]);
    assert [rs[i]][..0] == [];
  }

  lemma {:induction false} CountAndSumOrderFree(q: Query, m: Measure, xs: seq<Record>, ys: seq<Record>)
    requires multiset(xs) == multiset(ys)
    ensures Count(q, xs) == Count(q, ys) && Sum(m, xs) == Sum(m, ys)
    decreases |xs|
  {
    if xs != [] {
      var i := MatchLast(xs, ys);
      CountAndSumOrderFree(q, m, xs[..|xs| - 1], ys[..i] + ys[i + 1..]);
      CountRemove(q, ys, i);
      SumRemove(m, ys, i);
    } else {
      assert |multiset(ys)| == 0;
    }
  }

  lemma MatchLast(xs: seq<Record>, ys: seq<Record>) returns (i: nat)
    requires multiset(xs) == multiset(ys) && xs != []
    ensures i < |ys| && ys[i] == xs[|xs| - 1]
    ensures multiset(xs[..|xs| - 1]) == multiset(ys[..i] + ys[i + 1..])
  {
    var last := xs[|xs| - 1];
    assert last in multiset(ys);
    i :| 0 <= i < |ys| && ys[i] == last;
    assert xs == xs[..|xs| - 1] + [last];
    SplitAt(ys, i);
  }

  lemma {:induction false} TasksMember(q: Query, rs: seq<Record>, t: string)
    ensures t in Tasks(q, rs) <==> exists r :: r in rs && r.taskId == t && Holds(q, r)
  {
    if rs != [] {
      TasksMember(q, rs[..|rs| - 1], t);
      assert rs == rs[..|rs| - 1] + [rs[|rs| - 1]];
    }
  }

  lemma {:induction false} KeysMember(f: Field, rs: seq<Record>, k: string)
    ensures k in Keys(f, rs) <==> exists r :: r in rs && Key(f, r) == Some(k)
  {
    if rs != [] {
      KeysMember(f, rs[..|rs| - 1], k);
      assert rs == rs[..|rs| - 1] + [rs[|rs| - 1]];
    }
  }

  lemma SetsOrderFree(q: Query, f: Field, xs: seq<Record>, ys: seq<Record>)
    requires multiset(xs) == multiset(ys)
    ensures Tasks(q, xs) == Tasks(q, ys) && Keys(f, xs) == Keys(f, ys) && |xs| == |ys|
  {
    assert forall r :: r in xs <==> r in multiset(xs);
    assert forall r :: r in ys <==> r in multiset(ys);
    assert |multiset(xs)| == |xs| && |multiset(ys)| == |ys|;
    forall t
      ensures t in Tasks(q, xs) <==> t in Tasks(q, ys)
      ensures t in Keys(f, xs) <==> t in Keys(f, ys)
    {
      TasksMember(q, xs, t);
      TasksMember(q, ys, t);
      KeysMember(f, xs, t);
      KeysMember(f, ys, t);
    }
  }

  lemma GroupsOrderFree(xs: seq<Record>, ys: seq<Record>, f: Field)
    requires multiset(xs) == multiset(ys)
    ensures CountBy(f, xs) == CountBy(f, ys)
  {
    SetsOrderFree(Any, f, xs, ys);
    forall k | k in Keys(f, xs)
      ensures Count(KeyIs(f, k), xs) == Count(KeyIs(f, k), ys)
    {
      CountAndSumOrderFree(KeyIs(f, k), Cost, xs, ys);
    }
  }

  lemma RatesOrderFree(xs: seq<Record>, ys: seq<Record>)
    requires multiset(xs) == multiset(ys)
    ensures RateByTier(xs) == RateByTier(ys)
  {
    SetsOrderFree(Any, Tier, xs, ys);
    forall t | t in Keys(Tier, xs)
      ensures Count(KeyIs(Tier, t), xs) == Count(KeyIs(Tier, t), ys)
      ensures Count(TierSucceeded(t), xs) == Count(TierSucceeded(t), ys)
    {
      CountAndSumOrderFree(KeyIs(Tier, t), Cost, xs, ys);
      CountAndSumOrderFree(TierSucceeded(t), Cost, xs, ys);
    }
  }

  lemma FiguresOrderFree(xs: seq<Record>, ys: seq<Record>, targets: set<string>)
    requires multiset(xs) == multiset(ys)
    ensures Figures(xs, targets) == Figures(ys, targets)
  {
    SetsOrderFree(Any, Tier, xs, ys);
    SetsOrderFree(Succeeded, Tier, xs, ys);
    SetsOrderFree(FailedFast, Tier, xs, ys);
    SetsOrderFree(InTier("capable"), Tier, xs, ys);
    SetsOrderFree(InTier("fast"), Tier, xs, ys);
    CountAndSumOrderFree(Succeeded, SuccessCost, xs, ys);
    CountAndSumOrderFree(Timed, LatencyMs, xs, ys);
    CountAndSumOrderFree(Escalated(targets), Cost, xs, ys);
    CountAndSumOrderFree(Routed(targets), Cost, xs, ys);
    GroupsOrderFree(xs, ys, Model);
    GroupsOrderFree(xs, ys, Error);
    GroupsOrderFree(xs, ys, Target);
    RatesOrderFree(xs, ys);
  }

  lemma RollbacksOrderFree(xs: seq<Record>, ys: seq<Record>, before: seq<string>, after: seq<string>)
    requires multiset(xs) == multiset(ys) && multiset(before) == multiset(after)
    ensures RollbackRates(before, xs) == RollbackRates(after, ys)
  {
    forall t
      ensures t in before <==> t in after
      ensures Count(KeyIs(Tier, t), xs) == Count(KeyIs(Tier, t), ys)
    {
      assert t in before <==> t in multiset(before);
      CountAndSumOrderFree(KeyIs(Tier, t), Cost, xs, ys);
    }
  }

  /** The metrics do not depend on the order in which records and rollbacks were logged. */
  lemma SummaryOrderFree(xs: seq<Record>, ys: seq<Record>, before: seq<string>, after: seq<string>, targets: set<string>)
    requires multiset(xs) == multiset(ys) && multiset(before) == multiset(after)
    ensures Summary(xs, before, targets) == Summary(ys, after, targets)
  {
    assert |multiset(xs)| == |xs| && |multiset(ys)| == |ys|;
    FiguresOrderFree(xs, ys, targets);
    RollbacksOrderFree(xs, ys, before, after);
  }

  // ----- totals and ranges

  ghost function Total(m: map<string, nat>, keys: set<string>): nat
    requires keys <= m.Keys
  {
    if keys == {} then 0
    else
      var k :| k in keys;
      m[k] + Total(m, keys - {k})
  }

  lemma {:induction false} TotalPick(m: map<string, nat>, keys: set<string>, k: string)
    requires keys <= m.Keys && k in keys
    ensures Total(m, keys) == m[k] + Total(m, keys - {k})
    decreases keys
  {
    var h :| h in keys && Total(m, keys) == m[h] + Total(m, keys - {h});
    if h != k {
      TotalPick(m, keys - {h}, k);
      TotalPick(m, keys - {k}, h);
      assert keys - {h} - {k} == keys - {k} - {h};
    }
  }

  /** Raising one entry by one raises the total by one. */
  lemma {:induction false} TotalBump(m: map<string, nat>, n: map<string, nat>, keys: set<string>, k: string)
    requires keys <= m.Keys && keys <= n.Keys
    requires forall h :: h in keys ==> n[h] == m[h] + if h == k then 1 else 0
    ensures Total(n, keys) == Total(m, keys) + if k in keys then 1 else 0
    decreases keys
  {
    if keys != {} {
      var h :| h in keys;
      TotalPick(m, keys, h);
      TotalPick(n, keys, h);
      TotalBump(m, n, keys - {h}, k);
    }
  }

  function Bump(m: map<string, nat>, k: string): map<string, nat> {
    m[k := (if k in m then m[k] else 0) + 1]
  }

  lemma {:induction false} CountZero(f: Field, k: string, rs: seq<Record>)
    ensures k in Keys(f, rs) <==> Count(KeyIs(f, k), rs) > 0
  {
    if rs != [] {
      CountZero(f, k, rs[..|rs| - 1]);
    }
  }

  lemma CountStep(f: Field, rs: seq<Record>, k: string)
    requires rs != []
    ensures var init, key := rs[..|rs| - 1], Key(f, rs[|rs| - 1]);
            && Count(KeyIs(f, k), rs) == Count(KeyIs(f, k), init) + (if key == Some(k) then 1 else 0)
            && (k !in Keys(f, init) ==> Count(KeyIs(f, k), init) == 0)
  {
    CountZero(f, k, rs[..|rs| - 1]);
  }

  /** One more record raises the count of its own key. */
  lemma CountByStep(f: Field, rs: seq<Record>)
    requires rs != []
    ensures var init, key := rs[..|rs| - 1], Key(f, rs[|rs| - 1]);
            CountBy(f, rs) == if key.Some? then Bump(CountBy(f, init), key.value) else CountBy(f, init)
  {
    var init, key := rs[..|rs| - 1], Key(f, rs[|rs| - 1]);
    var m, n := CountBy(f, init), CountBy(f, rs);
    var expected := if key.Some? then Bump(m, key.value) else m;
    assert n.Keys == expected.Keys;
    forall k | k in n
      ensures n[k] == expected[k]
    {
      CountStep(f, rs, k);
      assert n[k] == Count(KeyIs(f, k), rs);
      assert k in m ==> m[k] == Count(KeyIs(f, k), init);
    }
  }

  lemma TotalOfBump(m: map<string, nat>, k: string)
    ensures Total(Bump(m, k), Bump(m, k).Keys) == Total(m, m.Keys) + 1
  {
    var n := Bump(m, k);
    TotalPick(n, n.Keys, k);
    if k in m {
      TotalPick(m, m.Keys, k);
      TotalBump(m, n, m.Keys - {k}, k);
      assert n.Keys == m.Keys;
    } else {
      TotalBump(m, n, m.Keys, k);
      assert n.Keys - {k} == m.Keys;
    }
  }

  /** Every grouping accounts for every record that has the key: models, targets and tasks
      for all of them, error types for the failed ones. */
  lemma {:induction false} CountsAddUp(f: Field, rs: seq<Record>)
    ensures Total(CountBy(f, rs), CountBy(f, rs).Keys) == if f.Error? then |rs| - Count(Succeeded, rs) else |rs|
  {
    if rs != [] {
      var init, r := rs[..|rs| - 1], rs[|rs| - 1];
      CountsAddUp(f, init);
      CountByStep(f, rs);
      if Key(f, r).Some? {
        TotalOfBump(CountBy(f, init), Key(f, r).value);
      }
    }
  }

  lemma {:induction false} CountImplies(p: Query, q: Query, rs: seq<Record>)
    requires forall r :: Holds(p, r) ==> Holds(q, r)
    ensures Count(p, rs) <= Count(q, rs)
  {
    if rs != [] {
      CountImplies(p, q, rs[..|rs| - 1]);
    }
  }

  lemma {:induction false} TasksImply(p: Query, q: Query, rs: seq<Record>)
    requires forall r :: Holds(p, r) ==> Holds(q, r)
    ensures Tasks(p, rs) <= Tasks(q, rs)
  {
    if rs != [] {
      TasksImply(p, q, rs[..|rs| - 1]);
    }
  }

  lemma RatioInRange(part: nat, whole: nat)
    requires part <= whole
    ensures 0.0 <= Ratio(part as real, whole) <= 1.0
  {
    if whole > 0 {
      var q := part as real / whole as real;
      assert q * whole as real == part as real;
      assert (1.0 - q) * whole as real == whole as real - part as real;
    }
  }

  /** Successes and failures make up the tasks, and a task succeeds as soon as one of its
      records does. */
  lemma TasksAddUp(rs: seq<Record>, rollbacks: seq<string>, targets: set<string>)
    ensures var s := Summary(rs, rollbacks, targets);
            && s.successfulTasks + s.failedTasks == s.totalTasks && s.failedTasks >= 0
            && 0.0 <= s.successRate <= 1.0
    ensures forall t :: t in Tasks(Succeeded, rs) <==> exists r :: r in rs && r.taskId == t && !Failed(r)
    ensures forall t :: t in Tasks(Any, rs) <==> exists r :: r in rs && r.taskId == t
  {
    forall t
      ensures t in Tasks(Succeeded, rs) <==> exists r :: r in rs && r.taskId == t && !Failed(r)
      ensures t in Tasks(Any, rs) <==> exists r :: r in rs && r.taskId == t
    {
      TasksMember(Succeeded, rs, t);
      TasksMember(Any, rs, t);
    }
    TasksImply(Succeeded, Any, rs);
    SubsetSize(Tasks(Succeeded, rs), Tasks(Any, rs));
    RatioInRange(|Tasks(Succeeded, rs)|, |Tasks(Any, rs)|);
  }

  lemma TierRateInRange(rs: seq<Record>, t: string)
    ensures 0.0 <= Ratio(Count(TierSucceeded(t), rs) as real, Count(KeyIs(Tier, t), rs)) <= 1.0
  {
    CountImplies(TierSucceeded(t), KeyIs(Tier, t), rs);
    RatioInRange(Count(TierSucceeded(t), rs), Count(KeyIs(Tier, t), rs));
  }

  /** Every rate is a rate. */
  lemma RatesAreRates(rs: seq<Record>, rollbacks: seq<string>, targets: set<string>)
    ensures var s := Summary(rs, rollbacks, targets);
            && 0.0 <= s.unnecessaryEscalationRate <= 1.0
            && 0.0 <= s.failureRateBeforeEscalation <= 1.0
            && (forall t :: t in s.successRateByTier ==> 0.0 <= s.successRateByTier[t] <= 1.0)
  {
    CountImplies(Escalated(targets), Routed(targets), rs);
    RatioInRange(Count(Escalated(targets), rs), Count(Routed(targets), rs));
    TasksImply(FailedFast, InTier("fast"), rs);
    var lost, fast := Tasks(FailedFast, rs) * Tasks(InTier("capable"), rs), Tasks(InTier("fast"), rs);
    SubsetSize(lost, fast);
    RatioInRange(|lost|, |fast|);
    forall t | t in Keys(Tier, rs)
      ensures 0.0 <= Ratio(Count(TierSucceeded(t), rs) as real, Count(KeyIs(Tier, t), rs)) <= 1.0
    {
      TierRateInRange(rs, t);
    }
  }

  // ----- the program's accumulators

  function TotalOf(xs: seq<real>): real {
    if xs == [] then 0.0 else TotalOf(xs[..|xs| - 1]) + xs[|xs| - 1]
  }

  lemma Snoc(rs: seq<Record>, r: Record)
    ensures (rs + [r])[..|rs + [r]| - 1] == rs && (rs + [r])[|rs + [r]| - 1] == r
  {
  }

  // The running figures of the loop, in groups; each group is tied to the records so far.

  datatype Counts = Counts(models: map<string, nat>, targets: map<string, nat>, errors: map<string, nat>, steps: map<string, nat>,
                           tiers: map<string, nat>)

  datatype Outcomes = Outcomes(tierSuccess: map<string, seq<bool>>, taskOutcomes: map<string, bool>)

  datatype Costs = Costs(total: real, successful: seq<real>, latencies: seq<real>)

  datatype Routing = Routing(fastFailed: set<string>, hasCapable: set<string>, routedToFast: set<string>,
                             escalations: nat, decisions: nat)

  ghost predicate CountsHold(c: Counts, rs: seq<Record>) {
    c == Counts(CountBy(Model, rs), CountBy(Target, rs), CountBy(Error, rs), CountBy(Task, rs), CountBy(Tier, rs))
  }

  ghost predicate TiersHold(tierSuccess: map<string, seq<bool>>, rs: seq<Record>) {
    && tierSuccess.Keys == Keys(Tier, rs)
    && forall t :: t in tierSuccess ==>
         |tierSuccess[t]| == Count(KeyIs(Tier, t), rs) && Trues(tierSuccess[t]) == Count(TierSucceeded(t), rs)
  }

  ghost predicate TasksHold(taskOutcomes: map<string, bool>, rs: seq<Record>) {
    && taskOutcomes.Keys == Tasks(Any, rs)
    && forall t :: t in taskOutcomes ==> (taskOutcomes[t] <==> t in Tasks(Succeeded, rs))
  }

  ghost predicate LogHolds(log: seq<real>, m: Measure, q: Query, rs: seq<Record>) {
    TotalOf(log) == Sum(m, rs) && |log| == Count(q, rs)
  }

  ghost predicate CostsHold(c: Costs, rs: seq<Record>) {
    && c.total == Sum(Cost, rs)
    && LogHolds(c.successful, SuccessCost, Succeeded, rs)
    && LogHolds(c.latencies, LatencyMs, Timed, rs)
  }

  ghost predicate RoutingHolds(x: Routing, rs: seq<Record>, targets: set<string>) {
    x == Routing(Tasks(FailedFast, rs), Tasks(InTier("capable"), rs), Tasks(InTier("fast"), rs),
                 Count(Escalated(targets), rs), Count(Routed(targets), rs))
  }

  lemma OneMoreCount(f: Field, rs: seq<Record>, r: Record)
    ensures CountBy(f, rs + [r]) == if Key(f, r).Some? then Bump(CountBy(f, rs), Key(f, r).value) else CountBy(f, rs)
  {
    Snoc(rs, r);
    CountByStep(f, rs + [r]);
  }

  method CountRecord(counts: map<string, nat>, f: Field, r: Record, ghost rs: seq<Record>) returns (n: map<string, nat>)
    requires counts == CountBy(f, rs)
    ensures n == CountBy(f, rs + [r])
  {
    OneMoreCount(f, rs, r);
    var key := Key(f, r);
    n := if key.Some? then Bump(counts, key.value) else counts;
  }

  method AddCounts(c: Counts, r: Record, ghost rs: seq<Record>) returns (n: Counts)
    requires CountsHold(c, rs)
    ensures CountsHold(n, rs + [r])
  {
    var models := CountRecord(c.models, Model, r, rs);
    var targets := CountRecord(c.targets, Target, r, rs);
    var tiers := CountRecord(c.tiers, Tier, r, rs);
    var errors := CountRecord(c.errors, Error, r, rs);
    var steps := CountRecord(c.steps, Task, r, rs);
    n := Counts(models, targets, errors, steps, tiers);
  }

  method AddTier(tierSuccess: map<string, seq<bool>>, r: Record, ghost rs: seq<Record>) returns (n: map<string, seq<bool>>)
    requires TiersHold(tierSuccess, rs)
    ensures TiersHold(n, rs + [r])
  {
    Snoc(rs, r);
    var tier := TierOf(r);
    var soFar := if tier in tierSuccess then tierSuccess[tier] else [];
    CountZero(Tier, tier, rs);
    CountImplies(TierSucceeded(tier), KeyIs(Tier, tier), rs);
    assert (soFar + [!Failed(r)])[..|soFar|] == soFar;
    n := tierSuccess[tier := soFar + [!Failed(r)]];
  }

  method AddTask(taskOutcomes: map<string, bool>, r: Record, ghost rs: seq<Record>) returns (n: map<string, bool>)
    requires TasksHold(taskOutcomes, rs)
    ensures TasksHold(n, rs + [r])
  {
    Snoc(rs, r);
    TasksImply(Succeeded, Any, rs);
    n := taskOutcomes;
    if Failed(r) {
      if r.taskId !in n {
        n := n[r.taskId := false];
      }
    } else {
      n := n[r.taskId := true];
    }
  }

  lemma LogStep(log: seq<real>, m: Measure, q: Query, rs: seq<Record>, r: Record)
    requires LogHolds(log, m, q, rs) && (!Holds(q, r) ==> Value(m, r) == 0.0)
    ensures LogHolds(if Holds(q, r) then log + [Value(m, r)] else log, m, q, rs + [r])
  {
  }

  method AddCosts(c: Costs, r: Record, ghost rs: seq<Record>) returns (n: Costs)
    requires CostsHold(c, rs)
    ensures CostsHold(n, rs + [r])
  {
    Snoc(rs, r);
    LogStep(c.successful, SuccessCost, Succeeded, rs, r);
    LogStep(c.latencies, LatencyMs, Timed, rs, r);
    n := Costs(c.total + CostOf(r),
               if Failed(r) then c.successful else c.successful + [CostOf(r)],
               if HasLatency(r) then c.latencies + [r.latencyMs.value] else c.latencies);
  }

  method AddRouting(x: Routing, r: Record, targets: set<string>, ghost rs: seq<Record>) returns (n: Routing)
    requires RoutingHolds(x, rs, targets)
    ensures RoutingHolds(n, rs + [r], targets)
  {
    Snoc(rs, r);
    n := x;
    var tier := TierOf(r);
    if Failed(r) && tier == "fast" {
      n := n.(fastFailed := n.fastFailed + {r.taskId});
    }
    if tier == "fast" {
      n := n.(routedToFast := n.routedToFast + {r.taskId});
    }
    if tier == "capable" {
      n := n.(hasCapable := n.hasCapable + {r.taskId});
    }
    if r.target in targets && tier == "capable" {
      n := n.(decisions := n.decisions + 1);
      if r.step != 0 {
        n := n.(escalations := n.escalations + 1);
      }
    }
  }

  method SumValues(m: map<string, nat>) returns (total: nat)
    ensures total == Total(m, m.Keys)
  {
    total := 0;
    var todo := m.Keys;
    while todo != {}
      invariant todo <= m.Keys && total + Total(m, todo) == Total(m, m.Keys)
      decreases todo
    {
      var k :| k in todo;
      TotalPick(m, todo, k);
      total := total + m[k];
      todo := todo - {k};
    }
  }

  lemma {:induction false} TaskKeys(rs: seq<Record>)
    ensures Keys(Task, rs) == Tasks(Any, rs)
  {
    if rs != [] {
      TaskKeys(rs[..|rs| - 1]);
    }
  }

  /** What the loop knows after the records `rs`. */
  ghost predicate Absorbed(counts: Counts, outcomes: Outcomes, costs: Costs, routing: Routing, rs: seq<Record>, targets: set<string>) {
    && CountsHold(counts, rs) && CostsHold(costs, rs) && RoutingHolds(routing, rs, targets)
    && TiersHold(outcomes.tierSuccess, rs) && TasksHold(outcomes.taskOutcomes, rs)
  }

  method Absorb(counts: Counts, outcomes: Outcomes, costs: Costs, routing: Routing, r: Record, targets: set<string>,
                ghost rs: seq<Record>)
    returns (counts': Counts, outcomes': Outcomes, costs': Costs, routing': Routing)
    requires Absorbed(counts, outcomes, costs, routing, rs, targets)
    ensures Absorbed(counts', outcomes', costs', routing', rs + [r], targets)
  {
    counts' := AddCounts(counts, r, rs);
    costs' := AddCosts(costs, r, rs);
    var tasks := AddTask(outcomes.taskOutcomes, r, rs);
    var tiers := AddTier(outcomes.tierSuccess, r, rs);
    outcomes' := Outcomes(tiers, tasks);
    routing' := AddRouting(routing, r, targets, rs);
  }

  method Accumulate(records: seq<Record>, targets: set<string>)
    returns (counts: Counts, outcomes: Outcomes, costs: Costs, routing: Routing)
    ensures Absorbed(counts, outcomes, costs, routing, records, targets)
  {
    counts, outcomes := Counts(map[], map[], map[], map[], map[]), Outcomes(map[], map[]);
    costs, routing := Costs(0.0, [], []), Routing({}, {}, {}, 0, 0);
    ghost var seen: seq<Record> := [];
    NothingYet(targets);
    for i := 0 to |records|
      invariant seen == records[..i]
      invariant Absorbed(counts, outcomes, costs, routing, seen, targets)
    {
      counts, outcomes, costs, routing := Absorb(counts, outcomes, costs, routing, records[i], targets, seen);
      seen := seen + [records[i]];
    }
    assert seen == records;
  }

  /** Tallies the rollbacks, then divides by what was counted of each tier. */
  method DivideRollbacks(rollbacks: seq<Option<string>>, tierCounts: map<string, nat>, ghost records: seq<Record>)
    returns (rates: map<string, real>)
    requires tierCounts == CountBy(Tier, records)
    ensures rates == RollbackRates(TiersOf(rollbacks), records)
  {
    var tally := TallyRollbacks(rollbacks);
    rates := map[];
    var todo := tally.Keys;
    while todo != {}
      invariant todo <= tally.Keys && rates.Keys == tally.Keys - todo
      invariant forall t :: t in rates ==> rates[t] == RollbackRate(tally[t], Count(KeyIs(Tier, t), records))
      decreases todo
    {
      var t :| t in todo;
      CountZero(Tier, t, records);
      rates := rates[t := tally[t] as real / (if t in tierCounts then tierCounts[t] else 1) as real];
      todo := todo - {t};
    }
  }

  /** A rollback that names no tier counts as unknown. */
  function TierNamed(rollback: Option<string>): string { if rollback.Some? then rollback.value else "unknown" }

  function TiersOf(rollbacks: seq<Option<string>>): seq<string> {
    seq(|rollbacks|, i requires 0 <= i < |rollbacks| => TierNamed(rollbacks[i]))
  }

  function TallyOf(tiers: seq<string>): map<string, nat> {
    map t | t in tiers :: multiset(tiers)[t]
  }

  lemma TallyStep(tiers: seq<string>, tier: string)
    ensures TallyOf(tiers + [tier]) == Bump(TallyOf(tiers), tier)
  {
    var more := tiers + [tier];
    assert multiset(more) == multiset(tiers) + multiset{tier};
    assert tier in tiers <==> tier in multiset(tiers);
    assert forall t :: t in more <==> t in tiers || t == tier;
  }

  lemma OneMoreRollback(rollbacks: seq<Option<string>>, rollback: Option<string>)
    ensures TallyOf(TiersOf(rollbacks + [rollback])) == Bump(TallyOf(TiersOf(rollbacks)), TierNamed(rollback))
  {
    assert TiersOf(rollbacks + [rollback]) == TiersOf(rollbacks) + [TierNamed(rollback)];
    TallyStep(TiersOf(rollbacks), TierNamed(rollback));
  }

  method TallyRollbacks(rollbacks: seq<Option<string>>) returns (tally: map<string, nat>)
    ensures tally == TallyOf(TiersOf(rollbacks))
  {
    tally := map[];
    ghost var read: seq<Option<string>> := [];
    for i := 0 to |rollbacks|
      invariant read == rollbacks[..i] && tally == TallyOf(TiersOf(read))
    {
      OneMoreRollback(read, rollbacks[i]);
      tally := Bump(tally, TierNamed(rollbacks[i]));
      read := read + [rollbacks[i]];
    }
    assert read == rollbacks;
  }

  /** The program's metrics: one pass, then the ratios. */
  method ComputeMetrics(records: seq<Record>, rollbacks: seq<Option<string>>, primaryTargets: set<string>) returns (m: AgentMetrics)
    ensures m == Summary(records, TiersOf(rollbacks), primaryTargets)
  {
    if records == [] {
      FiguresOfNothing(primaryTargets);
      return NOTHING;
    }
    var counts, outcomes, costs, routing := Accumulate(records, primaryTargets);
    m := Finish(counts, outcomes, costs, routing, records, primaryTargets);
    var rates := DivideRollbacks(rollbacks, counts.tiers, records);
    m := m.(rollbackByTier := rates);
  }

  lemma FiguresOfNothing(targets: set<string>)
    ensures Figures([], targets) == NOTHING
  {
  }

  lemma NothingYet(targets: set<string>)
    ensures Absorbed(Counts(map[], map[], map[], map[], map[]), Outcomes(map[], map[]), Costs(0.0, [], []),
                     Routing({}, {}, {}, 0, 0), [], targets)
  {
  }

  /** The ratios at the end. */
  method Finish(counts: Counts, outcomes: Outcomes, costs: Costs, routing: Routing, ghost records: seq<Record>,
                ghost targets: set<string>) returns (m: AgentMetrics)
    requires Absorbed(counts, outcomes, costs, routing, records, targets)
    ensures m == Figures(records, targets)
  {
    var total, good := CountTasks(outcomes.taskOutcomes, records);
    var rates := TierRates(outcomes.tierSuccess, records);
    var steps := AverageSteps(counts.steps, records);
    m := AgentMetrics(
      total, good, total - good, Ratio(good as real, total), rates,
      Ratio(TotalOf(costs.successful), |costs.successful|), costs.total,
      Ratio(routing.escalations as real, routing.decisions),
      Ratio(|routing.fastFailed * routing.hasCapable| as real, |routing.routedToFast|),
      steps, Ratio(TotalOf(costs.latencies), |costs.latencies|), counts.models, counts.errors, counts.targets,
      map[]);
  }

  method CountTasks(taskOutcomes: map<string, bool>, ghost records: seq<Record>) returns (total: nat, good: nat)
    requires TasksHold(taskOutcomes, records)
    ensures total == |Tasks(Any, records)| && good == |Tasks(Succeeded, records)| && good <= total
  {
    TasksImply(Succeeded, Any, records);
    SubsetSize(Tasks(Succeeded, records), Tasks(Any, records));
    total := |taskOutcomes.Keys|;
    var goodTasks := set t | t in taskOutcomes && taskOutcomes[t];
    assert goodTasks == Tasks(Succeeded, records);
    good := |goodTasks|;
  }

  method TierRates(tierSuccess: map<string, seq<bool>>, ghost records: seq<Record>) returns (rates: map<string, real>)
    requires TiersHold(tierSuccess, records)
    ensures rates == RateByTier(records)
  {
    rates := map[];
    var todo := tierSuccess.Keys;
    while todo != {}
      invariant todo <= tierSuccess.Keys && rates.Keys == tierSuccess.Keys - todo
      invariant forall t :: t in rates ==> rates[t] == RateByTier(records)[t]
      decreases todo
    {
      var t :| t in todo;
      rates := rates[t := Ratio(Trues(tierSuccess[t]) as real, |tierSuccess[t]|)];
      todo := todo - {t};
    }
  }

  method AverageSteps(steps: map<string, nat>, ghost records: seq<Record>) returns (average: real)
    requires steps == CountBy(Task, records)
    ensures average == Ratio(|records| as real, |Tasks(Any, records)|)
  {
    var total := SumValues(steps);
    CountsAddUp(Task, records);
    TaskKeys(records);
    assert total == |records|;
    assert steps.Keys == Tasks(Any, records);
    average := Ratio(total as real, |steps.Keys|);
  }
}
