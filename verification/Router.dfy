/**
 Model routing (components/router.py): a priority tree over budget, user pin, retry,
 escalation, planning and the steady state.
 */
module Router {
  import opened Basics
  import opened Wrappers

  const FAST := "fast"
  const CAPABLE := "capable"
  const REASONING := "reasoning"
  const MIN_COST: real := 0.000000001

  datatype Profile = Profile(name: string, litellmId: string, tier: string)

  /** `registryFast` is the built-in fast profile used when no model is configured. */
  datatype AgentConfig = AgentConfig(models: seq<Profile>, maxSteps: int, maxCost: real, registryFast: Profile)

  datatype RoutingConfig = RoutingConfig(defaultModel: string, escalateAfter: int, maxEscalations: int, budgetThreshold: real)

  datatype Rule =
    | BudgetDowngrade
    | UserPinned(name: string)
    | RetryAfterBackoff
    | EscalateAfter(failures: int)
    | CapableForPlanning
    | SteadyStateFast

  /** The rule that decided, with the pin it could not honour, if any. */
  datatype Reason = Reason(rule: Rule, pinMiss: Option<string>)

  datatype Entry = Entry(step: int, model: string, tier: string, reason: Reason)

  datatype Choice = Choice(profile: Profile, reason: Reason)

  /** What a profile is looked up by. */
  datatype Wanted = Tier(tier: string) | Name(name: string)

  predicate Fits(m: Profile, want: Wanted) {
    match want case Tier(t) => m.tier == t case Name(n) => m.name == n
  }

  /** The first registered profile that fits. */
  function FirstFit(models: seq<Profile>, want: Wanted): (r: Option<Profile>)
    ensures r.Some? ==> r.value in models && Fits(r.value, want)
    ensures r.None? ==> forall m :: m in models ==> !Fits(m, want)
  {
    if models == [] then None
    else if Fits(models[0], want) then Some(models[0])
    else FirstFit(models[1..], want)
  }

  function PickByTier(models: seq<Profile>, tier: string): Option<Profile> { FirstFit(models, Tier(tier)) }

  function FindByName(models: seq<Profile>, name: string): Option<Profile> { FirstFit(models, Name(name)) }

  /** The user-pin lookup: an empty name pins nothing. */
  function PickByName(models: seq<Profile>, name: string): Option<Profile> {
    if name == "" then None else FindByName(models, name)
  }

  function FallbackProfile(config: AgentConfig, defaultName: string): Profile {
    if config.models == [] then
      if config.registryFast.name == defaultName then config.registryFast
      else config.registryFast.(name := defaultName, litellmId := "openai/" + defaultName)
    else
      var named := FindByName(config.models, defaultName);
      if named.Some? then named.value else config.models[0]
  }

  /** The name of the model used last, skipping entries that carry none. */
  function LastModel(history: seq<Entry>): string {
    if history == [] then ""
    else if history[|history| - 1].model != "" then history[|history| - 1].model
    else LastModel(history[..|history| - 1])
  }

  function SameModel(history: seq<Entry>, config: AgentConfig, defaultName: string): Profile {
    var last := FindByName(config.models, LastModel(history));
    if last.Some? then last.value else FallbackProfile(config, defaultName)
  }

  method SelectSameModel(history: seq<Entry>, config: AgentConfig, defaultName: string) returns (r: Profile)
    ensures r == SameModel(history, config, defaultName)
  {
    var lastName := "";
    var i := |history|;
    assert history[..|history|] == history;
    while i > 0 && lastName == ""
      invariant 0 <= i <= |history|
      invariant LastModel(history) == if lastName == "" then LastModel(history[..i]) else lastName
    {
      i := i - 1;
      assert history[..i + 1][..i] == history[..i];
      lastName := history[i].model;
    }
    for k := 0 to |config.models|
      invariant FindByName(config.models, lastName) == FindByName(config.models[k..], lastName)
    {
      if config.models[k].name == lastName {
        return config.models[k];
      }
    }
    return FallbackProfile(config, defaultName);
  }

  predicate IsExpensive(tier: string) { tier == CAPABLE || tier == REASONING }

  /** Capable and reasoning picks both count against the escalation budget. */
  function Expensive(history: seq<Entry>): nat {
    if history == [] then 0
    else Expensive(history[..|history| - 1]) + if IsExpensive(history[|history| - 1].tier) then 1 else 0
  }

  /** The steady-state choice: the fast tier, or whatever the configuration falls back to. */
  function Steady(config: AgentConfig, routing: RoutingConfig): Profile {
    var fast := PickByTier(config.models, FAST);
    if fast.Some? then fast.value else FallbackProfile(config, routing.defaultModel)
  }

  function Strongest(models: seq<Profile>): Option<Profile> {
    var reasoning := PickByTier(models, REASONING);
    if reasoning.Some? then reasoning else PickByTier(models, CAPABLE)
  }

  predicate OverBudget(totalCost: real, config: AgentConfig, routing: RoutingConfig) {
    totalCost / (if config.maxCost > MIN_COST then config.maxCost else MIN_COST) >= routing.budgetThreshold
  }

  function SelectModel(stepCount: nat, consecutiveErrors: nat, lastErrorType: string, totalCost: real,
                       history: seq<Entry>, config: AgentConfig, routing: RoutingConfig, pinned: string): Choice
  {
    if OverBudget(totalCost, config, routing) then Choice(Steady(config, routing), Reason(BudgetDowngrade, None))
    else
      var pin := PickByName(config.models, pinned);
      if pin.Some? then Choice(pin.value, Reason(UserPinned(pinned), None))
      else
        var miss := if pinned == "" then None else Some(pinned);
        if lastErrorType == "retryable" then
          Choice(SameModel(history, config, routing.defaultModel), Reason(RetryAfterBackoff, miss))
        else if consecutiveErrors >= routing.escalateAfter && Expensive(history) < routing.maxEscalations
                && Strongest(config.models).Some? then
          Choice(Strongest(config.models).value, Reason(EscalateAfter(consecutiveErrors), miss))
        else if stepCount == 0 && PickByTier(config.models, CAPABLE).Some? then
          Choice(PickByTier(config.models, CAPABLE).value, Reason(CapableForPlanning, miss))
        else Choice(Steady(config, routing), Reason(SteadyStateFast, miss))
  }

  predicate Named(models: seq<Profile>, name: string) { exists m :: m in models && m.name == name }

  predicate HasTier(models: seq<Profile>, tier: string) { exists m :: m in models && m.tier == tier }

  /** The decision tree, read as conditions on its inputs.  The cost cap outranks everything, a pin included; below it a
      registered pin is honoured and a missing one is reported; then come the retry, the
      escalation within its budget, the planning step and the steady state. */
  lemma RulesArePrioritized(stepCount: nat, consecutiveErrors: nat, lastErrorType: string, totalCost: real,
                            history: seq<Entry>, config: AgentConfig, routing: RoutingConfig, pinned: string)
    ensures var cap := if config.maxCost > MIN_COST then config.maxCost else MIN_COST;
            var models := config.models;
            var reason := SelectModel(stepCount, consecutiveErrors, lastErrorType, totalCost, history, config, routing, pinned).reason;
            var capped := totalCost >= routing.budgetThreshold * cap;
            var pins := pinned != "" && Named(models, pinned);
            var escalates := && consecutiveErrors >= routing.escalateAfter && Expensive(history) < routing.maxEscalations
                             && (HasTier(models, REASONING) || HasTier(models, CAPABLE));
            && (reason.rule.BudgetDowngrade? <==> capped)
            && (reason.rule.UserPinned? <==> !capped && pins)
            && (reason.pinMiss == Some(pinned) <==> !capped && !pins && pinned != "")
            && (reason.rule.RetryAfterBackoff? <==> !capped && !pins && lastErrorType == "retryable")
            && (reason.rule.EscalateAfter? <==> !capped && !pins && lastErrorType != "retryable" && escalates)
            && (reason.rule.CapableForPlanning? <==>
                  !capped && !pins && lastErrorType != "retryable" && !escalates && stepCount == 0 && HasTier(models, CAPABLE))
  {
    var cap := if config.maxCost > MIN_COST then config.maxCost else MIN_COST;
    var fraction := totalCost / cap;
    assert fraction * cap == totalCost;
    assert (fraction - routing.budgetThreshold) * cap == totalCost - routing.budgetThreshold * cap;
    SignTimes(fraction - routing.budgetThreshold, cap);
  }

  /** What the deciding rule promises of the model: the pinned one, the strongest tier there
      is, a capable one, the model used last, or a fast one; and it is registered, unless no
      model is. */
  lemma SelectionIsSound(stepCount: nat, consecutiveErrors: nat, lastErrorType: string, totalCost: real,
                         history: seq<Entry>, config: AgentConfig, routing: RoutingConfig, pinned: string)
    ensures var models := config.models;
            var c := SelectModel(stepCount, consecutiveErrors, lastErrorType, totalCost, history, config, routing, pinned);
            && (c.reason.rule.UserPinned? ==> c.profile.name == pinned)
            && (c.reason.rule.EscalateAfter? ==>
                  && IsExpensive(c.profile.tier) && Expensive(history) < routing.maxEscalations
                  && c.reason.rule.failures == consecutiveErrors >= routing.escalateAfter
                  && (c.profile.tier == CAPABLE ==> !HasTier(models, REASONING)))
            && (c.reason.rule.CapableForPlanning? ==> c.profile.tier == CAPABLE)
            && (c.reason.rule.RetryAfterBackoff? && Named(models, LastModel(history)) ==> c.profile.name == LastModel(history))
            && ((c.reason.rule.BudgetDowngrade? || c.reason.rule.SteadyStateFast?) && HasTier(models, FAST) ==> c.profile.tier == FAST)
            && (c.profile in models || models == [])
  {
  }
}
