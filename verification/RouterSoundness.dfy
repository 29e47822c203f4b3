/** What it means for a specification to have no issues, and what follows for the router. */
module RouterSoundness {
  import opened Wrappers
  import opened RouterSpec
  import opened RouterChecks

  // ----- Acceptance without order -----

  predicate FieldOk(field: InputField, registries: Registries) {
    var entry := Get(registries.fields, (field.name, field.version));
    entry.Some? && entry.value.enabled && entry.value == FieldEntry(field.name, field.version, field.valueType, field.source, true)
  }

  predicate ContextOk(spec: Spec, registries: Registries) {
    NoRepeats(Names(spec.fields)) && forall field | field in spec.fields :: FieldOk(field, registries)
  }

  /** The router's own demands on a candidate's facts. */
  predicate Eligible(spec: Spec, facts: Facts) {
    && NoRepeats(facts.operations) && NoRepeats(facts.capabilities)
    && SetOf(spec.identity.operations) <= SetOf(facts.operations)
    && SetOf(spec.eligibility.capabilities) <= SetOf(facts.capabilities)
    && WindowOk(spec.eligibility, facts)
    && (spec.eligibility.providers == [] || facts.provider in spec.eligibility.providers)
    && (spec.eligibility.zones == [] || facts.zone in spec.eligibility.zones)
  }

  predicate CandidateOk(spec: Spec, registries: Registries, candidate: ModelRef) {
    Available(candidate, Get(registries.models, candidate)) && Eligible(spec, registries.models[candidate])
  }

  predicate PoolOk(spec: Spec, registries: Registries) {
    && NoRepeats(spec.eligibility.capabilities) && NoRepeats(spec.eligibility.providers) && NoRepeats(spec.eligibility.zones)
    && (forall candidate | candidate in spec.candidates :: CandidateOk(spec, registries, candidate))
    && (forall a, b | a in spec.candidates && b in spec.candidates && a != b ::
          registries.models[a].logicalKey != registries.models[b].logicalKey)
  }

  predicate ConditionOk(spec: Spec, registries: Registries, condition: Predicate) {
    exists field | field in spec.fields ::
      && field.name == condition.field && FieldOk(field, registries) && PredicateOk(condition, field.valueType)
  }

  predicate ActionOk(spec: Spec, registries: Registries, action: Action) {
    match action
    case SelectModel(model) => model in CandidateSet(spec)
    case ExcludeModels(models) => NoRepeats(models) && SetOf(models) <= CandidateSet(spec)
    case UseProfile(profile) => ProfileOk(profile, registries)
  }

  predicate RulesOk(spec: Spec, registries: Registries) {
    && NoRepeats(RuleIds(spec.rules))
    && forall rule | rule in spec.rules ::
         ConditionOk(spec, registries, rule.condition) && ActionOk(spec, registries, rule.action)
  }

  predicate ExactlyOnce(models: seq<string>, pool: set<string>) {
    NoRepeats(models) && SetOf(models) == pool
  }

  predicate AtMostOnce(models: seq<string>, pool: set<string>) {
    NoRepeats(models) && SetOf(models) <= pool
  }

  predicate RoutingOk(spec: Spec, registries: Registries, routing: ModelRef) {
    && Available(routing, Get(registries.models, routing))
    && SetOf(spec.identity.operations) <= SetOf(registries.models[routing].operations)
    && "semantic_routing" in registries.models[routing].capabilities
  }

  predicate FoundryOk(spec: Spec, registries: Registries, models: seq<string>) {
    forall candidate | candidate in spec.candidates && candidate.id in models ::
      candidate in registries.models ==> registries.models[candidate].foundryEligible
  }

  predicate SelectorOk(spec: Spec, registries: Registries) {
    var pool := CandidateSet(spec);
    match spec.selector
    case Priority(order) => ExactlyOnce(order, pool)
    case Weighted(allocations) => ExactlyOnce(AllocatedModels(allocations), pool) && BasisPoints(allocations) == 10000
    case Qos(profile) => ProfileOk(profile, registries)
    case Semantic(routing, _, models) =>
      AtMostOnce(models, pool) && RoutingOk(spec, registries, routing) && FoundryOk(spec, registries, models)
    case Custom(routing, evaluation, models) =>
      AtMostOnce(models, pool) && RoutingOk(spec, registries, routing)
      && EvaluationOk(spec.selector, Get(registries.evaluations, evaluation))
  }

  predicate ResilienceOk(spec: Spec) {
    var retry, fallback := spec.resilience.retry, spec.resilience.fallback;
    && NoRepeats(retry.events) && NoRepeats(fallback.events)
    && AtMostOnce(fallback.order, CandidateSet(spec))
    && (fallback.order == [] <==> fallback.events == [])
    && (retry.maxAttempts == 1 ==> retry.events == [])
    && (retry.maxAttempts > 1 ==> retry.events != [])
    && (retry.respectRetryAfter ==> "rate_limit" in retry.events)
    && (if spec.identity.streaming == Disabled then !spec.resilience.failoverBeforeFirstByte
        else FailoverEnabled(spec.resilience) ==> spec.resilience.failoverBeforeFirstByte)
  }

  predicate PolicyOk(spec: Spec, registries: Registries) {
    if !spec.selector.Qos? then spec.policy.None?
    else
      && spec.policy.Some?
      && spec.policy.value.profile == spec.selector.profile && ProfileOk(spec.policy.value.profile, registries)
      && if spec.policy.value.staticPriority then ExactlyOnce(spec.policy.value.fallback, CandidateSet(spec))
         else spec.policy.value.fallback == []
  }

  predicate Accepted(spec: Spec, registries: Registries) {
    && NoRepeats(ModelIds(spec.candidates)) && NoRepeats(spec.identity.operations)
    && ContextOk(spec, registries) && PoolOk(spec, registries) && RulesOk(spec, registries)
    && SelectorOk(spec, registries) && ResilienceOk(spec) && PolicyOk(spec, registries)
  }

  // ----- No issues means accepted -----

  lemma {:induction false} EachIsEmpty(count: nat, check: nat -> seq<Issue>)
    ensures Each(count, check) == [] <==> forall i: nat | i < count :: check(i) == []
  {
    if count > 0 {
      EachIsEmpty(count - 1, check);
    }
  }

  lemma ContextIssuesAgree(spec: Spec, registries: Registries)
    ensures ContextIssues(spec, registries) == [] <==> ContextOk(spec, registries)
  {
    hide Each, NoRepeats, Get;
    var check := FieldCheck(spec.fields, registries);
    EachIsEmpty(|spec.fields|, check);
    forall i: nat | i < |spec.fields|
      ensures check(i) == [] <==> FieldOk(spec.fields[i], registries)
    {
    }
    if forall i: nat | i < |spec.fields| :: check(i) == [] {
      assert forall field | field in spec.fields :: FieldOk(field, registries);
    } else {
      var i: nat :| i < |spec.fields| && check(i) != [];
      assert spec.fields[i] in spec.fields;
    }
  }

  lemma CandidateIssuesAgree(spec: Spec, registries: Registries, i: nat)
    requires i < |spec.candidates|
    ensures CandidateCheck(spec, registries)(i) == [] <==> CandidateOk(spec, registries, spec.candidates[i])
  {
    hide NoRepeats, SetOf, WindowOk;
  }

  lemma {:induction false} LogicalKeysOfAvailable(candidates: seq<ModelRef>, models: map<ModelRef, Facts>)
    requires forall candidate | candidate in candidates :: Available(candidate, Get(models, candidate))
    ensures |LogicalKeys(candidates, models)| == |candidates|
    ensures forall i | 0 <= i < |candidates| ::
              candidates[i] in models && LogicalKeys(candidates, models)[i] == models[candidates[i]].logicalKey
  {
    if candidates != [] {
      LogicalKeysOfAvailable(candidates[..|candidates| - 1], models);
    }
  }

  /** Without repeated ids, distinct positions hold distinct candidates. */
  lemma IdsDistinguish(candidates: seq<ModelRef>)
    requires NoRepeats(ModelIds(candidates))
    ensures NoRepeats(candidates)
    ensures forall a, b | a in candidates && b in candidates && a.id == b.id :: a == b
  {
    forall i, j | 0 <= i < j < |candidates|
      ensures candidates[i].id != candidates[j].id
    {
      assert ModelIds(candidates)[i] == CandidateId(candidates[i]) && ModelIds(candidates)[j] == CandidateId(candidates[j]);
    }
  }

  lemma LogicalKeysAgree(spec: Spec, registries: Registries)
    requires NoRepeats(ModelIds(spec.candidates))
    requires forall candidate | candidate in spec.candidates ::
               candidate in registries.models && Available(candidate, Get(registries.models, candidate))
    ensures NoRepeats(LogicalKeys(spec.candidates, registries.models))
            <==> forall a, b | a in spec.candidates && b in spec.candidates && a != b ::
                   registries.models[a].logicalKey != registries.models[b].logicalKey
  {
    hide LogicalKeys;
    var keys := LogicalKeys(spec.candidates, registries.models);
    LogicalKeysOfAvailable(spec.candidates, registries.models);
    IdsDistinguish(spec.candidates);
    if NoRepeats(keys) {
      forall a, b | a in spec.candidates && b in spec.candidates && a != b
        ensures registries.models[a].logicalKey != registries.models[b].logicalKey
      {
        var i :| 0 <= i < |spec.candidates| && spec.candidates[i] == a;
        var j :| 0 <= j < |spec.candidates| && spec.candidates[j] == b;
        assert keys[i] != keys[j];
      }
    }
  }

  lemma PoolIssuesAgree(spec: Spec, registries: Registries)
    requires NoRepeats(ModelIds(spec.candidates))
    ensures PoolIssues(spec, registries) == [] <==> PoolOk(spec, registries)
  {
    hide Each, NoRepeats, CandidateCheck, Available, Eligible, LogicalKeys;
    var check := CandidateCheck(spec, registries);
    EachIsEmpty(|spec.candidates|, check);
    forall i: nat | i < |spec.candidates|
      ensures check(i) == [] <==> CandidateOk(spec, registries, spec.candidates[i])
    {
      CandidateIssuesAgree(spec, registries, i);
    }
    if forall candidate | candidate in spec.candidates :: CandidateOk(spec, registries, candidate) {
      forall candidate | candidate in spec.candidates
        ensures candidate in registries.models
      {
        AvailableIsKnown(candidate, registries.models);
      }
      LogicalKeysAgree(spec, registries);
    }
  }

  lemma {:induction false} DeclaredIs(fields: seq<InputField>, name: string)
    requires NoRepeats(Names(fields))
    ensures forall field | field in fields && field.name == name :: Declared(fields, name) == Some(field.version)
    ensures Declared(fields, name).Some? ==> exists field :: field in fields && field.name == name
  {
    if fields != [] {
      var rest, last := fields[..|fields| - 1], fields[|fields| - 1];
      assert Names(rest) == Names(fields)[..|fields| - 1];
      DeclaredIs(rest, name);
      assert fields == rest + [last];
      forall i | 0 <= i < |rest|
        ensures rest[i].name != last.name
      {
        assert Names(fields)[i] == FieldName(rest[i]) && Names(fields)[|fields| - 1] == FieldName(last);
      }
    }
  }

  lemma ConditionIssuesAgree(spec: Spec, registries: Registries, rule: Rule, index: nat)
    requires ContextOk(spec, registries)
    ensures ConditionIssues(spec, registries, rule, index) == [] <==> ConditionOk(spec, registries, rule.condition)
  {
    hide NoRepeats, PredicateOk, Declared;
    DeclaredIs(spec.fields, rule.condition.field);
  }

  lemma ActionIssuesAgree(spec: Spec, registries: Registries, action: Action, index: nat)
    ensures ActionIssues(spec, registries, action, index) == [] <==> ActionOk(spec, registries, action)
  {
    hide NoRepeats, ProfileOk, CandidateSet, Each;
    if action.ExcludeModels? {
      var place := Place("rules.action", Some(index));
      var check := OutsideCheck(action.models, CandidateSet(spec), place);
      EachIsEmpty(|action.models|, check);
      forall i: nat | i < |action.models|
        ensures check(i) == [] <==> action.models[i] in CandidateSet(spec)
      {
      }
      if forall i: nat | i < |action.models| :: check(i) == [] {
        assert SetOf(action.models) <= CandidateSet(spec);
      } else {
        var i: nat :| i < |action.models| && check(i) != [];
        assert action.models[i] in SetOf(action.models);
      }
    }
  }

  lemma RuleIssuesAgree(spec: Spec, registries: Registries)
    requires ContextOk(spec, registries)
    ensures RuleIssues(spec, registries) == [] <==> RulesOk(spec, registries)
  {
    hide Each, NoRepeats, ConditionIssues, ActionIssues, ConditionOk, ActionOk, ContextOk;
    var check := RuleCheck(spec, registries);
    EachIsEmpty(|spec.rules|, check);
    forall i: nat | i < |spec.rules|
      ensures check(i) == [] <==> ConditionOk(spec, registries, spec.rules[i].condition) && ActionOk(spec, registries, spec.rules[i].action)
    {
      ConditionIssuesAgree(spec, registries, spec.rules[i], i);
      ActionIssuesAgree(spec, registries, spec.rules[i].action, i);
    }
  }

  lemma {:induction false} FactsOfIs(candidates: seq<ModelRef>, models: map<ModelRef, Facts>, id: string)
    requires forall a, b | a in candidates && b in candidates && a.id == b.id :: a == b
    ensures forall candidate | candidate in candidates && candidate.id == id :: FactsOf(candidates, models, id) == Get(models, candidate)
    ensures FactsOf(candidates, models, id).Some? ==> exists candidate :: candidate in candidates && candidate.id == id
  {
    if candidates != [] {
      assert candidates == candidates[..|candidates| - 1] + [candidates[|candidates| - 1]];
      FactsOfIs(candidates[..|candidates| - 1], models, id);
    }
  }

  lemma FoundryIssuesAgree(spec: Spec, registries: Registries, models: seq<string>)
    requires NoRepeats(ModelIds(spec.candidates))
    ensures Each(|models|, EligibleCheck(spec, registries, models)) == [] <==> FoundryOk(spec, registries, models)
  {
    hide Each, NoRepeats, FactsOf;
    var check := EligibleCheck(spec, registries, models);
    EachIsEmpty(|models|, check);
    IdsDistinguish(spec.candidates);
    forall i: nat | i < |models|
      ensures check(i) == []
              <==> forall candidate | candidate in spec.candidates && candidate.id == models[i] ::
                     candidate in registries.models ==> registries.models[candidate].foundryEligible
    {
      FactsOfIs(spec.candidates, registries.models, models[i]);
    }
  }

  lemma SelectorIssuesAgree(spec: Spec, registries: Registries)
    requires NoRepeats(ModelIds(spec.candidates))
    ensures SelectorIssues(spec, registries) == [] <==> SelectorOk(spec, registries)
  {
    hide Each, NoRepeats, EvaluationOk, ProfileOk, CandidateSet, EligibleCheck, FoundryOk;
    if spec.selector.Semantic? {
      FoundryIssuesAgree(spec, registries, spec.selector.models);
    }
  }

  /** The compiler has no issues exactly with an accepted specification. */
  lemma NoIssuesMeansAccepted(spec: Spec, registries: Registries)
    ensures Issues(spec, registries) == [] <==> Accepted(spec, registries)
  {
    hide NoRepeats, ContextIssues, ContextOk, PoolIssues, PoolOk, RuleIssues, RulesOk, SelectorIssues, SelectorOk,
         ResilienceIssues, ResilienceOk, PolicyIssues, PolicyOk;
    ContextIssuesAgree(spec, registries);
    if ContextOk(spec, registries) {
      RuleIssuesAgree(spec, registries);
    }
    if NoRepeats(ModelIds(spec.candidates)) {
      PoolIssuesAgree(spec, registries);
      SelectorIssuesAgree(spec, registries);
    }
    ResilienceIssuesAgree(spec);
    PolicyIssuesAgree(spec, registries);
  }

  lemma ResilienceIssuesAgree(spec: Spec)
    ensures ResilienceIssues(spec) == [] <==> ResilienceOk(spec)
  {
    hide NoRepeats, CandidateSet;
  }

  lemma PolicyIssuesAgree(spec: Spec, registries: Registries)
    ensures PolicyIssues(spec, registries) == [] <==> PolicyOk(spec, registries)
  {
    hide NoRepeats, CandidateSet, ProfileOk;
  }

  // ----- What an accepted router does -----

  lemma {:induction false} SameElementsArePermutation<T>(a: seq<T>, b: seq<T>)
    requires NoRepeats(a) && NoRepeats(b) && SetOf(a) == SetOf(b)
    ensures multiset(a) == multiset(b)
  {
    forall value
      ensures multiset(a)[value] == multiset(b)[value]
    {
      CountOfDistinct(a, value);
      CountOfDistinct(b, value);
    }
  }

  lemma {:induction false} CountOfDistinct<T>(values: seq<T>, value: T)
    requires NoRepeats(values)
    ensures multiset(values)[value] == if value in SetOf(values) then 1 else 0
  {
    if values != [] {
      var rest, last := values[..|values| - 1], values[|values| - 1];
      assert values == rest + [last];
      CountOfDistinct(rest, value);
    }
  }

  /** Every order over all candidates is a permutation of them, and weights share out the whole. */
  lemma OrdersArePermutations(spec: Spec, registries: Registries)
    requires Accepted(spec, registries)
    ensures var ids := multiset(ModelIds(spec.candidates));
            && (spec.selector.Priority? ==> multiset(spec.selector.order) == ids)
            && (spec.selector.Weighted? ==>
                  multiset(AllocatedModels(spec.selector.allocations)) == ids && BasisPoints(spec.selector.allocations) == 10000)
            && (spec.policy.Some? && spec.policy.value.staticPriority ==> multiset(spec.policy.value.fallback) == ids)
  {
    hide NoRepeats, SetOf, ContextOk, PoolOk, RulesOk, ResilienceOk;
    var ids := ModelIds(spec.candidates);
    match spec.selector {
      case Priority(order) => SameElementsArePermutation(order, ids);
      case Weighted(allocations) => SameElementsArePermutation(AllocatedModels(allocations), ids);
      case Qos(_) =>
        if spec.policy.value.staticPriority {
          SameElementsArePermutation(spec.policy.value.fallback, ids);
        }
      case _ =>
    }
  }

  /** The models that a router may name anywhere. */
  function NamedModels(spec: Spec): set<string> {
    (set rule | rule in spec.rules && rule.action.SelectModel? :: rule.action.model)
    + (set rule, model | rule in spec.rules && rule.action.ExcludeModels? && model in rule.action.models :: model)
    + SetOf(spec.resilience.fallback.order)
    + (match spec.selector
       case Priority(order) => SetOf(order)
       case Weighted(allocations) => SetOf(AllocatedModels(allocations))
       case Qos(_) => {}
       case Semantic(_, _, models) => SetOf(models)
       case Custom(_, _, models) => SetOf(models))
    + (if spec.policy.Some? then SetOf(spec.policy.value.fallback) else {})
  }

  /** Every model that an accepted router names is a candidate. */
  lemma NamesOnlyCandidates(spec: Spec, registries: Registries)
    requires Accepted(spec, registries)
    ensures NamedModels(spec) <= CandidateSet(spec)
  {
    hide NoRepeats, ContextOk, PoolOk, ConditionOk, CandidateSet;
    forall rule | rule in spec.rules && rule.action.ExcludeModels?
      ensures forall model | model in rule.action.models :: model in CandidateSet(spec)
    {
      assert ActionOk(spec, registries, rule.action);
      assert forall model | model in rule.action.models :: model in SetOf(rule.action.models);
    }
  }

  /** Every candidate is enabled, meets every demand, and is the only one of its logical model. */
  lemma CandidatesAreEligible(spec: Spec, registries: Registries, candidate: ModelRef)
    requires Accepted(spec, registries) && candidate in spec.candidates
    ensures candidate in registries.models
    ensures var facts := registries.models[candidate];
            && facts.enabled && facts.id == candidate.id && facts.version == candidate.version && Eligible(spec, facts)
            && (forall other | other in spec.candidates && other != candidate ::
                  other.id != candidate.id && registries.models[other].logicalKey != facts.logicalKey)
  {
    hide Eligible, NoRepeats;
    IdsDistinguish(spec.candidates);
    assert CandidateOk(spec, registries, candidate);
  }
}
