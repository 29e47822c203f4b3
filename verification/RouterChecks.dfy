/** The checks of the router compiler, each of which appends to one list of issues. */
module RouterChecks {
  import opened Wrappers
  import opened RouterSpec

  datatype Code =
    | CandidateDuplicate | OperationDuplicate
    | ContextFieldDuplicate | ContextFieldUnregistered | ContextFieldContractMismatch
    | EligibilityCapabilityDuplicate | EligibilityProviderDuplicate | EligibilityDataZoneDuplicate
    | CandidateUnavailable | CandidateCatalogIdentityMismatch
    | CandidateOperationDuplicate | CandidateCapabilityDuplicate
    | CandidateOperationUnsupported | CandidateCapabilityMissing | CandidateContextTooSmall
    | CandidateProviderDisallowed | CandidateDataZoneDisallowed | CandidateLogicalModelDuplicate
    | RuleIdDuplicate | RuleContextUndeclared | RuleContextUnregistered | RulePredicateTypeMismatch
    | RuleActionModelOutsidePool | RuleActionModelDuplicate | ProfileUnavailable
    | SelectorModelDuplicate | SelectorCandidatesMismatch | SelectorModelOutsidePool | SelectorWeightTotalInvalid
    | SelectorRoutingModelUnavailable | SelectorRoutingModelIdentityMismatch
    | SelectorRoutingModelOperationUnsupported | SelectorRoutingModelCapabilityMissing
    | SelectorCandidateNotFoundryEligible | SelectorEvaluationGateFailed
    | DeploymentRetryEventDuplicate | CrossModelEventDuplicate | CrossModelFallbackIncomplete
    | DeploymentRetryEventsInert | DeploymentRetryEventsMissing | RetryAfterInert
    | StreamingFallbackUnsafe | StreamingFailoverInert
    | QosPolicyMissing | QosProfileMismatch | QosFailClosedHasFallback | QosPolicyInert

  /** Where an issue lies: a part of the specification, and an index in it where there is one. */
  datatype Place = Place(part: string, index: Option<nat>)
  datatype Issue = Issue(code: Code, place: Place)

  function Part(name: string): Place {
    Place(name, None)
  }

  function Unless(valid: bool, code: Code, place: Place): seq<Issue> {
    if valid then [] else [Issue(code, place)]
  }

  /** The issues of the items before `count`, in their order. */
  function Each(count: nat, check: nat -> seq<Issue>): seq<Issue> {
    if count == 0 then [] else Each(count - 1, check) + check(count - 1)
  }

  lemma EachOneMore(count: nat, check: nat -> seq<Issue>, before: seq<Issue>, start: seq<Issue>)
    requires before == start + Each(count, check)
    ensures before + check(count) == start + Each(count + 1, check)
  {
  }

  lemma EachOfNone(check: nat -> seq<Issue>, start: seq<Issue>)
    ensures start == start + Each(0, check)
  {
  }

  // ----- Context -----

  function FieldIssues(field: InputField, entry: Option<FieldEntry>, index: nat): seq<Issue> {
    var place := Place("input_contract", Some(index));
    if entry.None? || !entry.value.enabled then [Issue(ContextFieldUnregistered, place)]
    else Unless(entry.value.name == field.name && entry.value.version == field.version
                && entry.value.valueType == field.valueType && entry.value.source == field.source,
                ContextFieldContractMismatch, place)
  }

  function FieldCheck(fields: seq<InputField>, registries: Registries): nat -> seq<Issue> {
    (i: nat) => if i < |fields| then FieldIssues(fields[i], Get(registries.fields, (fields[i].name, fields[i].version)), i) else []
  }

  function ContextIssues(spec: Spec, registries: Registries): seq<Issue> {
    Unless(NoRepeats(Names(spec.fields)), ContextFieldDuplicate, Part("input_contract"))
    + Each(|spec.fields|, FieldCheck(spec.fields, registries))
  }

  // ----- Candidates -----

  /** The entry that a candidate refers to, if it is enabled and carries the candidate's identity. */
  predicate Available(candidate: ModelRef, facts: Option<Facts>) {
    facts.Some? && facts.value.enabled && facts.value.id == candidate.id && facts.value.version == candidate.version
  }

  predicate WindowOk(eligibility: Eligibility, facts: Facts) {
    eligibility.window.Some? ==> facts.window.Some? && facts.window.value >= eligibility.window.value
  }

  function CandidateIssues(spec: Spec, candidate: ModelRef, facts: Option<Facts>, index: nat): seq<Issue> {
    var place := Place("candidate_pool.candidates", Some(index));
    if facts.None? || !facts.value.enabled then [Issue(CandidateUnavailable, place)]
    else if !Available(candidate, facts) then [Issue(CandidateCatalogIdentityMismatch, place)]
    else
      Unless(NoRepeats(facts.value.operations), CandidateOperationDuplicate, place)
      + Unless(NoRepeats(facts.value.capabilities), CandidateCapabilityDuplicate, place)
      + Unless(SetOf(spec.identity.operations) <= SetOf(facts.value.operations), CandidateOperationUnsupported, place)
      + Unless(SetOf(spec.eligibility.capabilities) <= SetOf(facts.value.capabilities), CandidateCapabilityMissing, place)
      + Unless(WindowOk(spec.eligibility, facts.value), CandidateContextTooSmall, place)
      + Unless(spec.eligibility.providers == [] || facts.value.provider in spec.eligibility.providers,
               CandidateProviderDisallowed, place)
      + Unless(spec.eligibility.zones == [] || facts.value.zone in spec.eligibility.zones, CandidateDataZoneDisallowed, place)
  }

  function CandidateCheck(spec: Spec, registries: Registries): nat -> seq<Issue> {
    (i: nat) => if i < |spec.candidates| then CandidateIssues(spec, spec.candidates[i], Get(registries.models, spec.candidates[i]), i)
         else []
  }

  /** The logical models of the available candidates. */
  function LogicalKeys(candidates: seq<ModelRef>, models: map<ModelRef, Facts>): seq<string> {
    if candidates == [] then []
    else
      var last := candidates[|candidates| - 1];
      LogicalKeys(candidates[..|candidates| - 1], models)
      + if Available(last, Get(models, last)) then [models[last].logicalKey] else []
  }

  function PoolIssues(spec: Spec, registries: Registries): seq<Issue> {
    Unless(NoRepeats(spec.eligibility.capabilities), EligibilityCapabilityDuplicate, Part("eligibility.required_capabilities"))
    + Unless(NoRepeats(spec.eligibility.providers), EligibilityProviderDuplicate, Part("eligibility.allowed_provider_ids"))
    + Unless(NoRepeats(spec.eligibility.zones), EligibilityDataZoneDuplicate, Part("eligibility.allowed_data_zones"))
    + Each(|spec.candidates|, CandidateCheck(spec, registries))
    + Unless(NoRepeats(LogicalKeys(spec.candidates, registries.models)), CandidateLogicalModelDuplicate,
             Part("candidate_pool.candidates"))
  }

  // ----- Rules -----

  predicate ValueMatches(valueType: ValueType, value: Scalar) {
    match valueType
    case TextType => value.Text?
    case BooleanType => value.Truth?
    case IntegerType => value.Whole?
    case NumberType => value.Whole? || value.Decimal?
  }

  predicate PredicateOk(condition: Predicate, valueType: ValueType) {
    match condition.operator
    case Exists => condition.value.Missing?
    case In => condition.value.Many? && condition.value.scalars != []
               && forall value | value in condition.value.scalars :: ValueMatches(valueType, value)
    case Contains => valueType.TextType? && condition.value.One? && condition.value.scalar.Text?
    case Equals => condition.value.One? && ValueMatches(valueType, condition.value.scalar)
    case NotEquals => condition.value.One? && ValueMatches(valueType, condition.value.scalar)
    case _ => (valueType.IntegerType? || valueType.NumberType?)
              && condition.value.One? && (condition.value.scalar.Whole? || condition.value.scalar.Decimal?)
  }

  /** The version under which a field is declared; the last declaration counts. */
  function Declared(fields: seq<InputField>, name: string): Option<nat> {
    if fields == [] then None
    else if fields[|fields| - 1].name == name then Some(fields[|fields| - 1].version)
    else Declared(fields[..|fields| - 1], name)
  }

  function ConditionIssues(spec: Spec, registries: Registries, rule: Rule, index: nat): seq<Issue> {
    var version := Declared(spec.fields, rule.condition.field);
    if version.None? then [Issue(RuleContextUndeclared, Place("rules.predicate.field", Some(index)))]
    else
      var entry := Get(registries.fields, (rule.condition.field, version.value));
      if entry.None? || !entry.value.enabled then [Issue(RuleContextUnregistered, Place("rules.predicate.field", Some(index)))]
      else Unless(PredicateOk(rule.condition, entry.value.valueType), RulePredicateTypeMismatch,
                  Place("rules.predicate.value", Some(index)))
  }

  predicate ProfileOk(profile: ProfileRef, registries: Registries) {
    var entry := Get(registries.profiles, profile);
    entry.Some? && entry.value.id == profile.id && entry.value.version == profile.version
    && entry.value.enabled && entry.value.kind == "qos"
  }

  function OutsideCheck(models: seq<string>, pool: set<string>, place: Place): nat -> seq<Issue> {
    (i: nat) => if i < |models| then Unless(models[i] in pool, RuleActionModelOutsidePool, place) else []
  }

  function ActionIssues(spec: Spec, registries: Registries, action: Action, index: nat): seq<Issue> {
    var place := Place("rules.action", Some(index));
    match action
    case SelectModel(model) => Unless(model in CandidateSet(spec), RuleActionModelOutsidePool, place)
    case ExcludeModels(models) =>
      Unless(NoRepeats(models), RuleActionModelDuplicate, Place("rules.action.model_ids", Some(index)))
      + Each(|models|, OutsideCheck(models, CandidateSet(spec), place))
    case UseProfile(profile) => Unless(ProfileOk(profile, registries), ProfileUnavailable, Place("rules.action.profile", Some(index)))
  }

  function RuleCheck(spec: Spec, registries: Registries): nat -> seq<Issue> {
    (i: nat) => if i < |spec.rules|
         then ConditionIssues(spec, registries, spec.rules[i], i) + ActionIssues(spec, registries, spec.rules[i].action, i)
         else []
  }

  function RuleIssues(spec: Spec, registries: Registries): seq<Issue> {
    Unless(NoRepeats(RuleIds(spec.rules)), RuleIdDuplicate, Part("rules"))
    + Each(|spec.rules|, RuleCheck(spec, registries))
  }

  // ----- Selector -----

  function ExactIssues(models: seq<string>, pool: set<string>, place: Place): seq<Issue> {
    Unless(NoRepeats(models), SelectorModelDuplicate, place)
    + Unless(SetOf(models) == pool, SelectorCandidatesMismatch, place)
  }

  function SubsetIssues(models: seq<string>, pool: set<string>, place: Place): seq<Issue> {
    Unless(NoRepeats(models), SelectorModelDuplicate, place)
    + Unless(SetOf(models) <= pool, SelectorModelOutsidePool, place)
  }

  function RoutingIssues(spec: Spec, routing: ModelRef, facts: Option<Facts>): seq<Issue> {
    var place := Part("selector.routing_model");
    if facts.None? || !facts.value.enabled then [Issue(SelectorRoutingModelUnavailable, place)]
    else if !Available(routing, facts) then [Issue(SelectorRoutingModelIdentityMismatch, place)]
    else if !(SetOf(spec.identity.operations) <= SetOf(facts.value.operations))
      then [Issue(SelectorRoutingModelOperationUnsupported, place)]
    else Unless("semantic_routing" in facts.value.capabilities, SelectorRoutingModelCapabilityMissing, place)
  }

  /** The facts of the candidate with an id; the last such candidate counts. */
  function FactsOf(candidates: seq<ModelRef>, models: map<ModelRef, Facts>, id: string): Option<Facts> {
    if candidates == [] then None
    else
      var last := candidates[|candidates| - 1];
      if last.id == id then Get(models, last) else FactsOf(candidates[..|candidates| - 1], models, id)
  }

  function EligibleCheck(spec: Spec, registries: Registries, models: seq<string>): nat -> seq<Issue> {
    (i: nat) => if i < |models| then
           var facts := FactsOf(spec.candidates, registries.models, models[i]);
           Unless(facts.None? || facts.value.foundryEligible, SelectorCandidateNotFoundryEligible, Part("selector.model_ids"))
         else []
  }

  predicate EvaluationOk(selector: Selector, evaluation: Option<Evaluation>)
    requires selector.Custom?
  {
    evaluation.Some? && evaluation.value.id == selector.evaluation && evaluation.value.routing == selector.routing
    && evaluation.value.passed && evaluation.value.enabled
    && SetOf(selector.models) <= SetOf(evaluation.value.models) && NoRepeats(evaluation.value.models)
  }

  function SelectorIssues(spec: Spec, registries: Registries): seq<Issue> {
    var pool := CandidateSet(spec);
    match spec.selector
    case Priority(order) => ExactIssues(order, pool, Part("selector.model_order"))
    case Weighted(allocations) =>
      ExactIssues(AllocatedModels(allocations), pool, Part("selector.allocations"))
      + Unless(BasisPoints(allocations) == 10000, SelectorWeightTotalInvalid, Part("selector.allocations"))
    case Qos(profile) => Unless(ProfileOk(profile, registries), ProfileUnavailable, Part("selector.profile"))
    case Semantic(routing, _, models) =>
      SubsetIssues(models, pool, Part("selector.model_ids"))
      + RoutingIssues(spec, routing, Get(registries.models, routing))
      + Each(|models|, EligibleCheck(spec, registries, models))
    case Custom(routing, evaluation, models) =>
      SubsetIssues(models, pool, Part("selector.model_ids"))
      + RoutingIssues(spec, routing, Get(registries.models, routing))
      + Unless(EvaluationOk(spec.selector, Get(registries.evaluations, evaluation)), SelectorEvaluationGateFailed,
               Part("selector.evaluation_id"))
  }

  // ----- Resilience and policy -----

  predicate FailoverEnabled(resilience: Resilience) {
    (resilience.retry.maxAttempts > 1 && resilience.retry.events != []) || resilience.fallback.events != []
  }

  function ResilienceIssues(spec: Spec): seq<Issue> {
    EventIssues(spec) + RetryIssues(spec.resilience.retry) + StreamingIssues(spec)
  }

  function EventIssues(spec: Spec): seq<Issue> {
    var retry, fallback := spec.resilience.retry, spec.resilience.fallback;
    Unless(NoRepeats(retry.events), DeploymentRetryEventDuplicate, Part("resilience.equivalent_deployment_retry.retryable_events"))
    + Unless(NoRepeats(fallback.events), CrossModelEventDuplicate, Part("resilience.cross_model_fallback.retryable_events"))
    + SubsetIssues(fallback.order, CandidateSet(spec), Part("resilience.cross_model_fallback.model_order"))
    + Unless((fallback.order == []) == (fallback.events == []), CrossModelFallbackIncomplete, Part("resilience.cross_model_fallback"))
  }

  function RetryIssues(retry: Retry): seq<Issue> {
    var events := Part("resilience.equivalent_deployment_retry.retryable_events");
    Unless(retry.maxAttempts != 1 || retry.events == [], DeploymentRetryEventsInert, events)
    + Unless(retry.maxAttempts <= 1 || retry.events != [], DeploymentRetryEventsMissing, events)
    + Unless(!retry.respectRetryAfter || "rate_limit" in retry.events, RetryAfterInert,
             Part("resilience.equivalent_deployment_retry.respect_retry_after"))
  }

  function StreamingIssues(spec: Spec): seq<Issue> {
    var streaming := Part("resilience.streaming_failover");
    Unless(spec.identity.streaming == Disabled || !FailoverEnabled(spec.resilience) || spec.resilience.failoverBeforeFirstByte,
           StreamingFallbackUnsafe, streaming)
    + Unless(spec.identity.streaming != Disabled || !spec.resilience.failoverBeforeFirstByte, StreamingFailoverInert, streaming)
  }

  function PolicyIssues(spec: Spec, registries: Registries): seq<Issue> {
    if !spec.selector.Qos? then Unless(spec.policy.None?, QosPolicyInert, Part("qos_policy"))
    else if spec.policy.None? then [Issue(QosPolicyMissing, Part("qos_policy"))]
    else
      var policy := spec.policy.value;
      Unless(policy.profile == spec.selector.profile, QosProfileMismatch, Part("qos_policy.profile"))
      + Unless(ProfileOk(policy.profile, registries), ProfileUnavailable, Part("qos_policy.profile"))
      + if policy.staticPriority then ExactIssues(policy.fallback, CandidateSet(spec), Part("qos_policy.fallback_model_order"))
        else Unless(policy.fallback == [], QosFailClosedHasFallback, Part("qos_policy.fallback_model_order"))
  }

  /** Everything the compiler objects to, in the order in which it looks. */
  function Issues(spec: Spec, registries: Registries): seq<Issue> {
    Unless(NoRepeats(ModelIds(spec.candidates)), CandidateDuplicate, Part("candidate_pool.candidates"))
    + Unless(NoRepeats(spec.identity.operations), OperationDuplicate, Part("identity.supported_operations"))
    + ContextIssues(spec, registries)
    + PoolIssues(spec, registries)
    + RuleIssues(spec, registries)
    + SelectorIssues(spec, registries)
    + ResilienceIssues(spec)
    + PolicyIssues(spec, registries)
  }

  // ----- The checks as they run -----

  class IssueList {
    var issues: seq<Issue>

    constructor ()
      ensures issues == []
    {
      issues := [];
    }

    method Require(valid: bool, code: Code, place: Place)
      modifies this
      ensures issues == old(issues) + Unless(valid, code, place)
    {
      if !valid {
        issues := issues + [Issue(code, place)];
      }
    }

    method ValidateContext(spec: Spec, registries: Registries)
      modifies this
      ensures issues == old(issues) + ContextIssues(spec, registries)
    {
      hide Unless, FieldIssues, NoRepeats, Get, Each;
      Require(NoRepeats(Names(spec.fields)), ContextFieldDuplicate, Part("input_contract"));
      ghost var start := issues;
      ghost var check := FieldCheck(spec.fields, registries);
      EachOfNone(check, start);
      for i := 0 to |spec.fields|
        invariant issues == start + Each(i, check)
      {
        var field := spec.fields[i];
        EachOneMore(i, check, issues, start);
        issues := issues + FieldIssues(field, Get(registries.fields, (field.name, field.version)), i);
      }
    }

    method ValidateCandidates(spec: Spec, registries: Registries)
      modifies this
      ensures issues == old(issues) + PoolIssues(spec, registries)
    {
      hide Unless, NoRepeats, Each, CandidateCheck, LogicalKeys;
      Require(NoRepeats(spec.eligibility.capabilities), EligibilityCapabilityDuplicate, Part("eligibility.required_capabilities"));
      Require(NoRepeats(spec.eligibility.providers), EligibilityProviderDuplicate, Part("eligibility.allowed_provider_ids"));
      Require(NoRepeats(spec.eligibility.zones), EligibilityDataZoneDuplicate, Part("eligibility.allowed_data_zones"));
      var logical := ValidateEachCandidate(spec, registries);
      Require(NoRepeats(logical), CandidateLogicalModelDuplicate, Part("candidate_pool.candidates"));
    }

    method ValidateEachCandidate(spec: Spec, registries: Registries) returns (logical: seq<string>)
      modifies this
      ensures issues == old(issues) + Each(|spec.candidates|, CandidateCheck(spec, registries))
      ensures logical == LogicalKeys(spec.candidates, registries.models)
    {
      hide Each, CandidateIssues, Get, Available;
      ghost var check := CandidateCheck(spec, registries);
      EachOfNone(check, issues);
      logical := [];
      for i := 0 to |spec.candidates|
        invariant issues == old(issues) + Each(i, check)
        invariant logical == LogicalKeys(spec.candidates[..i], registries.models)
      {
        var candidate := spec.candidates[i];
        var facts := Get(registries.models, candidate);
        assert spec.candidates[..i+1][..i] == spec.candidates[..i];
        EachOneMore(i, check, issues, old(issues));
        issues := issues + CandidateIssues(spec, candidate, facts, i);
        if Available(candidate, facts) {
          AvailableIsKnown(candidate, registries.models);
          logical := logical + [registries.models[candidate].logicalKey];
        }
      }
      assert spec.candidates[..|spec.candidates|] == spec.candidates;
    }

    method ValidateRules(spec: Spec, registries: Registries)
      modifies this
      ensures issues == old(issues) + RuleIssues(spec, registries)
    {
      hide Unless, ConditionIssues, ActionIssues, NoRepeats, Each;
      Require(NoRepeats(RuleIds(spec.rules)), RuleIdDuplicate, Part("rules"));
      ghost var start := issues;
      ghost var check := RuleCheck(spec, registries);
      EachOfNone(check, start);
      for i := 0 to |spec.rules|
        invariant issues == start + Each(i, check)
      {
        EachOneMore(i, check, issues, start);
        ghost var before := issues;
        issues := issues + ConditionIssues(spec, registries, spec.rules[i], i);
        ValidateAction(spec, registries, spec.rules[i].action, i);
        assert issues == before + check(i);
      }
    }

    method ValidateAction(spec: Spec, registries: Registries, action: Action, index: nat)
      modifies this
      ensures issues == old(issues) + ActionIssues(spec, registries, action, index)
    {
      hide Unless, NoRepeats, ProfileOk, CandidateSet;
      var place := Place("rules.action", Some(index));
      match action
      case SelectModel(model) => Require(model in CandidateSet(spec), RuleActionModelOutsidePool, place);
      case ExcludeModels(models) =>
        Require(NoRepeats(models), RuleActionModelDuplicate, Place("rules.action.model_ids", Some(index)));
        ghost var start := issues;
        for i := 0 to |models|
          invariant issues == start + Each(i, OutsideCheck(models, CandidateSet(spec), place))
        {
          Require(models[i] in CandidateSet(spec), RuleActionModelOutsidePool, place);
        }
      case UseProfile(profile) =>
        Require(ProfileOk(profile, registries), ProfileUnavailable, Place("rules.action.profile", Some(index)));
    }

    method Validate(spec: Spec, registries: Registries)
      modifies this
      ensures issues == old(issues) + Issues(spec, registries)
    {
      hide ContextIssues, PoolIssues, RuleIssues, SelectorIssues, ResilienceIssues, PolicyIssues, Unless, NoRepeats;
      Require(NoRepeats(ModelIds(spec.candidates)), CandidateDuplicate, Part("candidate_pool.candidates"));
      Require(NoRepeats(spec.identity.operations), OperationDuplicate, Part("identity.supported_operations"));
      ValidateContext(spec, registries);
      ValidateCandidates(spec, registries);
      ValidateRules(spec, registries);
      issues := issues + SelectorIssues(spec, registries);
      issues := issues + ResilienceIssues(spec);
      issues := issues + PolicyIssues(spec, registries);
    }
  }

  lemma AvailableIsKnown(candidate: ModelRef, models: map<ModelRef, Facts>)
    ensures Available(candidate, Get(models, candidate)) ==> candidate in models
  {
  }
}
