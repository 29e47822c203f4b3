/**
  What each issue of the router compiler means: it is reported, at its place, exactly if the specification has
  that fault. Everything is said of the specification and the registries alone.
 */
module RouterIssues {
  import opened Wrappers
  import opened RouterSpec
  import opened RouterChecks

  predicate Repeated(values: seq<string>) {
    exists i, j :: 0 <= i < j < |values| && values[i] == values[j]
  }

  /** Something wanted is not among what is given. */
  predicate Lacks(given: seq<string>, wanted: seq<string>) {
    exists k :: 0 <= k < |wanted| && wanted[k] !in given
  }

  predicate At(issue: Issue, code: Code, part: string) {
    issue.code == code && issue.place.part == part && issue.place.index == None
  }

  predicate AtIndex(issue: Issue, code: Code, part: string, index: nat) {
    issue.code == code && issue.place.part == part && issue.place.index == Some(index)
  }

  // ----- Lists of issues -----

  lemma UnlessHolds(valid: bool, code: Code, place: Place, issue: Issue)
    ensures issue in Unless(valid, code, place) <==> !valid && issue == Issue(code, place)
  {
  }

  lemma UnlessAt(valid: bool, code: Code, part: string, issue: Issue)
    ensures issue in Unless(valid, code, Part(part)) <==> !valid && At(issue, code, part)
  {
  }

  lemma IsUnless(code: Code, place: Place)
    ensures Unless(false, code, place) == [Issue(code, place)]
  {
  }

  lemma {:induction false} InEach(count: nat, check: nat -> seq<Issue>, issue: Issue)
    ensures issue in Each(count, check) <==> exists i: nat :: i < count && issue in check(i)
  {
    if count > 0 {
      InEach(count - 1, check, issue);
    }
  }

  lemma RepeatsAre(values: seq<string>)
    ensures NoRepeats(values) <==> !Repeated(values)
  {
  }

  // ----- Context -----

  predicate ContextFault(spec: Spec, registries: Registries, issue: Issue) {
    || (At(issue, ContextFieldDuplicate, "input_contract")
        && exists i, j :: 0 <= i < j < |spec.fields| && spec.fields[i].name == spec.fields[j].name)
    || exists i :: 0 <= i < |spec.fields| && FieldFault(spec.fields[i], registries, i, issue)
  }

  predicate FieldFault(field: InputField, registries: Registries, i: nat, issue: Issue) {
    var key := (field.name, field.version);
    if key !in registries.fields || !registries.fields[key].enabled then
      AtIndex(issue, ContextFieldUnregistered, "input_contract", i)
    else
      var entry := registries.fields[key];
      && AtIndex(issue, ContextFieldContractMismatch, "input_contract", i)
      && (entry.name != field.name || entry.version != field.version || entry.valueType != field.valueType
          || entry.source != field.source)
  }

  lemma NamesRepeat(fields: seq<InputField>)
    ensures NoRepeats(Names(fields)) <==> !exists i, j :: 0 <= i < j < |fields| && fields[i].name == fields[j].name
  {
    var names := Names(fields);
    assert forall i | 0 <= i < |fields| :: names[i] == FieldName(fields[i]);
  }

  lemma ContextFaults(spec: Spec, registries: Registries, issue: Issue)
    ensures issue in ContextIssues(spec, registries) <==> ContextFault(spec, registries, issue)
  {
    hide Unless, Each, NoRepeats;
    UnlessHolds(NoRepeats(Names(spec.fields)), ContextFieldDuplicate, Part("input_contract"), issue);
    NamesRepeat(spec.fields);
    var check := FieldCheck(spec.fields, registries);
    InEach(|spec.fields|, check, issue);
    forall i: nat | i < |spec.fields|
      ensures issue in check(i) <==> FieldFault(spec.fields[i], registries, i, issue)
    {
      FieldFaults(spec.fields[i], registries, i, issue);
    }
  }

  lemma FieldFaults(field: InputField, registries: Registries, i: nat, issue: Issue)
    ensures issue in FieldIssues(field, Get(registries.fields, (field.name, field.version)), i)
            <==> FieldFault(field, registries, i, issue)
  {
  }

  // ----- Candidates -----

  /** The registered and enabled facts that a reference names. */
  predicate Listed(model: ModelRef, registries: Registries) {
    && model in registries.models && registries.models[model].enabled
    && registries.models[model].id == model.id && registries.models[model].version == model.version
  }

  predicate PoolFault(spec: Spec, registries: Registries, issue: Issue) {
    || (At(issue, EligibilityCapabilityDuplicate, "eligibility.required_capabilities") && Repeated(spec.eligibility.capabilities))
    || (At(issue, EligibilityProviderDuplicate, "eligibility.allowed_provider_ids") && Repeated(spec.eligibility.providers))
    || (At(issue, EligibilityDataZoneDuplicate, "eligibility.allowed_data_zones") && Repeated(spec.eligibility.zones))
    || (exists i :: 0 <= i < |spec.candidates| && CandidateFault(spec, spec.candidates[i], registries, i, issue))
    || (At(issue, CandidateLogicalModelDuplicate, "candidate_pool.candidates") && SharedLogicalModel(spec.candidates, registries))
  }

  predicate SharedLogicalModel(candidates: seq<ModelRef>, registries: Registries) {
    exists i, j :: 0 <= i < j < |candidates| && Listed(candidates[i], registries) && Listed(candidates[j], registries)
      && registries.models[candidates[i]].logicalKey == registries.models[candidates[j]].logicalKey
  }

  predicate CandidateFault(spec: Spec, candidate: ModelRef, registries: Registries, i: nat, issue: Issue) {
    var pool := "candidate_pool.candidates";
    if candidate !in registries.models || !registries.models[candidate].enabled then AtIndex(issue, CandidateUnavailable, pool, i)
    else if !Listed(candidate, registries) then AtIndex(issue, CandidateCatalogIdentityMismatch, pool, i)
    else FactsFault(spec, registries.models[candidate], pool, i, issue)
  }

  predicate FactsFault(spec: Spec, facts: Facts, pool: string, i: nat, issue: Issue) {
    var eligibility := spec.eligibility;
    || (AtIndex(issue, CandidateOperationDuplicate, pool, i) && Repeated(facts.operations))
    || (AtIndex(issue, CandidateCapabilityDuplicate, pool, i) && Repeated(facts.capabilities))
    || (AtIndex(issue, CandidateOperationUnsupported, pool, i) && Lacks(facts.operations, spec.identity.operations))
    || (AtIndex(issue, CandidateCapabilityMissing, pool, i) && Lacks(facts.capabilities, eligibility.capabilities))
    || (AtIndex(issue, CandidateContextTooSmall, pool, i)
        && eligibility.window.Some? && (facts.window.None? || facts.window.value < eligibility.window.value))
    || (AtIndex(issue, CandidateProviderDisallowed, pool, i)
        && eligibility.providers != [] && facts.provider !in eligibility.providers)
    || (AtIndex(issue, CandidateDataZoneDisallowed, pool, i) && eligibility.zones != [] && facts.zone !in eligibility.zones)
  }

  lemma NotAllIn(wanted: seq<string>, given: seq<string>)
    ensures SetOf(wanted) <= SetOf(given) <==> !Lacks(given, wanted)
  {
    if k :| 0 <= k < |wanted| && wanted[k] !in given {
      assert wanted[k] in SetOf(wanted);
    } else {
      assert SetOf(wanted) <= SetOf(given);
    }
  }

  lemma KnownCandidateFaults(spec: Spec, candidate: ModelRef, facts: Facts, i: nat, issue: Issue)
    requires facts.enabled && facts.id == candidate.id && facts.version == candidate.version
    ensures issue in CandidateIssues(spec, candidate, Some(facts), i)
            <==> FactsFault(spec, facts, "candidate_pool.candidates", i, issue)
  {
    hide NoRepeats, SetOf, Lacks, Repeated;
    RepeatsAre(facts.operations);
    RepeatsAre(facts.capabilities);
    NotAllIn(spec.identity.operations, facts.operations);
    NotAllIn(spec.eligibility.capabilities, facts.capabilities);
  }

  lemma CandidateFaults(spec: Spec, candidate: ModelRef, registries: Registries, i: nat, issue: Issue)
    ensures issue in CandidateIssues(spec, candidate, Get(registries.models, candidate), i)
            <==> CandidateFault(spec, candidate, registries, i, issue)
  {
    if Listed(candidate, registries) {
      hide CandidateIssues, FactsFault;
      KnownCandidateFaults(spec, candidate, registries.models[candidate], i, issue);
    }
  }

  lemma {:induction false} SharedKeys(candidates: seq<ModelRef>, registries: Registries)
    ensures forall key :: key in LogicalKeys(candidates, registries.models)
                          <==> exists i :: 0 <= i < |candidates| && Listed(candidates[i], registries)
                                           && registries.models[candidates[i]].logicalKey == key
    ensures NoRepeats(LogicalKeys(candidates, registries.models)) <==> !SharedLogicalModel(candidates, registries)
  {
    if candidates != [] {
      var rest, last := candidates[..|candidates| - 1], candidates[|candidates| - 1];
      SharedKeys(rest, registries);
      var keys := LogicalKeys(rest, registries.models);
      assert candidates == rest + [last];
      hide LogicalKeys;
      SharedOneMore(rest, last, registries);
      if Listed(last, registries) {
        OneMoreRepeats(keys, registries.models[last].logicalKey);
        assert LogicalKeys(candidates, registries.models) == keys + [registries.models[last].logicalKey] by {
          KeysOneMore(candidates, registries);
        }
      } else {
        assert LogicalKeys(candidates, registries.models) == keys by {
          KeysOneMore(candidates, registries);
        }
      }
    }
  }

  lemma KeysOneMore(candidates: seq<ModelRef>, registries: Registries)
    requires candidates != []
    ensures var last := candidates[|candidates| - 1];
            LogicalKeys(candidates, registries.models)
            == LogicalKeys(candidates[..|candidates| - 1], registries.models)
               + if Listed(last, registries) then [registries.models[last].logicalKey] else []
  {
  }

  lemma OneMoreRepeats(keys: seq<string>, key: string)
    ensures NoRepeats(keys + [key]) <==> NoRepeats(keys) && key !in keys
  {
    if NoRepeats(keys + [key]) {
      assert forall i | 0 <= i < |keys| :: (keys + [key])[i] == keys[i] && (keys + [key])[i] != (keys + [key])[|keys|];
    }
  }

  lemma SharedOneMore(rest: seq<ModelRef>, last: ModelRef, registries: Registries)
    ensures SharedLogicalModel(rest + [last], registries)
            <==> || SharedLogicalModel(rest, registries)
                 || (Listed(last, registries)
                     && exists i :: 0 <= i < |rest| && Listed(rest[i], registries)
                                    && registries.models[rest[i]].logicalKey == registries.models[last].logicalKey)
  {
    var all := rest + [last];
    assert forall i | 0 <= i < |rest| :: all[i] == rest[i];
    assert all[|rest|] == last;
    if i, j :| 0 <= i < j < |rest| && Listed(rest[i], registries) && Listed(rest[j], registries)
                && registries.models[rest[i]].logicalKey == registries.models[rest[j]].logicalKey {
      assert Listed(all[i], registries) && Listed(all[j], registries);
    }
    if Listed(last, registries) {
      if i :| 0 <= i < |rest| && Listed(rest[i], registries)
               && registries.models[rest[i]].logicalKey == registries.models[last].logicalKey {
        assert Listed(all[i], registries) && Listed(all[|rest|], registries);
      }
    }
  }

  lemma PoolFaults(spec: Spec, registries: Registries, issue: Issue)
    ensures issue in PoolIssues(spec, registries) <==> PoolFault(spec, registries, issue)
  {
    hide Unless, Each, NoRepeats, CandidateFault, CandidateIssues, LogicalKeys, SharedLogicalModel, Repeated;
    RepeatsAre(spec.eligibility.capabilities);
    RepeatsAre(spec.eligibility.providers);
    RepeatsAre(spec.eligibility.zones);
    UnlessHolds(NoRepeats(spec.eligibility.capabilities), EligibilityCapabilityDuplicate,
                Part("eligibility.required_capabilities"), issue);
    UnlessHolds(NoRepeats(spec.eligibility.providers), EligibilityProviderDuplicate, Part("eligibility.allowed_provider_ids"), issue);
    UnlessHolds(NoRepeats(spec.eligibility.zones), EligibilityDataZoneDuplicate, Part("eligibility.allowed_data_zones"), issue);
    UnlessHolds(NoRepeats(LogicalKeys(spec.candidates, registries.models)), CandidateLogicalModelDuplicate,
                Part("candidate_pool.candidates"), issue);
    SharedKeys(spec.candidates, registries);
    var check := CandidateCheck(spec, registries);
    InEach(|spec.candidates|, check, issue);
    forall i: nat | i < |spec.candidates|
      ensures issue in check(i) <==> CandidateFault(spec, spec.candidates[i], registries, i, issue)
    {
      CandidateFaults(spec, spec.candidates[i], registries, i, issue);
    }
  }

  // ----- Rules -----

  /** A single value of a declared type; whole numbers are numbers too. */
  predicate HasType(value: Scalar, valueType: ValueType) {
    || (value.Text? && valueType == TextType) || (value.Truth? && valueType == BooleanType)
    || (value.Whole? && (valueType == IntegerType || valueType == NumberType))
    || (value.Decimal? && valueType == NumberType)
  }

  /** A condition that makes sense for a field of the given type. */
  predicate Sensible(condition: Predicate, valueType: ValueType) {
    var numeric := valueType == IntegerType || valueType == NumberType;
    var value := condition.value;
    || (condition.operator == Exists && value == Missing)
    || (condition.operator == In && value.Many? && |value.scalars| > 0
        && forall i | 0 <= i < |value.scalars| :: HasType(value.scalars[i], valueType))
    || (condition.operator == Contains && value.One? && value.scalar.Text? && valueType == TextType)
    || (condition.operator in {Equals, NotEquals} && value.One? && HasType(value.scalar, valueType))
    || (condition.operator in {GreaterThan, GreaterThanOrEqual, LessThan, LessThanOrEqual}
        && numeric && value.One? && (value.scalar.Whole? || value.scalar.Decimal?))
  }

  lemma SensibleIs(condition: Predicate, valueType: ValueType)
    ensures Sensible(condition, valueType) <==> PredicateOk(condition, valueType)
  {
    if condition.operator.In? && condition.value.Many? {
      var scalars := condition.value.scalars;
      assert forall i | 0 <= i < |scalars| :: scalars[i] in scalars;
      assert forall value :: HasType(value, valueType) <==> ValueMatches(valueType, value);
    }
  }

  /** The last declaration of a field's name. */
  predicate LastDeclared(fields: seq<InputField>, name: string, k: nat) {
    && k < |fields| && fields[k].name == name
    && forall m | k < m < |fields| :: fields[m].name != name
  }

  lemma {:induction false} DeclaredIsLast(fields: seq<InputField>, name: string) returns (k: nat)
    ensures Declared(fields, name).None? ==> forall m | 0 <= m < |fields| :: fields[m].name != name
    ensures Declared(fields, name).Some? ==> LastDeclared(fields, name, k) && fields[k].version == Declared(fields, name).value
  {
    k := 0;
    if fields != [] {
      var rest := fields[..|fields| - 1];
      if fields[|fields| - 1].name == name {
        k := |fields| - 1;
      } else {
        k := DeclaredIsLast(rest, name);
        assert forall m | 0 <= m < |rest| :: rest[m] == fields[m];
      }
    }
  }

  ghost predicate ConditionFault(spec: Spec, registries: Registries, rule: Rule, i: nat, issue: Issue) {
    var name := rule.condition.field;
    if forall m | 0 <= m < |spec.fields| :: spec.fields[m].name != name then
      AtIndex(issue, RuleContextUndeclared, "rules.predicate.field", i)
    else
      exists k: nat :: LastDeclared(spec.fields, name, k) && RegisteredFault(registries, rule.condition, spec.fields[k].version, i, issue)
  }

  predicate RegisteredFault(registries: Registries, condition: Predicate, version: nat, i: nat, issue: Issue) {
    var key := (condition.field, version);
    if key !in registries.fields || !registries.fields[key].enabled then
      AtIndex(issue, RuleContextUnregistered, "rules.predicate.field", i)
    else
      AtIndex(issue, RulePredicateTypeMismatch, "rules.predicate.value", i)
      && !Sensible(condition, registries.fields[key].valueType)
  }

  lemma ConditionFaults(spec: Spec, registries: Registries, rule: Rule, i: nat, issue: Issue)
    ensures issue in ConditionIssues(spec, registries, rule, i) <==> ConditionFault(spec, registries, rule, i, issue)
  {
    hide PredicateOk, Sensible, Declared;
    var name := rule.condition.field;
    var k := DeclaredIsLast(spec.fields, name);
    if Declared(spec.fields, name).Some? {
      assert forall m: nat | LastDeclared(spec.fields, name, m) :: m == k;
      var key := (name, spec.fields[k].version);
      if key in registries.fields {
        SensibleIs(rule.condition, registries.fields[key].valueType);
      }
      assert issue in ConditionIssues(spec, registries, rule, i)
             <==> RegisteredFault(registries, rule.condition, spec.fields[k].version, i, issue);
    }
  }

  predicate IsCandidate(spec: Spec, model: string) {
    exists k :: 0 <= k < |spec.candidates| && spec.candidates[k].id == model
  }

  lemma CandidateSetIs(spec: Spec, model: string)
    ensures model in CandidateSet(spec) <==> IsCandidate(spec, model)
  {
    var ids := ModelIds(spec.candidates);
    assert forall k | 0 <= k < |ids| :: ids[k] == CandidateId(spec.candidates[k]);
    if IsCandidate(spec, model) {
      var k :| 0 <= k < |spec.candidates| && spec.candidates[k].id == model;
      assert ids[k] == model;
    }
  }

  /** A registered, enabled profile for quality of service that carries the referenced identity. */
  predicate Usable(profile: ProfileRef, registries: Registries) {
    && profile in registries.profiles && registries.profiles[profile].enabled
    && registries.profiles[profile].id == profile.id && registries.profiles[profile].version == profile.version
    && registries.profiles[profile].kind == "qos"
  }

  lemma UsableIs(profile: ProfileRef, registries: Registries)
    ensures ProfileOk(profile, registries) <==> Usable(profile, registries)
  {
  }

  predicate ActionFault(spec: Spec, registries: Registries, action: Action, i: nat, issue: Issue) {
    match action
    case SelectModel(model) => AtIndex(issue, RuleActionModelOutsidePool, "rules.action", i) && !IsCandidate(spec, model)
    case ExcludeModels(models) =>
      || (AtIndex(issue, RuleActionModelDuplicate, "rules.action.model_ids", i) && Repeated(models))
      || (AtIndex(issue, RuleActionModelOutsidePool, "rules.action", i)
          && exists k :: 0 <= k < |models| && !IsCandidate(spec, models[k]))
    case UseProfile(profile) => AtIndex(issue, ProfileUnavailable, "rules.action.profile", i) && !Usable(profile, registries)
  }

  lemma ActionFaults(spec: Spec, registries: Registries, action: Action, i: nat, issue: Issue)
    ensures issue in ActionIssues(spec, registries, action, i) <==> ActionFault(spec, registries, action, i, issue)
  {
    hide Unless, Each, NoRepeats, CandidateSet, IsCandidate, ProfileOk, Usable, Repeated;
    var place := Place("rules.action", Some(i));
    match action
    case SelectModel(model) =>
      CandidateSetIs(spec, model);
      UnlessHolds(model in CandidateSet(spec), RuleActionModelOutsidePool, place, issue);
    case ExcludeModels(models) =>
      RepeatsAre(models);
      UnlessHolds(NoRepeats(models), RuleActionModelDuplicate, Place("rules.action.model_ids", Some(i)), issue);
      var check := OutsideCheck(models, CandidateSet(spec), place);
      InEach(|models|, check, issue);
      forall k: nat | k < |models|
        ensures issue in check(k) <==> AtIndex(issue, RuleActionModelOutsidePool, "rules.action", i) && !IsCandidate(spec, models[k])
      {
        CandidateSetIs(spec, models[k]);
        UnlessHolds(models[k] in CandidateSet(spec), RuleActionModelOutsidePool, place, issue);
      }
    case UseProfile(profile) =>
      UsableIs(profile, registries);
      UnlessHolds(ProfileOk(profile, registries), ProfileUnavailable, Place("rules.action.profile", Some(i)), issue);
  }

  ghost predicate RuleFault(spec: Spec, registries: Registries, issue: Issue) {
    || (At(issue, RuleIdDuplicate, "rules") && exists i, j :: 0 <= i < j < |spec.rules| && spec.rules[i].id == spec.rules[j].id)
    || exists i :: 0 <= i < |spec.rules|
                   && (|| ConditionFault(spec, registries, spec.rules[i], i, issue)
                       || ActionFault(spec, registries, spec.rules[i].action, i, issue))
  }

  lemma RuleFaults(spec: Spec, registries: Registries, issue: Issue)
    ensures issue in RuleIssues(spec, registries) <==> RuleFault(spec, registries, issue)
  {
    hide Unless, Each, NoRepeats, ConditionIssues, ActionIssues, ConditionFault, ActionFault;
    var ids := RuleIds(spec.rules);
    assert NoRepeats(ids) <==> !exists i, j :: 0 <= i < j < |spec.rules| && spec.rules[i].id == spec.rules[j].id by {
      RuleIdsRepeat(spec.rules);
    }
    UnlessHolds(NoRepeats(ids), RuleIdDuplicate, Part("rules"), issue);
    var check := RuleCheck(spec, registries);
    InEach(|spec.rules|, check, issue);
    forall i: nat | i < |spec.rules|
      ensures issue in check(i) <==> || ConditionFault(spec, registries, spec.rules[i], i, issue)
                                     || ActionFault(spec, registries, spec.rules[i].action, i, issue)
    {
      ConditionFaults(spec, registries, spec.rules[i], i, issue);
      ActionFaults(spec, registries, spec.rules[i].action, i, issue);
    }
  }

  lemma RuleIdsRepeat(rules: seq<Rule>)
    ensures NoRepeats(RuleIds(rules)) <==> !exists i, j :: 0 <= i < j < |rules| && rules[i].id == rules[j].id
  {
    var ids := RuleIds(rules);
    assert forall i | 0 <= i < |ids| :: ids[i] == RuleId(rules[i]);
  }

  // ----- Selector -----

  /** Some candidate is not named, or some name is no candidate. */
  predicate NotThePool(spec: Spec, models: seq<string>) {
    || (exists k :: 0 <= k < |models| && !IsCandidate(spec, models[k]))
    || (exists k :: 0 <= k < |spec.candidates| && spec.candidates[k].id !in models)
  }

  predicate ExactFault(spec: Spec, models: seq<string>, part: string, issue: Issue) {
    || (At(issue, SelectorModelDuplicate, part) && Repeated(models))
    || (At(issue, SelectorCandidatesMismatch, part) && NotThePool(spec, models))
  }

  predicate SubsetFault(spec: Spec, models: seq<string>, part: string, issue: Issue) {
    || (At(issue, SelectorModelDuplicate, part) && Repeated(models))
    || (At(issue, SelectorModelOutsidePool, part) && exists k :: 0 <= k < |models| && !IsCandidate(spec, models[k]))
  }

  lemma ExactFaults(spec: Spec, models: seq<string>, part: string, issue: Issue)
    ensures issue in ExactIssues(models, CandidateSet(spec), Part(part)) <==> ExactFault(spec, models, part, issue)
  {
    hide NoRepeats, CandidateSet, IsCandidate;
    RepeatsAre(models);
    forall model
      ensures model in CandidateSet(spec) <==> IsCandidate(spec, model)
    {
      CandidateSetIs(spec, model);
    }
    PoolIs(spec, models);
  }

  lemma PoolIs(spec: Spec, models: seq<string>)
    requires forall model :: model in CandidateSet(spec) <==> IsCandidate(spec, model)
    ensures SetOf(models) != CandidateSet(spec) <==> NotThePool(spec, models)
  {
    hide CandidateSet;
    if k :| 0 <= k < |models| && !IsCandidate(spec, models[k]) {
      assert models[k] in SetOf(models);
    }
    if k :| 0 <= k < |spec.candidates| && spec.candidates[k].id !in models {
      assert IsCandidate(spec, spec.candidates[k].id);
    }
    if !NotThePool(spec, models) {
      forall model
        ensures model in SetOf(models) <==> model in CandidateSet(spec)
      {
      }
      assert SetOf(models) == CandidateSet(spec);
    }
  }

  lemma SubsetFaults(spec: Spec, models: seq<string>, part: string, issue: Issue)
    ensures issue in SubsetIssues(models, CandidateSet(spec), Part(part)) <==> SubsetFault(spec, models, part, issue)
  {
    hide NoRepeats, CandidateSet, IsCandidate;
    RepeatsAre(models);
    forall model
      ensures model in CandidateSet(spec) <==> IsCandidate(spec, model)
    {
      CandidateSetIs(spec, model);
    }
    if k :| 0 <= k < |models| && !IsCandidate(spec, models[k]) {
      assert models[k] in SetOf(models);
    } else {
      assert SetOf(models) <= CandidateSet(spec);
    }
  }

  /** The first reason for which a routing model cannot be used. */
  predicate RoutingFault(spec: Spec, registries: Registries, routing: ModelRef, issue: Issue) {
    && issue.place.part == "selector.routing_model" && issue.place.index == None
    && if routing !in registries.models || !registries.models[routing].enabled then issue.code == SelectorRoutingModelUnavailable
       else if !Listed(routing, registries) then issue.code == SelectorRoutingModelIdentityMismatch
       else if Lacks(registries.models[routing].operations, spec.identity.operations)
         then issue.code == SelectorRoutingModelOperationUnsupported
       else issue.code == SelectorRoutingModelCapabilityMissing && "semantic_routing" !in registries.models[routing].capabilities
  }

  lemma RoutingFaults(spec: Spec, registries: Registries, routing: ModelRef, issue: Issue)
    ensures issue in RoutingIssues(spec, routing, Get(registries.models, routing)) <==> RoutingFault(spec, registries, routing, issue)
  {
    hide SetOf;
    if Listed(routing, registries) {
      NotAllIn(spec.identity.operations, registries.models[routing].operations);
    }
  }

  /** The last candidate with an id. */
  predicate LastCandidate(spec: Spec, model: string, k: nat) {
    && k < |spec.candidates| && spec.candidates[k].id == model
    && forall m | k < m < |spec.candidates| :: spec.candidates[m].id != model
  }

  /** A model of the selector that the registry marks as ineligible for semantic routing. */
  ghost predicate Ineligible(spec: Spec, registries: Registries, model: string) {
    exists k: nat :: LastCandidate(spec, model, k) && spec.candidates[k] in registries.models
                     && !registries.models[spec.candidates[k]].foundryEligible
  }

  lemma {:induction false} FactsOfIsLast(candidates: seq<ModelRef>, models: map<ModelRef, Facts>, id: string) returns (k: nat)
    ensures (forall m | 0 <= m < |candidates| :: candidates[m].id != id) ==> FactsOf(candidates, models, id).None?
    ensures (exists m :: 0 <= m < |candidates| && candidates[m].id == id) ==>
              && k < |candidates| && candidates[k].id == id && (forall m | k < m < |candidates| :: candidates[m].id != id)
              && FactsOf(candidates, models, id) == Get(models, candidates[k])
  {
    k := 0;
    if candidates != [] {
      var rest := candidates[..|candidates| - 1];
      if candidates[|candidates| - 1].id == id {
        k := |candidates| - 1;
      } else {
        k := FactsOfIsLast(rest, models, id);
        assert forall m | 0 <= m < |rest| :: rest[m] == candidates[m];
      }
    }
  }

  lemma IneligibleIs(spec: Spec, registries: Registries, model: string)
    ensures Ineligible(spec, registries, model)
            <==> var facts := FactsOf(spec.candidates, registries.models, model); facts.Some? && !facts.value.foundryEligible
  {
    var k := FactsOfIsLast(spec.candidates, registries.models, model);
    if exists m :: 0 <= m < |spec.candidates| && spec.candidates[m].id == model {
      assert LastCandidate(spec, model, k);
      assert forall m: nat | LastCandidate(spec, model, m) :: m == k;
    }
  }

  /** A passed, enabled evaluation of just this routing model, which covered every model of the selector. */
  predicate Covers(registries: Registries, routing: ModelRef, evaluation: string, models: seq<string>) {
    && evaluation in registries.evaluations
    && var entry := registries.evaluations[evaluation];
       && entry.id == evaluation && entry.routing == routing && entry.passed && entry.enabled
       && !Repeated(entry.models) && forall k | 0 <= k < |models| :: models[k] in entry.models
  }

  lemma CoversIs(registries: Registries, routing: ModelRef, evaluation: string, models: seq<string>)
    ensures Covers(registries, routing, evaluation, models)
            <==> EvaluationOk(Custom(routing, evaluation, models), Get(registries.evaluations, evaluation))
  {
    hide NoRepeats, SetOf;
    if evaluation in registries.evaluations {
      RepeatsAre(registries.evaluations[evaluation].models);
      NotAllIn(models, registries.evaluations[evaluation].models);
    }
  }

  /** The total of some weights, in hundredths of a percent. */
  function TotalWeight(allocations: seq<Allocation>): int {
    if allocations == [] then 0 else allocations[0].basisPoints + TotalWeight(allocations[1..])
  }

  lemma {:induction false} TotalWeightIs(allocations: seq<Allocation>)
    ensures TotalWeight(allocations) == BasisPoints(allocations)
  {
    if allocations != [] {
      FirstWeight(allocations);
      TotalWeightIs(allocations[1..]);
    }
  }

  lemma {:induction false} FirstWeight(allocations: seq<Allocation>)
    requires allocations != []
    ensures BasisPoints(allocations) == allocations[0].basisPoints + BasisPoints(allocations[1..])
  {
    if |allocations| > 1 {
      var rest := allocations[..|allocations| - 1];
      FirstWeight(rest);
      assert allocations[1..][..|allocations| - 2] == rest[1..];
    } else {
      assert allocations[..0] == [] && allocations[1..] == [];
    }
  }

  function Weighed(allocations: seq<Allocation>): (models: seq<string>)
    ensures |models| == |allocations| && forall i | 0 <= i < |models| :: models[i] == allocations[i].model
  {
    seq(|allocations|, i requires 0 <= i < |allocations| => allocations[i].model)
  }

  ghost predicate SelectorFault(spec: Spec, registries: Registries, issue: Issue) {
    match spec.selector
    case Priority(order) => ExactFault(spec, order, "selector.model_order", issue)
    case Weighted(allocations) =>
      || ExactFault(spec, Weighed(allocations), "selector.allocations", issue)
      || (At(issue, SelectorWeightTotalInvalid, "selector.allocations") && TotalWeight(allocations) != 10000)
    case Qos(profile) => At(issue, ProfileUnavailable, "selector.profile") && !Usable(profile, registries)
    case Semantic(routing, _, models) =>
      || SubsetFault(spec, models, "selector.model_ids", issue)
      || RoutingFault(spec, registries, routing, issue)
      || (At(issue, SelectorCandidateNotFoundryEligible, "selector.model_ids")
          && exists k :: 0 <= k < |models| && Ineligible(spec, registries, models[k]))
    case Custom(routing, evaluation, models) =>
      || SubsetFault(spec, models, "selector.model_ids", issue)
      || RoutingFault(spec, registries, routing, issue)
      || (At(issue, SelectorEvaluationGateFailed, "selector.evaluation_id")
          && !Covers(registries, routing, evaluation, models))
  }

  lemma SelectorFaults(spec: Spec, registries: Registries, issue: Issue)
    ensures issue in SelectorIssues(spec, registries) <==> SelectorFault(spec, registries, issue)
  {
    hide Unless, Each, CandidateSet, ExactIssues, SubsetIssues, RoutingIssues, ProfileOk, EvaluationOk, ExactFault, SubsetFault,
      RoutingFault, Usable, Covers, Ineligible, FactsOf, BasisPoints, TotalWeight;
    match spec.selector
    case Priority(order) => ExactFaults(spec, order, "selector.model_order", issue);
    case Weighted(allocations) =>
      assert forall i | 0 <= i < |allocations| :: AllocatedModels(allocations)[i] == AllocatedModel(allocations[i]);
      assert AllocatedModels(allocations) == Weighed(allocations);
      ExactFaults(spec, Weighed(allocations), "selector.allocations", issue);
      TotalWeightIs(allocations);
      UnlessHolds(BasisPoints(allocations) == 10000, SelectorWeightTotalInvalid, Part("selector.allocations"), issue);
    case Qos(profile) =>
      UsableIs(profile, registries);
      UnlessHolds(ProfileOk(profile, registries), ProfileUnavailable, Part("selector.profile"), issue);
    case Semantic(routing, _, models) =>
      SubsetFaults(spec, models, "selector.model_ids", issue);
      RoutingFaults(spec, registries, routing, issue);
      EligibilityFaults(spec, registries, models, issue);
    case Custom(routing, evaluation, models) =>
      SubsetFaults(spec, models, "selector.model_ids", issue);
      RoutingFaults(spec, registries, routing, issue);
      CoversIs(registries, routing, evaluation, models);
      UnlessHolds(EvaluationOk(spec.selector, Get(registries.evaluations, evaluation)), SelectorEvaluationGateFailed,
                  Part("selector.evaluation_id"), issue);
  }

  lemma EligibilityFaults(spec: Spec, registries: Registries, models: seq<string>, issue: Issue)
    ensures issue in Each(|models|, EligibleCheck(spec, registries, models))
            <==> At(issue, SelectorCandidateNotFoundryEligible, "selector.model_ids")
                 && exists k :: 0 <= k < |models| && Ineligible(spec, registries, models[k])
  {
    hide Each, FactsOf, Ineligible;
    var check := EligibleCheck(spec, registries, models);
    InEach(|models|, check, issue);
    forall k: nat | k < |models|
      ensures issue in check(k)
              <==> At(issue, SelectorCandidateNotFoundryEligible, "selector.model_ids") && Ineligible(spec, registries, models[k])
    {
      IneligibleIs(spec, registries, models[k]);
    }
  }

  // ----- Resilience and policy -----

  predicate ResilienceFault(spec: Spec, issue: Issue) {
    EventFault(spec, issue) || RetryFault(spec.resilience.retry, issue) || StreamingFault(spec, issue)
  }

  predicate EventFault(spec: Spec, issue: Issue) {
    var retry, fallback := spec.resilience.retry, spec.resilience.fallback;
    || (At(issue, DeploymentRetryEventDuplicate, "resilience.equivalent_deployment_retry.retryable_events") && Repeated(retry.events))
    || (At(issue, CrossModelEventDuplicate, "resilience.cross_model_fallback.retryable_events") && Repeated(fallback.events))
    || SubsetFault(spec, fallback.order, "resilience.cross_model_fallback.model_order", issue)
    || (At(issue, CrossModelFallbackIncomplete, "resilience.cross_model_fallback")
        && ((|fallback.order| > 0 && |fallback.events| == 0) || (|fallback.order| == 0 && |fallback.events| > 0)))
  }

  predicate RetryFault(retry: Retry, issue: Issue) {
    var events := "resilience.equivalent_deployment_retry.retryable_events";
    || (At(issue, DeploymentRetryEventsInert, events) && retry.maxAttempts == 1 && |retry.events| > 0)
    || (At(issue, DeploymentRetryEventsMissing, events) && retry.maxAttempts >= 2 && |retry.events| == 0)
    || (At(issue, RetryAfterInert, "resilience.equivalent_deployment_retry.respect_retry_after")
        && retry.respectRetryAfter && "rate_limit" !in retry.events)
  }

  predicate StreamingFault(spec: Spec, issue: Issue) {
    var retry, fallback := spec.resilience.retry, spec.resilience.fallback;
    var streams := spec.identity.streaming != Disabled;
    var failsOver := (retry.maxAttempts > 1 && |retry.events| > 0) || |fallback.events| > 0;
    || (At(issue, StreamingFallbackUnsafe, "resilience.streaming_failover")
        && streams && failsOver && !spec.resilience.failoverBeforeFirstByte)
    || (At(issue, StreamingFailoverInert, "resilience.streaming_failover")
        && !streams && spec.resilience.failoverBeforeFirstByte)
  }

  lemma ResilienceFaults(spec: Spec, issue: Issue)
    ensures issue in ResilienceIssues(spec) <==> ResilienceFault(spec, issue)
  {
    hide EventIssues, RetryIssues, StreamingIssues, EventFault, RetryFault, StreamingFault;
    EventFaults(spec, issue);
    RetryFaults(spec.resilience.retry, issue);
    StreamingFaults(spec, issue);
  }

  lemma EventFaults(spec: Spec, issue: Issue)
    ensures issue in EventIssues(spec) <==> EventFault(spec, issue)
  {
    hide NoRepeats, Repeated, CandidateSet, SubsetIssues, SubsetFault;
    RepeatsAre(spec.resilience.retry.events);
    RepeatsAre(spec.resilience.fallback.events);
    SubsetFaults(spec, spec.resilience.fallback.order, "resilience.cross_model_fallback.model_order", issue);
  }

  lemma RetryFaults(retry: Retry, issue: Issue)
    ensures issue in RetryIssues(retry) <==> RetryFault(retry, issue)
  {
  }

  lemma StreamingFaults(spec: Spec, issue: Issue)
    ensures issue in StreamingIssues(spec) <==> StreamingFault(spec, issue)
  {
  }

  /** A policy belongs to a router that selects by quality of service, under the same usable profile. */
  predicate PolicyFault(spec: Spec, registries: Registries, issue: Issue) {
    if !spec.selector.Qos? then At(issue, QosPolicyInert, "qos_policy") && spec.policy.Some?
    else if spec.policy.None? then At(issue, QosPolicyMissing, "qos_policy")
    else
      var policy := spec.policy.value;
      || (At(issue, QosProfileMismatch, "qos_policy.profile") && policy.profile != spec.selector.profile)
      || (At(issue, ProfileUnavailable, "qos_policy.profile") && !Usable(policy.profile, registries))
      || (policy.staticPriority && ExactFault(spec, policy.fallback, "qos_policy.fallback_model_order", issue))
      || (!policy.staticPriority && At(issue, QosFailClosedHasFallback, "qos_policy.fallback_model_order") && |policy.fallback| > 0)
  }

  lemma PolicyFaults(spec: Spec, registries: Registries, issue: Issue)
    ensures issue in PolicyIssues(spec, registries) <==> PolicyFault(spec, registries, issue)
  {
    hide CandidateSet, ExactIssues, ExactFault, ProfileOk, Usable, Unless, At;
    if !spec.selector.Qos? {
      UnlessAt(spec.policy.None?, QosPolicyInert, "qos_policy", issue);
    } else if spec.policy.None? {
      UnlessAt(false, QosPolicyMissing, "qos_policy", issue);
      IsUnless(QosPolicyMissing, Part("qos_policy"));
    } else {
      var policy := spec.policy.value;
      UnlessAt(policy.profile == spec.selector.profile, QosProfileMismatch, "qos_policy.profile", issue);
      UnlessAt(ProfileOk(policy.profile, registries), ProfileUnavailable, "qos_policy.profile", issue);
      UnlessAt(policy.fallback == [], QosFailClosedHasFallback, "qos_policy.fallback_model_order", issue);
      UsableIs(spec.policy.value.profile, registries);
      ExactFaults(spec, spec.policy.value.fallback, "qos_policy.fallback_model_order", issue);
    }
  }

  // ----- All issues -----

  ghost predicate Fault(spec: Spec, registries: Registries, issue: Issue) {
    || (At(issue, CandidateDuplicate, "candidate_pool.candidates")
        && exists i, j :: 0 <= i < j < |spec.candidates| && spec.candidates[i].id == spec.candidates[j].id)
    || (At(issue, OperationDuplicate, "identity.supported_operations") && Repeated(spec.identity.operations))
    || ContextFault(spec, registries, issue) || PoolFault(spec, registries, issue) || RuleFault(spec, registries, issue)
    || SelectorFault(spec, registries, issue) || ResilienceFault(spec, issue) || PolicyFault(spec, registries, issue)
  }

  /** The compiler reports an issue exactly if the specification has that fault. */
  lemma IssuesAreFaults(spec: Spec, registries: Registries, issue: Issue)
    ensures issue in Issues(spec, registries) <==> Fault(spec, registries, issue)
  {
    hide NoRepeats, Unless, ContextIssues, PoolIssues, RuleIssues, SelectorIssues, ResilienceIssues, PolicyIssues,
      ContextFault, PoolFault, RuleFault, SelectorFault, ResilienceFault, PolicyFault, Repeated;
    IdsRepeat(spec.candidates);
    RepeatsAre(spec.identity.operations);
    UnlessHolds(NoRepeats(ModelIds(spec.candidates)), CandidateDuplicate, Part("candidate_pool.candidates"), issue);
    UnlessHolds(NoRepeats(spec.identity.operations), OperationDuplicate, Part("identity.supported_operations"), issue);
    ContextFaults(spec, registries, issue);
    PoolFaults(spec, registries, issue);
    RuleFaults(spec, registries, issue);
    SelectorFaults(spec, registries, issue);
    ResilienceFaults(spec, issue);
    PolicyFaults(spec, registries, issue);
  }

  lemma IdsRepeat(candidates: seq<ModelRef>)
    ensures NoRepeats(ModelIds(candidates)) <==> !exists i, j :: 0 <= i < j < |candidates| && candidates[i].id == candidates[j].id
  {
    var ids := ModelIds(candidates);
    assert forall i | 0 <= i < |ids| :: ids[i] == CandidateId(candidates[i]);
  }
}
