/** A compilation depends on nothing but the registry entries that the service fetches for it. */
module RouterLocality {
  import opened Wrappers
  import opened Orders
  import opened RouterSpec
  import opened RouterChecks
  import opened RouterSoundness
  import opened RouterPlans

  /** The rows that the service fetches for a specification. */
  function Fetched(spec: Spec, registries: Registries): Registries {
    Registries(
      map model | model in registries.models && model in ModelKeys(spec) :: registries.models[model],
      map field | field in registries.fields && field in FieldKeys(spec) :: registries.fields[field],
      map profile | profile in registries.profiles && profile in ProfileKeys(spec) :: registries.profiles[profile],
      map evaluation | evaluation in registries.evaluations && evaluation in EvaluationKeys(spec) ::
        registries.evaluations[evaluation])
  }

  ghost predicate AgreeOn<K, V>(keys: set<K>, a: map<K, V>, b: map<K, V>) {
    forall key | key in keys :: Get(a, key) == Get(b, key)
  }

  ghost predicate Agree(spec: Spec, a: Registries, b: Registries) {
    && AgreeOn(ModelKeys(spec), a.models, b.models)
    && AgreeOn(FieldKeys(spec), a.fields, b.fields)
    && AgreeOn(ProfileKeys(spec), a.profiles, b.profiles)
    && AgreeOn(EvaluationKeys(spec), a.evaluations, b.evaluations)
  }

  lemma FetchedAgrees(spec: Spec, registries: Registries)
    ensures Agree(spec, registries, Fetched(spec, registries))
  {
    hide ModelKeys, FieldKeys, ProfileKeys, EvaluationKeys;
  }

  lemma {:induction false} EachAlike(count: nat, a: nat -> seq<Issue>, b: nat -> seq<Issue>)
    requires forall i: nat | i < count :: a(i) == b(i)
    ensures Each(count, a) == Each(count, b)
  {
    if count > 0 {
      EachAlike(count - 1, a, b);
    }
  }

  lemma ContextIsLocal(spec: Spec, a: Registries, b: Registries)
    requires Agree(spec, a, b)
    ensures ContextIssues(spec, a) == ContextIssues(spec, b)
  {
    hide Each, NoRepeats, Get, FieldIssues;
    forall i: nat | i < |spec.fields|
      ensures FieldCheck(spec.fields, a)(i) == FieldCheck(spec.fields, b)(i)
    {
      assert (spec.fields[i].name, spec.fields[i].version) in FieldKeys(spec);
    }
    EachAlike(|spec.fields|, FieldCheck(spec.fields, a), FieldCheck(spec.fields, b));
  }

  lemma CandidateKeys(spec: Spec)
    ensures forall candidate | candidate in spec.candidates :: candidate in ModelKeys(spec)
    ensures RoutingModel(spec.selector).Some? ==> RoutingModel(spec.selector).value in ModelKeys(spec)
  {
  }

  lemma {:induction false} LogicalKeysAreLocal(candidates: seq<ModelRef>, a: map<ModelRef, Facts>, b: map<ModelRef, Facts>)
    requires forall candidate | candidate in candidates :: Get(a, candidate) == Get(b, candidate)
    ensures LogicalKeys(candidates, a) == LogicalKeys(candidates, b)
  {
    if candidates != [] {
      LogicalKeysAreLocal(candidates[..|candidates| - 1], a, b);
      assert candidates[|candidates| - 1] in candidates;
    }
  }

  lemma PoolIsLocal(spec: Spec, a: Registries, b: Registries)
    requires Agree(spec, a, b)
    ensures PoolIssues(spec, a) == PoolIssues(spec, b)
  {
    hide Each, NoRepeats, Get, CandidateIssues, LogicalKeys, ModelKeys;
    CandidateKeys(spec);
    forall i: nat | i < |spec.candidates|
      ensures CandidateCheck(spec, a)(i) == CandidateCheck(spec, b)(i)
    {
      assert spec.candidates[i] in ModelKeys(spec);
    }
    EachAlike(|spec.candidates|, CandidateCheck(spec, a), CandidateCheck(spec, b));
    LogicalKeysAreLocal(spec.candidates, a.models, b.models);
  }

  lemma {:induction false} DeclaredIsKey(fields: seq<InputField>, name: string)
    ensures Declared(fields, name).Some? ==>
              exists field :: field in fields && field.name == name && field.version == Declared(fields, name).value
  {
    if fields != [] && fields[|fields| - 1].name != name {
      DeclaredIsKey(fields[..|fields| - 1], name);
    } else if fields != [] {
      assert fields[|fields| - 1] in fields;
    }
  }

  lemma ConditionIsLocal(spec: Spec, a: Registries, b: Registries, rule: Rule, index: nat)
    requires Agree(spec, a, b)
    ensures ConditionIssues(spec, a, rule, index) == ConditionIssues(spec, b, rule, index)
  {
    hide PredicateOk, Get, Declared;
    DeclaredIsKey(spec.fields, rule.condition.field);
    var version := Declared(spec.fields, rule.condition.field);
    if version.Some? {
      assert (rule.condition.field, version.value) in FieldKeys(spec);
    }
  }

  lemma RulesAreLocal(spec: Spec, a: Registries, b: Registries)
    requires Agree(spec, a, b)
    ensures RuleIssues(spec, a) == RuleIssues(spec, b)
  {
    hide Each, NoRepeats, ConditionIssues, Get, OutsideCheck;
    forall i: nat | i < |spec.rules|
      ensures RuleCheck(spec, a)(i) == RuleCheck(spec, b)(i)
    {
      ConditionIsLocal(spec, a, b, spec.rules[i], i);
      assert spec.rules[i] in spec.rules;
      assert spec.rules[i].action.UseProfile? ==> spec.rules[i].action.profile in ProfileKeys(spec);
    }
    EachAlike(|spec.rules|, RuleCheck(spec, a), RuleCheck(spec, b));
  }

  lemma {:induction false} FactsOfIsLocal(candidates: seq<ModelRef>, a: map<ModelRef, Facts>, b: map<ModelRef, Facts>, id: string)
    requires forall candidate | candidate in candidates :: Get(a, candidate) == Get(b, candidate)
    ensures FactsOf(candidates, a, id) == FactsOf(candidates, b, id)
  {
    if candidates != [] {
      assert candidates[|candidates| - 1] in candidates;
      FactsOfIsLocal(candidates[..|candidates| - 1], a, b, id);
    }
  }

  lemma SelectorIsLocal(spec: Spec, a: Registries, b: Registries)
    requires Agree(spec, a, b)
    ensures SelectorIssues(spec, a) == SelectorIssues(spec, b)
  {
    hide Each, NoRepeats, Get, FactsOf, RoutingIssues, ExactIssues, SubsetIssues, EvaluationOk, ModelKeys;
    CandidateKeys(spec);
    match spec.selector
    case Semantic(routing, _, models) =>
      forall i: nat | i < |models|
        ensures EligibleCheck(spec, a, models)(i) == EligibleCheck(spec, b, models)(i)
      {
        FactsOfIsLocal(spec.candidates, a.models, b.models, models[i]);
      }
      EachAlike(|models|, EligibleCheck(spec, a, models), EligibleCheck(spec, b, models));
    case Qos(profile) => assert profile in ProfileKeys(spec);
    case _ =>
  }

  lemma PolicyIsLocal(spec: Spec, a: Registries, b: Registries)
    requires Agree(spec, a, b)
    ensures PolicyIssues(spec, a) == PolicyIssues(spec, b)
  {
    hide NoRepeats, Get, ExactIssues;
    if spec.policy.Some? {
      assert spec.policy.value.profile in ProfileKeys(spec);
    }
  }

  /** Registries that agree on the fetched entries give the same issues, or the same plan. */
  lemma CompilationIsLocal(spec: Spec, a: Registries, b: Registries)
    requires Agree(spec, a, b)
    ensures Issues(spec, a) == Issues(spec, b)
    ensures Accepted(spec, a) <==> Accepted(spec, b)
    ensures Accepted(spec, a) ==> PlanOf(spec, a) == PlanOf(spec, b)
  {
    hide NoRepeats, ContextIssues, PoolIssues, RuleIssues, SelectorIssues, ResilienceIssues, PolicyIssues, Accepted, PlanOf, Agree;
    ContextIsLocal(spec, a, b);
    PoolIsLocal(spec, a, b);
    RulesAreLocal(spec, a, b);
    SelectorIsLocal(spec, a, b);
    PolicyIsLocal(spec, a, b);
    NoIssuesMeansAccepted(spec, a);
    NoIssuesMeansAccepted(spec, b);
    if Accepted(spec, a) {
      PlanIsLocal(spec, a, b);
    }
  }

  lemma ProfileRefsAreKeys(spec: Spec)
    ensures forall profile | profile in ProfileRefs(spec) :: profile in ProfileKeys(spec)
  {
    RuleProfilesAre(spec.rules);
  }

  lemma PlanIsLocal(spec: Spec, a: Registries, b: Registries)
    requires Agree(spec, a, b) && Accepted(spec, a) && Accepted(spec, b)
    ensures PlanOf(spec, a) == PlanOf(spec, b)
  {
    hide NoRepeats, Sort, SortedSet, ContextOk, PoolOk, RulesOk, SelectorOk, ResilienceOk, PolicyOk, ModelKeys, ProfileKeys,
         ProfileRefs, NormalizedSelector, NormalizedResilience, EffectiveCapabilities, TotalPreorder, TotalOrder;
    CandidateKeys(spec);
    ProfileRefsAreKeys(spec);
    ListOrders();
    OrderIsPreorder();
    SortSorts(ById, spec.candidates);
    SortedSetIsStrict(ByIdAndVersion, ProfileRefs(spec));
    LookupsArePresent(spec, a);
    LookupsArePresent(spec, b);
    var candidates := Sort(ById, spec.candidates);
    forall candidate | candidate in candidates
      ensures a.models[candidate] == b.models[candidate]
    {
      assert candidate in multiset(candidates);
      assert candidate in ModelKeys(spec);
      assert Get(a.models, candidate) == Get(b.models, candidate);
    }
    var profiles := SortedSet(ByIdAndVersion, ProfileRefs(spec));
    forall profile | profile in profiles
      ensures a.profiles[profile] == b.profiles[profile]
    {
      assert Get(a.profiles, profile) == Get(b.profiles, profile);
    }
    assert FactsFor(candidates, a.models) == FactsFor(candidates, b.models);
    assert ProfilesFor(profiles, a.profiles) == ProfilesFor(profiles, b.profiles);
    if RoutingModel(spec.selector).Some? {
      var routing := RoutingModel(spec.selector).value;
      assert Get(a.models, routing) == Get(b.models, routing);
    }
  }

  /** What the service compiles from its fetched rows is what the whole registries would give. */
  lemma FetchedRowsSuffice(spec: Spec, registries: Registries)
    ensures Issues(spec, Fetched(spec, registries)) == Issues(spec, registries)
    ensures Accepted(spec, registries) ==>
              Accepted(spec, Fetched(spec, registries)) && PlanOf(spec, Fetched(spec, registries)) == PlanOf(spec, registries)
  {
    hide Issues, Accepted, PlanOf, Fetched;
    FetchedAgrees(spec, registries);
    CompilationIsLocal(spec, registries, Fetched(spec, registries));
  }
}
