/** The plan that a specification compiles to. */
module RouterPlans {
  import opened Wrappers
  import opened Orders
  import opened TextOrder
  import opened RouterSpec
  import opened RouterChecks
  import opened RouterSoundness

  /** The body of a plan, apart from the digest of the specification. */
  datatype Plan = Plan(
    identity: Identity,
    fields: seq<InputField>,
    candidates: seq<Facts>,
    routingModel: Option<Facts>,
    profiles: seq<Profile>,
    eligibility: Eligibility,
    rules: seq<Rule>,
    selector: Selector,
    resilience: Resilience,
    stickiness: string,
    policy: Option<QosPolicy>)

  // ----- The orders in which a plan lists things -----

  predicate ByName(a: InputField, b: InputField) {
    AtMost(a.name, b.name)
  }

  predicate ById(a: ModelRef, b: ModelRef) {
    AtMost(a.id, b.id)
  }

  predicate ByModel(a: Allocation, b: Allocation) {
    AtMost(a.model, b.model)
  }

  predicate ByIdAndVersion(a: ProfileRef, b: ProfileRef) {
    AtMost(a.id, b.id) && (a.id == b.id ==> a.version <= b.version)
  }

  lemma ListOrders()
    ensures TotalPreorder(ByName) && TotalPreorder(ById) && TotalPreorder(ByModel) && TotalOrder(ByIdAndVersion)
  {
    hide AtMost;
    AtMostIsTotalOrder();
    forall a, b
      ensures ByIdAndVersion(a, b) || ByIdAndVersion(b, a)
    {
      assert AtMost(a.id, b.id) || AtMost(b.id, a.id);
    }
    forall a, b, c | ByIdAndVersion(a, b) && ByIdAndVersion(b, c)
      ensures ByIdAndVersion(a, c)
    {
      assert AtMost(a.id, c.id);
      if a.id == c.id {
        assert AtMost(a.id, b.id) && AtMost(b.id, a.id);
      }
    }
  }

  // ----- The plan -----

  function EffectiveCapabilities(spec: Spec): seq<string> {
    spec.eligibility.capabilities
    + (if spec.identity.tools == Required then ["tools"] else [])
    + (if spec.identity.streaming == Required then ["streaming"] else [])
  }

  /** The profiles that rules, selector and policy refer to. */
  function ProfileRefs(spec: Spec): seq<ProfileRef> {
    RuleProfiles(spec.rules)
    + (if spec.selector.Qos? then [spec.selector.profile] else [])
    + match spec.policy
      case Some(policy) => [policy.profile]
      case None => []
  }

  function RuleProfiles(rules: seq<Rule>): seq<ProfileRef> {
    if rules == [] then []
    else
      var last := rules[|rules| - 1];
      RuleProfiles(rules[..|rules| - 1]) + if last.action.UseProfile? then [last.action.profile] else []
  }

  function NormalizedSelector(selector: Selector): Selector {
    match selector
    case Weighted(allocations) => Weighted(Sort(ByModel, allocations))
    case Semantic(routing, mode, models) => Semantic(routing, mode, Sort(AtMost, models))
    case Custom(routing, evaluation, models) => Custom(routing, evaluation, Sort(AtMost, models))
    case _ => selector
  }

  function NormalizedResilience(resilience: Resilience): Resilience {
    Resilience(
      resilience.retry.(events := SortedSet(AtMost, resilience.retry.events)),
      resilience.fallback.(events := SortedSet(AtMost, resilience.fallback.events)),
      resilience.failoverBeforeFirstByte)
  }

  function FactsFor(refs: seq<ModelRef>, models: map<ModelRef, Facts>): seq<Facts>
    requires forall model | model in refs :: model in models
  {
    seq(|refs|, i requires 0 <= i < |refs| => models[refs[i]])
  }

  function ProfilesFor(refs: seq<ProfileRef>, profiles: map<ProfileRef, Profile>): seq<Profile>
    requires forall profile | profile in refs :: profile in profiles
  {
    seq(|refs|, i requires 0 <= i < |refs| => profiles[refs[i]])
  }

  lemma {:induction false} RuleProfilesAre(rules: seq<Rule>)
    ensures forall profile :: profile in RuleProfiles(rules)
                              <==> exists rule :: rule in rules && rule.action.UseProfile? && rule.action.profile == profile
  {
    if rules != [] {
      assert rules == rules[..|rules| - 1] + [rules[|rules| - 1]];
      RuleProfilesAre(rules[..|rules| - 1]);
    }
  }

  /** In an accepted specification every candidate and every profile that the plan lists is registered. */
  lemma LookupsArePresent(spec: Spec, registries: Registries)
    requires Accepted(spec, registries)
    ensures forall candidate | candidate in Sort(ById, spec.candidates) :: candidate in registries.models
    ensures forall profile | profile in SortedSet(ByIdAndVersion, ProfileRefs(spec)) :: profile in registries.profiles
    ensures RoutingModel(spec.selector).Some? ==> RoutingModel(spec.selector).value in registries.models
  {
    hide NoRepeats, AtMost, SetOf, ContextOk, ResilienceOk, Eligible, ConditionOk, TotalPreorder, TotalOrder, SortedSet;
    ListOrders();
    OrderIsPreorder();
    SortSorts(ById, spec.candidates);
    SortedSetIsStrict(ByIdAndVersion, ProfileRefs(spec));
    RuleProfilesAre(spec.rules);
    forall candidate | candidate in Sort(ById, spec.candidates)
      ensures candidate in registries.models
    {
      assert candidate in multiset(Sort(ById, spec.candidates));
      CandidatesAreEligible(spec, registries, candidate);
    }
    forall rule | rule in spec.rules && rule.action.UseProfile?
      ensures rule.action.profile in registries.profiles
    {
      assert ActionOk(spec, registries, rule.action);
    }
  }

  lemma OrderIsPreorder()
    ensures TotalOrder(ByIdAndVersion) ==> TotalPreorder(ByIdAndVersion)
  {
  }

  function PlanOf(spec: Spec, registries: Registries): Plan
    requires Accepted(spec, registries)
  {
    LookupsArePresent(spec, registries);
    Plan(
      spec.identity.(operations := Sort(AtMost, spec.identity.operations)),
      Sort(ByName, spec.fields),
      FactsFor(Sort(ById, spec.candidates), registries.models),
      match RoutingModel(spec.selector) { case Some(model) => Some(registries.models[model]) case None => None },
      ProfilesFor(SortedSet(ByIdAndVersion, ProfileRefs(spec)), registries.profiles),
      Eligibility(SortedSet(AtMost, EffectiveCapabilities(spec)), spec.eligibility.window,
                  SortedSet(AtMost, spec.eligibility.providers), SortedSet(AtMost, spec.eligibility.zones)),
      spec.rules,
      NormalizedSelector(spec.selector),
      NormalizedResilience(spec.resilience),
      spec.stickiness,
      spec.policy)
  }

  // ----- What a plan holds -----

  /** The same items, in some order. */
  predicate Permutes<T(==)>(listed: seq<T>, values: seq<T>) {
    multiset(listed) == multiset(values)
  }

  predicate Ascending(texts: seq<string>) {
    forall i, j | 0 <= i < j < |texts| :: AtMost(texts[i], texts[j])
  }

  /** Each member once, in order. */
  ghost predicate ListsOnce(listed: seq<string>, members: iset<string>) {
    && Ascending(listed) && (forall i, j | 0 <= i < j < |listed| :: listed[i] != listed[j])
    && forall item :: item in listed <==> item in members
  }

  ghost predicate SelectorFits(listed: Selector, written: Selector) {
    match written
    case Priority(_) => listed == written
    case Qos(_) => listed == written
    case Weighted(allocations) =>
      && listed.Weighted? && Permutes(listed.allocations, allocations)
      && forall i, j | 0 <= i < j < |listed.allocations| :: AtMost(listed.allocations[i].model, listed.allocations[j].model)
    case Semantic(routing, mode, models) =>
      listed.Semantic? && listed.routing == routing && listed.mode == mode && Permutes(listed.models, models) && Ascending(listed.models)
    case Custom(routing, evaluation, models) =>
      listed.Custom? && listed.routing == routing && listed.evaluation == evaluation && Permutes(listed.models, models) && Ascending(listed.models)
  }

  ghost predicate ResilienceFits(listed: Resilience, written: Resilience) {
    && listed.retry.maxAttempts == written.retry.maxAttempts
    && listed.retry.respectRetryAfter == written.retry.respectRetryAfter
    && ListsOnce(listed.retry.events, iset event | event in written.retry.events)
    && listed.fallback.order == written.fallback.order
    && ListsOnce(listed.fallback.events, iset event | event in written.fallback.events)
    && listed.failoverBeforeFirstByte == written.failoverBeforeFirstByte
  }

  /** A router that requires tools or streaming demands them of its models too. */
  ghost predicate EligibilityFits(listed: Eligibility, spec: Spec) {
    && ListsOnce(listed.capabilities,
                 iset capability | || capability in spec.eligibility.capabilities
                                   || (capability == "tools" && spec.identity.tools == Required)
                                   || (capability == "streaming" && spec.identity.streaming == Required))
    && listed.window == spec.eligibility.window
    && ListsOnce(listed.providers, iset provider | provider in spec.eligibility.providers)
    && ListsOnce(listed.zones, iset zone | zone in spec.eligibility.zones)
  }

  ghost predicate Mentions(spec: Spec, profile: ProfileRef) {
    || (exists rule :: rule in spec.rules && rule.action == UseProfile(profile))
    || spec.selector == Qos(profile)
    || (spec.policy.Some? && spec.policy.value.profile == profile)
  }

  /** The registered facts of the candidates, in the order of their ids. */
  ghost predicate CandidatesFit(listed: seq<Facts>, spec: Spec, registries: Registries) {
    exists order: seq<ModelRef> ::
      && Permutes(order, spec.candidates) && |listed| == |order|
      && (forall i, j | 0 <= i < j < |order| :: AtMost(order[i].id, order[j].id))
      && forall i | 0 <= i < |order| :: order[i] in registries.models && listed[i] == registries.models[order[i]]
  }

  /** The registered profiles that the specification mentions, in the order of their ids and versions. */
  ghost predicate ProfilesFit(listed: seq<Profile>, spec: Spec, registries: Registries) {
    exists order: seq<ProfileRef> ::
      && (forall profile :: profile in order <==> Mentions(spec, profile)) && |listed| == |order|
      && (forall i, j | 0 <= i < j < |order| ::
            AtMost(order[i].id, order[j].id) && (order[i].id == order[j].id ==> order[i].version < order[j].version))
      && forall i | 0 <= i < |order| :: order[i] in registries.profiles && listed[i] == registries.profiles[order[i]]
  }

  /** A plan says what its specification says, with registered facts for references and unordered parts in order. */
  ghost predicate PlanFits(plan: Plan, spec: Spec, registries: Registries) {
    && plan.identity.alias == spec.identity.alias && plan.identity.description == spec.identity.description
    && plan.identity.streaming == spec.identity.streaming && plan.identity.tools == spec.identity.tools
    && Permutes(plan.identity.operations, spec.identity.operations) && Ascending(plan.identity.operations)
    && Permutes(plan.fields, spec.fields)
    && (forall i, j | 0 <= i < j < |plan.fields| :: AtMost(plan.fields[i].name, plan.fields[j].name))
    && CandidatesFit(plan.candidates, spec, registries)
    && (plan.routingModel.Some? <==> spec.selector.Semantic? || spec.selector.Custom?)
    && (plan.routingModel.Some? ==>
          spec.selector.routing in registries.models && plan.routingModel.value == registries.models[spec.selector.routing])
    && ProfilesFit(plan.profiles, spec, registries)
    && EligibilityFits(plan.eligibility, spec)
    && plan.rules == spec.rules
    && SelectorFits(plan.selector, spec.selector)
    && ResilienceFits(plan.resilience, spec.resilience)
    && plan.stickiness == spec.stickiness
    && plan.policy == spec.policy
  }

  lemma SortedTextsList(values: seq<string>)
    ensures Permutes(Sort(AtMost, values), values) && Ascending(Sort(AtMost, values))
  {
    hide AtMost, Sort;
    AtMostIsTotalOrder();
    SortSorts(AtMost, values);
  }

  lemma SortedSetLists(values: seq<string>, members: iset<string>)
    requires forall item :: item in values <==> item in members
    ensures ListsOnce(SortedSet(AtMost, values), members)
  {
    hide AtMost, SortedSet;
    AtMostIsTotalOrder();
    SortedSetIsStrict(AtMost, values);
  }

  lemma SelectorIsFit(selector: Selector)
    ensures SelectorFits(NormalizedSelector(selector), selector)
  {
    hide AtMost, Sort;
    ListOrders();
    match selector
    case Weighted(allocations) => SortSorts(ByModel, allocations);
    case Semantic(_, _, models) => SortedTextsList(models);
    case Custom(_, _, models) => SortedTextsList(models);
    case _ =>
  }

  lemma ResilienceIsFit(resilience: Resilience)
    ensures ResilienceFits(NormalizedResilience(resilience), resilience)
  {
    hide ListsOnce, SortedSet;
    SortedSetLists(resilience.retry.events, iset event | event in resilience.retry.events);
    SortedSetLists(resilience.fallback.events, iset event | event in resilience.fallback.events);
  }

  lemma CandidatesAreFit(spec: Spec, registries: Registries)
    requires Accepted(spec, registries)
    ensures forall candidate | candidate in Sort(ById, spec.candidates) :: candidate in registries.models
    ensures CandidatesFit(FactsFor(Sort(ById, spec.candidates), registries.models), spec, registries)
  {
    hide Accepted, AtMost, Sort;
    LookupsArePresent(spec, registries);
    ListOrders();
    SortSorts(ById, spec.candidates);
  }

  lemma MentionedProfiles(spec: Spec, profile: ProfileRef)
    ensures profile in ProfileRefs(spec) <==> Mentions(spec, profile)
  {
    RuleProfilesAre(spec.rules);
    if profile in RuleProfiles(spec.rules) {
      var rule :| rule in spec.rules && rule.action.UseProfile? && rule.action.profile == profile;
      assert rule.action == UseProfile(profile);
    }
  }

  lemma ProfilesAreFit(spec: Spec, registries: Registries)
    requires Accepted(spec, registries)
    ensures forall profile | profile in SortedSet(ByIdAndVersion, ProfileRefs(spec)) :: profile in registries.profiles
    ensures ProfilesFit(ProfilesFor(SortedSet(ByIdAndVersion, ProfileRefs(spec)), registries.profiles), spec, registries)
  {
    hide Accepted, AtMost, ProfileRefs, Mentions, SortedSet;
    LookupsArePresent(spec, registries);
    ListOrders();
    forall profile
      ensures profile in ProfileRefs(spec) <==> Mentions(spec, profile)
    {
      MentionedProfiles(spec, profile);
    }
    SortedSetIsStrict(ByIdAndVersion, ProfileRefs(spec));
  }

  lemma PlanIsFit(spec: Spec, registries: Registries)
    requires Accepted(spec, registries)
    ensures PlanFits(PlanOf(spec, registries), spec, registries)
  {
    hide Accepted, AtMost, ListsOnce, Sort, CandidatesFit, ProfilesFit, SelectorFits, ResilienceFits,
      NormalizedSelector, NormalizedResilience, ProfileRefs, FactsFor, ProfilesFor, SortedSet;
    ListOrders();
    LookupsArePresent(spec, registries);
    SortedTextsList(spec.identity.operations);
    SortSorts(ByName, spec.fields);
    CandidatesAreFit(spec, registries);
    ProfilesAreFit(spec, registries);
    SelectorIsFit(spec.selector);
    ResilienceIsFit(spec.resilience);
    SortedSetLists(EffectiveCapabilities(spec),
                   iset capability | || capability in spec.eligibility.capabilities
                                     || (capability == "tools" && spec.identity.tools == Required)
                                     || (capability == "streaming" && spec.identity.streaming == Required));
    SortedSetLists(spec.eligibility.providers, iset provider | provider in spec.eligibility.providers);
    SortedSetLists(spec.eligibility.zones, iset zone | zone in spec.eligibility.zones);
  }

  method Compile(spec: Spec, registries: Registries) returns (r: Result<Plan, seq<Issue>>)
    ensures r.Ok? <==> Accepted(spec, registries)
    ensures r.Ok? ==> r.value == PlanOf(spec, registries) && PlanFits(r.value, spec, registries)
    ensures r.Err? ==> r.error == Issues(spec, registries) && r.error != []
  {
    hide Issues, Accepted, PlanOf, PlanFits;
    var list := new IssueList();
    list.Validate(spec, registries);
    NoIssuesMeansAccepted(spec, registries);
    if list.issues != [] {
      return Err(list.issues);
    }
    PlanIsFit(spec, registries);
    return Ok(PlanOf(spec, registries));
  }

  // ----- Canonical form -----

  predicate SameSelector(a: Selector, b: Selector) {
    match (a, b)
    case (Weighted(left), Weighted(right)) => multiset(left) == multiset(right)
    case (Semantic(left, leftMode, leftModels), Semantic(right, rightMode, rightModels)) =>
      left == right && leftMode == rightMode && multiset(leftModels) == multiset(rightModels)
    case (Custom(left, leftEvaluation, leftModels), Custom(right, rightEvaluation, rightModels)) =>
      left == right && leftEvaluation == rightEvaluation && multiset(leftModels) == multiset(rightModels)
    case _ => a == b
  }

  predicate SameResilience(a: Resilience, b: Resilience) {
    && a.retry == b.retry.(events := a.retry.events) && multiset(a.retry.events) == multiset(b.retry.events)
    && a.fallback == b.fallback.(events := a.fallback.events) && multiset(a.fallback.events) == multiset(b.fallback.events)
    && a.failoverBeforeFirstByte == b.failoverBeforeFirstByte
  }

  /** The same specification with some of its unordered parts written in another order. */
  predicate Reordered(a: Spec, b: Spec) {
    && a.identity == b.identity.(operations := a.identity.operations)
    && multiset(a.identity.operations) == multiset(b.identity.operations)
    && multiset(a.fields) == multiset(b.fields)
    && multiset(a.candidates) == multiset(b.candidates)
    && multiset(a.eligibility.capabilities) == multiset(b.eligibility.capabilities)
    && a.eligibility.window == b.eligibility.window
    && multiset(a.eligibility.providers) == multiset(b.eligibility.providers)
    && multiset(a.eligibility.zones) == multiset(b.eligibility.zones)
    && a.rules == b.rules && SameSelector(a.selector, b.selector) && SameResilience(a.resilience, b.resilience)
    && a.stickiness == b.stickiness && a.policy == b.policy
  }

  lemma SameMembers<T>(a: seq<T>, b: seq<T>)
    requires multiset(a) == multiset(b)
    ensures forall item :: item in a <==> item in b
    ensures SetOf(a) == SetOf(b) && |a| == |b| && (a == [] <==> b == [])
  {
    assert |multiset(a)| == |a| && |multiset(b)| == |b|;
    assert forall item :: item in a <==> item in multiset(a);
    assert forall item :: item in b <==> item in multiset(b);
  }

  lemma {:induction false} RepeatsAreCounted<T>(values: seq<T>)
    ensures NoRepeats(values) <==> forall value :: multiset(values)[value] <= 1
  {
    if NoRepeats(values) {
      forall value
        ensures multiset(values)[value] <= 1
      {
        CountOfDistinct(values, value);
      }
    } else {
      var i, j :| 0 <= i < j < |values| && values[i] == values[j];
      TwiceIsTwo(values, i, j);
    }
  }

  lemma SameRepeats<T>(a: seq<T>, b: seq<T>)
    requires multiset(a) == multiset(b)
    ensures NoRepeats(a) <==> NoRepeats(b)
  {
    RepeatsAreCounted(a);
    RepeatsAreCounted(b);
  }

  /** What both kinds of order-free list agree on. */
  lemma SameList<T>(a: seq<T>, b: seq<T>)
    requires multiset(a) == multiset(b)
    ensures forall item :: item in a <==> item in b
    ensures SetOf(a) == SetOf(b) && (a == [] <==> b == []) && (NoRepeats(a) <==> NoRepeats(b))
  {
    SameMembers(a, b);
    SameRepeats(a, b);
  }

  /** Keys repeat exactly when a value repeats or two values share a key. */
  lemma KeysRepeat<T>(key: T -> string, values: seq<T>)
    ensures NoRepeats(Keys(key, values))
            <==> NoRepeats(values) && forall a, b | a in values && b in values && key(a) == key(b) :: a == b
  {
    var keys := Keys(key, values);
    if NoRepeats(keys) {
      forall i, j | 0 <= i < |values| && 0 <= j < |values| && i != j
        ensures key(values[i]) != key(values[j])
      {
        assert keys[i] != keys[j];
      }
    }
  }

  lemma SameKeys<T>(key: T -> string, a: seq<T>, b: seq<T>)
    requires multiset(a) == multiset(b)
    ensures (NoRepeats(Keys(key, a)) <==> NoRepeats(Keys(key, b))) && SetOf(Keys(key, a)) == SetOf(Keys(key, b))
  {
    SameList(a, b);
    KeysRepeat(key, a);
    KeysRepeat(key, b);
    KeySetIs(key, a);
    KeySetIs(key, b);
  }

  lemma KeySetIs<T>(key: T -> string, values: seq<T>)
    ensures SetOf(Keys(key, values)) == set value | value in values :: key(value)
  {
    forall value | value in values
      ensures key(value) in Keys(key, values)
    {
      var i :| 0 <= i < |values| && values[i] == value;
      assert Keys(key, values)[i] == key(value);
    }
  }

  lemma RemovedAt<T>(values: seq<T>, i: nat)
    requires i < |values|
    ensures multiset(values[..i] + values[i+1..]) == multiset(values) - multiset{values[i]}
    ensures values[i] in multiset(values)
  {
    assert values == values[..i] + [values[i]] + values[i+1..];
  }

  lemma FoundIn<T>(values: seq<T>, value: T) returns (i: nat)
    requires value in multiset(values)
    ensures i < |values| && values[i] == value
  {
    assert value in values;
    i :| 0 <= i < |values| && values[i] == value;
  }

  lemma {:induction false} SameBasisPoints(a: seq<Allocation>, b: seq<Allocation>)
    requires multiset(a) == multiset(b)
    ensures BasisPoints(a) == BasisPoints(b)
  {
    if a == [] {
      assert |multiset(b)| == 0;
    } else {
      var last := |a| - 1;
      RemovedAt(a, last);
      assert a[..last] + a[last+1..] == a[..last];
      var i := FoundIn(b, a[last]);
      RemovedAt(b, i);
      SameBasisPoints(a[..last], b[..i] + b[i+1..]);
      BasisPointsWithout(b, i);
    }
  }

  lemma {:induction false} BasisPointsWithout(allocations: seq<Allocation>, i: nat)
    requires i < |allocations|
    ensures BasisPoints(allocations) == BasisPoints(allocations[..i] + allocations[i+1..]) + allocations[i].basisPoints
  {
    var last := |allocations| - 1;
    if i == last {
      assert allocations[..i] + allocations[i+1..] == allocations[..last];
    } else {
      BasisPointsWithout(allocations[..last], i);
      var without := allocations[..i] + allocations[i+1..];
      assert without[..|without| - 1] == allocations[..last][..i] + allocations[..last][i+1..];
    }
  }

  // ----- Acceptance forgets order -----

  lemma SamePool(a: Spec, b: Spec)
    requires Reordered(a, b)
    ensures CandidateSet(a) == CandidateSet(b) && (NoRepeats(ModelIds(a.candidates)) <==> NoRepeats(ModelIds(b.candidates)))
  {
    hide NoRepeats, SetOf;
    SameKeys(CandidateId, a.candidates, b.candidates);
  }

  lemma ContextForgetsOrder(a: Spec, b: Spec, registries: Registries)
    requires Reordered(a, b)
    ensures ContextOk(a, registries) <==> ContextOk(b, registries)
  {
    hide NoRepeats, SetOf, FieldOk;
    SameKeys(FieldName, a.fields, b.fields);
    SameList(a.fields, b.fields);
  }

  lemma PoolForgetsOrder(a: Spec, b: Spec, registries: Registries)
    requires Reordered(a, b)
    ensures PoolOk(a, registries) <==> PoolOk(b, registries)
  {
    hide NoRepeats, SetOf, Available, SameSelector, SameResilience;
    SameList(a.candidates, b.candidates);
    SameList(a.identity.operations, b.identity.operations);
    SameList(a.eligibility.capabilities, b.eligibility.capabilities);
    SameList(a.eligibility.providers, b.eligibility.providers);
    SameList(a.eligibility.zones, b.eligibility.zones);
    assert forall facts :: Eligible(a, facts) <==> Eligible(b, facts);
    assert forall candidate :: CandidateOk(a, registries, candidate) <==> CandidateOk(b, registries, candidate);
  }

  lemma RulesForgetOrder(a: Spec, b: Spec, registries: Registries)
    requires Reordered(a, b)
    ensures RulesOk(a, registries) <==> RulesOk(b, registries)
  {
    hide NoRepeats, SetOf, FieldOk, PredicateOk, CandidateSet, ProfileOk, SameSelector, SameResilience;
    SamePool(a, b);
    SameList(a.fields, b.fields);
    assert forall condition :: ConditionOk(a, registries, condition) <==> ConditionOk(b, registries, condition);
  }

  lemma RoutingForgetsOrder(a: Spec, b: Spec, registries: Registries, routing: ModelRef)
    requires Reordered(a, b)
    ensures RoutingOk(a, registries, routing) <==> RoutingOk(b, registries, routing)
  {
    hide NoRepeats, SetOf, SameSelector, SameResilience, Available;
    SameList(a.identity.operations, b.identity.operations);
    if Available(routing, Get(registries.models, routing)) {
      AvailableIsKnown(routing, registries.models);
    }
  }

  lemma FoundryForgetsOrder(a: Spec, b: Spec, registries: Registries, models: seq<string>, others: seq<string>)
    requires Reordered(a, b) && multiset(models) == multiset(others)
    ensures FoundryOk(a, registries, models) <==> FoundryOk(b, registries, others)
  {
    hide NoRepeats, SetOf, SameSelector, SameResilience;
    SameList(a.candidates, b.candidates);
    SameList(models, others);
  }

  lemma SelectorForgetsOrder(a: Spec, b: Spec, registries: Registries)
    requires Reordered(a, b)
    ensures SelectorOk(a, registries) <==> SelectorOk(b, registries)
  {
    hide NoRepeats, SetOf, CandidateSet, RoutingOk, FoundryOk, ProfileOk, SameResilience, BasisPoints, Keys;
    SamePool(a, b);
    match a.selector
    case Weighted(allocations) =>
      SameKeys(AllocatedModel, allocations, b.selector.allocations);
      SameBasisPoints(allocations, b.selector.allocations);
    case Semantic(routing, _, models) =>
      SameList(models, b.selector.models);
      RoutingForgetsOrder(a, b, registries, routing);
      FoundryForgetsOrder(a, b, registries, models, b.selector.models);
    case Custom(routing, _, models) =>
      SameList(models, b.selector.models);
      RoutingForgetsOrder(a, b, registries, routing);
    case _ =>
  }

  lemma ResilienceForgetsOrder(a: Spec, b: Spec)
    requires Reordered(a, b)
    ensures ResilienceOk(a) <==> ResilienceOk(b)
  {
    hide NoRepeats, SetOf, CandidateSet, SameSelector;
    SamePool(a, b);
    SameList(a.resilience.retry.events, b.resilience.retry.events);
    SameList(a.resilience.fallback.events, b.resilience.fallback.events);
  }

  /** Writing unordered parts in another order changes neither acceptance nor the plan. */
  lemma PlanForgetsOrder(a: Spec, b: Spec, registries: Registries)
    requires Reordered(a, b)
    ensures Accepted(a, registries) <==> Accepted(b, registries)
    ensures Accepted(a, registries) ==> PlanOf(a, registries) == PlanOf(b, registries)
  {
    hide NoRepeats, ContextOk, PoolOk, RulesOk, SelectorOk, ResilienceOk, PlanOf, CandidateSet;
    SamePool(a, b);
    SameRepeats(a.identity.operations, b.identity.operations);
    ContextForgetsOrder(a, b, registries);
    PoolForgetsOrder(a, b, registries);
    RulesForgetOrder(a, b, registries);
    SelectorForgetsOrder(a, b, registries);
    ResilienceForgetsOrder(a, b);
    if Accepted(a, registries) {
      SamePlan(a, b, registries);
    }
  }

  // ----- The plan forgets order -----

  lemma NoRepeatsDistinguishes<T(!new)>(le: (T, T) -> bool, key: T -> string, values: seq<T>)
    requires NoRepeats(Keys(key, values))
    requires forall x, y :: le(x, y) <==> AtMost(key(x), key(y))
    ensures Distinguishes(le, values)
  {
    hide AtMost;
    AtMostIsTotalOrder();
    forall i, j | 0 <= i < j < |values|
      ensures !(le(values[i], values[j]) && le(values[j], values[i]))
    {
      assert Keys(key, values)[i] != Keys(key, values)[j];
    }
  }

  lemma SortedAlike<T(!new)>(le: (T, T) -> bool, key: T -> string, a: seq<T>, b: seq<T>)
    requires TotalPreorder(le) && NoRepeats(Keys(key, a)) && multiset(a) == multiset(b)
    requires forall x, y :: le(x, y) <==> AtMost(key(x), key(y))
    ensures Sort(le, a) == Sort(le, b)
  {
    NoRepeatsDistinguishes(le, key, a);
    SortForgetsOrder(le, a, b);
  }

  lemma TextsSortedAlike(a: seq<string>, b: seq<string>)
    requires NoRepeats(a) && multiset(a) == multiset(b)
    ensures Sort(AtMost, a) == Sort(AtMost, b)
  {
    hide AtMost;
    AtMostIsTotalOrder();
    SortForgetsOrder(AtMost, a, b);
  }

  lemma SetsSortedAlike(a: seq<string>, b: seq<string>)
    requires forall item :: item in a <==> item in b
    ensures SortedSet(AtMost, a) == SortedSet(AtMost, b)
  {
    AtMostIsTotalOrder();
    SortedSetForgetsOrder(AtMost, a, b);
  }

  lemma SelectorsNormalizedAlike(a: Spec, b: Spec, registries: Registries)
    requires Reordered(a, b) && SelectorOk(a, registries)
    ensures NormalizedSelector(a.selector) == NormalizedSelector(b.selector)
    ensures RoutingModel(a.selector) == RoutingModel(b.selector) && ProfileRefs(a) == ProfileRefs(b)
  {
    hide NoRepeats, SetOf, AtMost, Sort, RoutingOk, FoundryOk, CandidateSet, SameResilience;
    ListOrders();
    match a.selector
    case Weighted(allocations) => SortedAlike(ByModel, AllocatedModel, allocations, b.selector.allocations);
    case Semantic(_, _, models) => TextsSortedAlike(models, b.selector.models);
    case Custom(_, _, models) => TextsSortedAlike(models, b.selector.models);
    case _ =>
  }

  lemma ResilienceNormalizedAlike(a: Resilience, b: Resilience)
    requires SameResilience(a, b)
    ensures NormalizedResilience(a) == NormalizedResilience(b)
  {
    hide SortedSet;
    SameMembers(a.retry.events, b.retry.events);
    SameMembers(a.fallback.events, b.fallback.events);
    SetsSortedAlike(a.retry.events, b.retry.events);
    SetsSortedAlike(a.fallback.events, b.fallback.events);
  }

  lemma EligibilityNormalizedAlike(a: Spec, b: Spec)
    requires Reordered(a, b)
    ensures SortedSet(AtMost, EffectiveCapabilities(a)) == SortedSet(AtMost, EffectiveCapabilities(b))
    ensures SortedSet(AtMost, a.eligibility.providers) == SortedSet(AtMost, b.eligibility.providers)
    ensures SortedSet(AtMost, a.eligibility.zones) == SortedSet(AtMost, b.eligibility.zones)
  {
    hide SortedSet, SameSelector, SameResilience;
    SameMembers(a.eligibility.capabilities, b.eligibility.capabilities);
    SameMembers(a.eligibility.providers, b.eligibility.providers);
    SameMembers(a.eligibility.zones, b.eligibility.zones);
    SetsSortedAlike(EffectiveCapabilities(a), EffectiveCapabilities(b));
    SetsSortedAlike(a.eligibility.providers, b.eligibility.providers);
    SetsSortedAlike(a.eligibility.zones, b.eligibility.zones);
  }

  lemma SamePlan(a: Spec, b: Spec, registries: Registries)
    requires Reordered(a, b) && Accepted(a, registries) && Accepted(b, registries)
    ensures PlanOf(a, registries) == PlanOf(b, registries)
  {
    hide NoRepeats, SetOf, AtMost, Sort, SortedSet, PoolOk, RulesOk, SelectorOk, ResilienceOk, CandidateSet, SameSelector,
         SameResilience, NormalizedSelector, NormalizedResilience, EffectiveCapabilities, ProfileRefs, FactsFor, ProfilesFor;
    ListOrders();
    TextsSortedAlike(a.identity.operations, b.identity.operations);
    SortedAlike(ByName, FieldName, a.fields, b.fields);
    SortedAlike(ById, CandidateId, a.candidates, b.candidates);
    SelectorsNormalizedAlike(a, b, registries);
    ResilienceNormalizedAlike(a.resilience, b.resilience);
    EligibilityNormalizedAlike(a, b);
    LookupsArePresent(a, registries);
    LookupsArePresent(b, registries);
  }
}
