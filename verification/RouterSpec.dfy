/** What an author writes about a model router, and what the registries know. */
module RouterSpec {
  import opened Wrappers

  // ----- The specification -----

  /** How far a router uses streaming or tools. */
  datatype Use = Disabled | Allowed | Required

  datatype ValueType = TextType | IntegerType | NumberType | BooleanType

  datatype Identity = Identity(alias: string, description: string, operations: seq<string>, streaming: Use, tools: Use)
  datatype InputField = InputField(name: string, valueType: ValueType, source: string, version: nat, required: bool)
  datatype ModelRef = ModelRef(id: string, version: nat)
  datatype ProfileRef = ProfileRef(id: string, version: nat)
  datatype Eligibility = Eligibility(capabilities: seq<string>, window: Option<nat>, providers: seq<string>, zones: seq<string>)

  datatype Scalar = Text(text: string) | Whole(number: int) | Decimal(rational: real) | Truth(truth: bool)
  datatype Value = Missing | One(scalar: Scalar) | Many(scalars: seq<Scalar>)
  datatype Operator =
    | Equals | NotEquals | Contains | In | Exists
    | GreaterThan | GreaterThanOrEqual | LessThan | LessThanOrEqual
  datatype Predicate = Predicate(field: string, operator: Operator, value: Value)
  datatype Action = SelectModel(model: string) | ExcludeModels(models: seq<string>) | UseProfile(profile: ProfileRef)
  datatype Rule = Rule(id: string, condition: Predicate, action: Action)

  datatype Allocation = Allocation(model: string, basisPoints: nat)
  datatype Selector =
    | Priority(order: seq<string>)
    | Weighted(allocations: seq<Allocation>)
    | Qos(profile: ProfileRef)
    | Semantic(routing: ModelRef, mode: string, models: seq<string>)
    | Custom(routing: ModelRef, evaluation: string, models: seq<string>)

  datatype Retry = Retry(maxAttempts: nat, events: seq<string>, respectRetryAfter: bool)
  datatype Fallback = Fallback(order: seq<string>, events: seq<string>)
  datatype Resilience = Resilience(retry: Retry, fallback: Fallback, failoverBeforeFirstByte: bool)
  datatype QosPolicy = QosPolicy(profile: ProfileRef, settings: string, staticPriority: bool, fallback: seq<string>)

  datatype Spec = Spec(
    identity: Identity,
    fields: seq<InputField>,
    candidates: seq<ModelRef>,
    eligibility: Eligibility,
    rules: seq<Rule>,
    selector: Selector,
    resilience: Resilience,
    stickiness: string,
    policy: Option<QosPolicy>)

  // ----- The registries -----

  datatype Facts = Facts(id: string, version: nat, logicalKey: string, enabled: bool, operations: seq<string>,
                         capabilities: seq<string>, foundryEligible: bool, window: Option<nat>, provider: string, zone: string)
  datatype FieldEntry = FieldEntry(name: string, version: nat, valueType: ValueType, source: string, enabled: bool)
  datatype Profile = Profile(id: string, version: nat, kind: string, config: string, enabled: bool)
  datatype Evaluation = Evaluation(id: string, routing: ModelRef, models: seq<string>, passed: bool, enabled: bool)

  datatype Registries = Registries(
    models: map<ModelRef, Facts>,
    fields: map<(string, nat), FieldEntry>,
    profiles: map<ProfileRef, Profile>,
    evaluations: map<string, Evaluation>)

  function Get<K, V>(entries: map<K, V>, key: K): Option<V> {
    if key in entries then Some(entries[key]) else None
  }

  function SetOf<T>(values: seq<T>): set<T> {
    set value | value in values
  }

  predicate NoRepeats<T(==)>(values: seq<T>) {
    forall i, j | 0 <= i < j < |values| :: values[i] != values[j]
  }

  function Keys<T>(key: T -> string, values: seq<T>): seq<string> {
    seq(|values|, i requires 0 <= i < |values| => key(values[i]))
  }

  function FieldName(field: InputField): string { field.name }
  function CandidateId(candidate: ModelRef): string { candidate.id }
  function RuleId(rule: Rule): string { rule.id }
  function AllocatedModel(allocation: Allocation): string { allocation.model }

  function Names(fields: seq<InputField>): seq<string> {
    Keys(FieldName, fields)
  }

  function ModelIds(candidates: seq<ModelRef>): seq<string> {
    Keys(CandidateId, candidates)
  }

  function RuleIds(rules: seq<Rule>): seq<string> {
    Keys(RuleId, rules)
  }

  function AllocatedModels(allocations: seq<Allocation>): seq<string> {
    Keys(AllocatedModel, allocations)
  }

  function BasisPoints(allocations: seq<Allocation>): nat {
    if allocations == [] then 0
    else BasisPoints(allocations[..|allocations| - 1]) + allocations[|allocations| - 1].basisPoints
  }

  function CandidateSet(spec: Spec): set<string> {
    SetOf(ModelIds(spec.candidates))
  }

  function RoutingModel(selector: Selector): Option<ModelRef> {
    if selector.Semantic? || selector.Custom? then Some(selector.routing) else None
  }

  // ----- What a compilation looks up -----

  function FieldKeys(spec: Spec): set<(string, nat)> {
    set field | field in spec.fields :: (field.name, field.version)
  }

  function ModelKeys(spec: Spec): set<ModelRef> {
    SetOf(spec.candidates) + match RoutingModel(spec.selector)
                             case Some(model) => {model}
                             case None => {}
  }

  function ProfileKeys(spec: Spec): set<ProfileRef> {
    (set rule | rule in spec.rules && rule.action.UseProfile? :: rule.action.profile)
    + (if spec.selector.Qos? then {spec.selector.profile} else {})
    + match spec.policy
      case Some(policy) => {policy.profile}
      case None => {}
  }

  function EvaluationKeys(spec: Spec): set<string> {
    if spec.selector.Custom? then {spec.selector.evaluation} else {}
  }
}
