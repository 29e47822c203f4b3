/**
  Gateway snapshots, the image upgrade plan, and the two checks an upgrade makes of a
  candidate revision: the full verification before promotion and after it, and the
  tolerant check of a candidate that an interrupted run left behind.

  A digest is modelled by the document it digests, which is to take digests as injective.
 */
module GatewaySnapshots {
  import opened Wrappers

  const IMAGE_OPERATION := "images-generations"
  const UPGRADE_VERSION := "images-v2"

  /** A JSON value of an operation document; the checks tell only null from the rest. */
  datatype Json = Null | Document(text: string)

  type Properties = map<string, Json>

  const IMAGE_OPERATION_PROPERTIES: Properties := map[
    "displayName" := Document("\"Image generations\""),
    "method" := Document("\"POST\""),
    "urlTemplate" := Document("\"/images/generations\""),
    "templateParameters" := Document("[]"),
    "request" := Document("{\"queryParameters\":[],\"headers\":[],\"representations\":[{\"contentType\":\"application/json\"}]}"),
    "responses" := Document("[]")]

  /** A policy text: `shape` is what its digest sees, `trivia` is comments and white space. */
  datatype Policy = Policy(shape: string, trivia: string)

  function PolicyDigest(policy: Policy): string {
    policy.shape
  }

  function PolicyDigests(policies: map<string, Option<Policy>>): map<string, Option<string>> {
    map name | name in policies ::
      if policies[name].Some? then Some(PolicyDigest(policies[name].value)) else None
  }

  lemma SameKeys(a: map<string, Option<Policy>>, b: map<string, Option<Policy>>)
    requires PolicyDigests(a) == PolicyDigests(b)
    ensures a.Keys == b.Keys
  {
    assert PolicyDigests(a).Keys == a.Keys && PolicyDigests(b).Keys == b.Keys;
  }

  lemma SameDigest(a: map<string, Option<Policy>>, b: map<string, Option<Policy>>, name: string)
    requires PolicyDigests(a) == PolicyDigests(b)
    ensures name in a <==> name in b
    ensures name in a ==> (a[name].Some? <==> b[name].Some?)
    ensures name in a && a[name].Some? ==> PolicyDigest(a[name].value) == PolicyDigest(b[name].value)
  {
    assert PolicyDigests(a).Keys == a.Keys && PolicyDigests(b).Keys == b.Keys;
    if name in a {
      assert PolicyDigests(a)[name] == PolicyDigests(b)[name];
    }
  }

  /** What `read` observes of one API revision. */
  datatype Snapshot = Snapshot(
    revision: string,
    api: Properties,
    parent: Policy,
    operations: map<string, Properties>,
    policies: map<string, Option<Policy>>)
  {
    function Fingerprint(): Fingerprint {
      Digested(revision, api, PolicyDigest(parent), operations, PolicyDigests(policies))
    }

    function Operation(name: string): Option<Properties> {
      if name in operations then Some(operations[name]) else None
    }

    function OperationPolicy(name: string): Option<Policy> {
      if name in policies then policies[name] else None
    }
  }

  datatype Fingerprint = Digested(
    revision: string,
    api: Properties,
    parent: string,
    operations: map<string, Properties>,
    policies: map<string, Option<string>>)

  lemma FingerprintTellsRevision(a: Snapshot, b: Snapshot)
    requires a.Fingerprint() == b.Fingerprint()
    ensures a.revision == b.revision
  {
  }

  function WithoutEmptyDerivedPath(value: Properties): Properties {
    map name | name in value && (name != "effectivePath" || value[name] != Null) :: value[name]
  }

  predicate OperationReadbackMatches(expected: Properties, actual: Properties) {
    WithoutEmptyDerivedPath(expected) == WithoutEmptyDerivedPath(actual)
  }

  datatype ImageUpgradePlan = ImageUpgradePlan(
    apiResourceId: string,
    source: Snapshot,
    parent: Policy,
    createOperation: bool,
    initializeImagePolicy: bool,
    revision: string,
    version: string)
  {
    predicate Required() {
      || createOperation
      || initializeImagePolicy
      || PolicyDigest(source.parent) != PolicyDigest(parent)
    }

    /** What planning establishes: both flags record what the source snapshot lacks,
        and an equivalent parent policy is kept as written. */
    predicate Planned() {
      && source.operations.Keys == source.policies.Keys
      && createOperation == (IMAGE_OPERATION !in source.operations)
      && initializeImagePolicy == source.OperationPolicy(IMAGE_OPERATION).None?
      && (PolicyDigest(parent) == PolicyDigest(source.parent) ==> parent == source.parent)
    }

    function ExpectedOperations(): map<string, Properties> {
      if createOperation
      then source.operations[IMAGE_OPERATION := IMAGE_OPERATION_PROPERTIES]
      else source.operations
    }

    function ExpectedPolicies(denial: Policy): map<string, Option<Policy>> {
      if initializeImagePolicy
      then source.policies[IMAGE_OPERATION := Some(denial)]
      else source.policies
    }
  }

  /** The document a conflicting image operation is compared with, key by key. */
  function OperationField(operation: Properties, name: string): Json {
    if name in operation then operation[name]
    else if name == "templateParameters" then Document("[]")
    else Null
  }

  predicate ImageRouteConflicts(operation: Properties) {
    exists name | name in ["method", "urlTemplate", "templateParameters"] ::
      OperationField(operation, name) != IMAGE_OPERATION_PROPERTIES[name]
  }

  /** A POST to the fixed path without template parameters, or without saying so. */
  predicate FixedRoute(operation: Properties) {
    && "method" in operation && operation["method"] == Document("\"POST\"")
    && "urlTemplate" in operation && operation["urlTemplate"] == Document("\"/images/generations\"")
    && ("templateParameters" in operation ==> operation["templateParameters"] == Document("[]"))
  }

  lemma ConflictsUnlessFixedRoute(operation: Properties)
    ensures ImageRouteConflicts(operation) <==> !FixedRoute(operation)
  {
    assert OperationField(operation, "method") != IMAGE_OPERATION_PROPERTIES["method"]
           || OperationField(operation, "urlTemplate") != IMAGE_OPERATION_PROPERTIES["urlTemplate"]
           || OperationField(operation, "templateParameters") != IMAGE_OPERATION_PROPERTIES["templateParameters"]
           <==> ImageRouteConflicts(operation);
    assert "method" != "templateParameters" && "urlTemplate" != "templateParameters" by {
      assert "method"[0] == 'm' && "urlTemplate"[0] == 'u' && "templateParameters"[0] == 't';
    }
  }

  /**
    The plan for a snapshot. The composed parent policy and the revision name, a digest of
    the target, the source fingerprint and the parent, are inputs: composing a policy text
    is not part of this model.
   */
  function PlanImageUpgrade(apiResourceId: string, snapshot: Snapshot, parent: Policy, revision: string)
    : (r: Result<ImageUpgradePlan, string>)
    ensures r.Ok? && snapshot.operations.Keys == snapshot.policies.Keys ==> r.value.Planned()
    ensures r.Ok? ==>
              && r.value.source == snapshot && r.value.apiResourceId == apiResourceId
              && r.value.revision == revision && r.value.version == "images-v2"
              && r.value.parent.shape == parent.shape && r.value.parent in {parent, snapshot.parent}
              && (parent.shape == snapshot.parent.shape ==> r.value.parent == snapshot.parent)
              && (r.value.createOperation <==> "images-generations" !in snapshot.operations)
              && (r.value.initializeImagePolicy <==>
                    "images-generations" !in snapshot.policies || snapshot.policies["images-generations"].None?)
    ensures r.Err? <==> "images-generations" in snapshot.operations && !FixedRoute(snapshot.operations["images-generations"])
  {
    if IMAGE_OPERATION in snapshot.operations
       && (ConflictsUnlessFixedRoute(snapshot.operations[IMAGE_OPERATION]); ImageRouteConflicts(snapshot.operations[IMAGE_OPERATION])) then
      Err("The existing image operation conflicts with the fixed route")
    else
      // A parent that only differs in trivia is kept as the source wrote it.
      var kept := if PolicyDigest(parent) == PolicyDigest(snapshot.parent) then snapshot.parent else parent;
      Ok(ImageUpgradePlan(
           apiResourceId, snapshot, kept,
           IMAGE_OPERATION !in snapshot.operations,
           snapshot.OperationPolicy(IMAGE_OPERATION).None?,
           revision, UPGRADE_VERSION))
  }

  /** The check before a promotion, after it, and before a rollback. */
  predicate VerifyUpgradeSnapshot(plan: ImageUpgradePlan, observed: Snapshot, denial: Policy) {
    && observed.revision == plan.revision
    && observed.api == plan.source.api
    && PolicyDigest(observed.parent) == PolicyDigest(plan.parent)
    && observed.operations.Keys == plan.ExpectedOperations().Keys
    && (forall name | name in plan.ExpectedOperations() ::
          name in observed.operations
          && OperationReadbackMatches(plan.ExpectedOperations()[name], observed.operations[name]))
    && PolicyDigests(observed.policies) == PolicyDigests(plan.ExpectedPolicies(denial))
  }

  /** One existing operation policy, as the tolerant check compares it. */
  predicate PartialPolicyOk(plan: ImageUpgradePlan, name: string, actual: Option<Policy>)
    requires name in plan.source.policies
  {
    match plan.source.policies[name]
    case Some(policy) => actual.Some? && PolicyDigest(actual.value) == PolicyDigest(policy)
    case None => actual.None? || name == IMAGE_OPERATION
  }

  /** The tolerant check of a candidate found by a later run. */
  predicate VerifyPartialCandidate(plan: ImageUpgradePlan, observed: Snapshot, denial: Policy) {
    && observed.revision == plan.revision
    && observed.api == plan.source.api
    && PolicyDigest(observed.parent) in {PolicyDigest(plan.source.parent), PolicyDigest(plan.parent)}
    && observed.operations.Keys - plan.source.operations.Keys - {IMAGE_OPERATION} == {}
    && (forall name | name in plan.source.operations ::
          observed.Operation(name) == Some(plan.source.operations[name]))
    && (forall name | name in plan.source.policies ::
          PartialPolicyOk(plan, name, observed.OperationPolicy(name)))
    && (plan.createOperation && observed.Operation(IMAGE_OPERATION).Some? ==>
          OperationReadbackMatches(IMAGE_OPERATION_PROPERTIES, observed.operations[IMAGE_OPERATION]))
    && (plan.initializeImagePolicy && observed.OperationPolicy(IMAGE_OPERATION).Some? ==>
          PolicyDigest(observed.OperationPolicy(IMAGE_OPERATION).value) == PolicyDigest(denial))
  }

  /**
    The two checks disagree about existing operations: one compares readbacks up to an empty
    derived path, the other compares them exactly. A candidate that passes the full check
    passes the tolerant one exactly when its existing operations read back unchanged.
   */
  lemma VerifiedCandidateIsAdoptedIffReadbackIsExact(plan: ImageUpgradePlan, observed: Snapshot, denial: Policy)
    requires plan.Planned()
    requires VerifyUpgradeSnapshot(plan, observed, denial)
    ensures VerifyPartialCandidate(plan, observed, denial)
            <==> forall name | name in plan.source.operations ::
                   observed.operations[name] == plan.source.operations[name]
  {
    var expected := plan.ExpectedPolicies(denial);
    if forall name | name in plan.source.operations :: observed.operations[name] == plan.source.operations[name] {
      forall name | name in plan.source.policies
        ensures PartialPolicyOk(plan, name, observed.OperationPolicy(name))
      {
        SameDigest(observed.policies, expected, name);
      }
      SameDigest(observed.policies, expected, IMAGE_OPERATION);
      assert VerifyPartialCandidate(plan, observed, denial);
    } else {
      var name :| name in plan.source.operations && observed.operations[name] != plan.source.operations[name];
      assert observed.Operation(name) != Some(plan.source.operations[name]);
    }
  }

  /** Such a candidate exists: a null derived path in one existing operation is enough. */
  lemma VerifiedCandidateMayBeRefused() returns (plan: ImageUpgradePlan, observed: Snapshot, denial: Policy)
    ensures plan.Planned() && plan.Required()
    ensures VerifyUpgradeSnapshot(plan, observed, denial)
    ensures !VerifyPartialCandidate(plan, observed, denial)
  {
    denial := Policy("denial", "");
    var text: Properties := map["method" := Document("\"POST\"")];
    var read: Properties := text["effectivePath" := Null];
    assert WithoutEmptyDerivedPath(text) == text == WithoutEmptyDerivedPath(read);
    assert "effectivePath" in read && "effectivePath" !in text;
    var inherits: Option<Policy> := None;
    var source := Snapshot("1", map[], Policy("legacy", ""), map["chat" := text], map["chat" := inherits]);
    plan := ImageUpgradePlan("api", source, Policy("images", ""), true, true, "2", UPGRADE_VERSION);
    observed := Snapshot("2", map[], Policy("images", ""), plan.ExpectedOperations()["chat" := read],
                         plan.ExpectedPolicies(denial));
    assert "chat" in plan.source.operations && observed.Operation("chat") == Some(read) != Some(text);
  }

  // ----- The writes that preparing a candidate makes -----

  datatype Write = PutImageOperation | PutImagePolicy | PutParentPolicy

  function PrepareWrites(plan: ImageUpgradePlan): set<Write> {
    if plan.initializeImagePolicy
    then {PutImageOperation, PutImagePolicy, PutParentPolicy}
    else {PutParentPolicy}
  }

  /** The image policy is a child resource of the image operation. */
  predicate Deployable(plan: ImageUpgradePlan, landed: set<Write>) {
    && landed <= PrepareWrites(plan)
    && (PutImagePolicy in landed ==> PutImageOperation in landed)
  }

  function ImageOperationDocument(plan: ImageUpgradePlan): Properties {
    plan.source.Operation(IMAGE_OPERATION).GetOr(IMAGE_OPERATION_PROPERTIES)
  }

  /** A candidate revision starts as a clone of the source revision. */
  function Clone(plan: ImageUpgradePlan, base: Snapshot): Snapshot {
    base.(revision := plan.revision, api := plan.source.api)
  }

  function LandedOperations(plan: ImageUpgradePlan, landed: set<Write>, operations: map<string, Properties>)
    : map<string, Properties>
  {
    if PutImageOperation in landed then operations[IMAGE_OPERATION := ImageOperationDocument(plan)] else operations
  }

  /** A new operation has no policy until one is put. */
  function LandedPolicies(denial: Policy, landed: set<Write>, policies: map<string, Option<Policy>>)
    : map<string, Option<Policy>>
  {
    if PutImagePolicy in landed then policies[IMAGE_OPERATION := Some(denial)]
    else if PutImageOperation in landed && IMAGE_OPERATION !in policies then policies[IMAGE_OPERATION := None]
    else policies
  }

  function Landed(plan: ImageUpgradePlan, denial: Policy, landed: set<Write>, candidate: Snapshot): Snapshot {
    candidate.(
    operations := LandedOperations(plan, landed, candidate.operations),
    policies := LandedPolicies(denial, landed, candidate.policies),
    parent := if PutParentPolicy in landed then plan.parent else candidate.parent)
  }

  /** The candidate that an uninterrupted preparation leaves. */
  function PreparedCandidate(plan: ImageUpgradePlan, denial: Policy, base: Snapshot): Snapshot {
    Landed(plan, denial, PrepareWrites(plan), Clone(plan, base))
  }

  lemma LandedIsCumulative(plan: ImageUpgradePlan, denial: Policy, first: set<Write>, second: set<Write>, base: Snapshot)
    ensures Landed(plan, denial, second, Landed(plan, denial, first, base))
            == Landed(plan, denial, first + second, base)
  {
    var operations := LandedOperations(plan, first, base.operations);
    assert LandedOperations(plan, second, operations) == LandedOperations(plan, first + second, base.operations);
    var policies := LandedPolicies(denial, first, base.policies);
    assert LandedPolicies(denial, second, policies) == LandedPolicies(denial, first + second, base.policies);
  }

  lemma PreparedCandidateVerifies(plan: ImageUpgradePlan, denial: Policy, base: Snapshot)
    requires plan.Planned() && base.Fingerprint() == plan.source.Fingerprint()
    ensures VerifyUpgradeSnapshot(plan, PreparedCandidate(plan, denial, base), denial)
  {
    var candidate := PreparedCandidate(plan, denial, base);
    SameKeys(base.policies, plan.source.policies);
    assert candidate.operations == plan.ExpectedOperations();
    forall name ensures name in candidate.policies <==> name in plan.ExpectedPolicies(denial)
      ensures name in candidate.policies ==>
                PolicyDigests(candidate.policies)[name] == PolicyDigests(plan.ExpectedPolicies(denial))[name]
    {
      SameDigest(base.policies, plan.source.policies, name);
    }
    assert PolicyDigests(candidate.policies).Keys == candidate.policies.Keys;
    assert PolicyDigests(plan.ExpectedPolicies(denial)).Keys == plan.ExpectedPolicies(denial).Keys;
  }

  /** A verified candidate lacks no write, save for trivia of a parent policy that needs none. */
  lemma VerifiedCandidateIsPrepared(plan: ImageUpgradePlan, denial: Policy, landed: set<Write>, base: Snapshot)
    requires plan.Planned() && base.Fingerprint() == plan.source.Fingerprint()
    requires Deployable(plan, landed)
    requires VerifyUpgradeSnapshot(plan, Landed(plan, denial, landed, Clone(plan, base)), denial)
    ensures SameReadback(PreparedCandidate(plan, denial, base), Landed(plan, denial, landed, Clone(plan, base)))
    ensures base.parent == plan.source.parent ==>
              PreparedCandidate(plan, denial, base) == Landed(plan, denial, landed, Clone(plan, base))
  {
    var candidate := Landed(plan, denial, landed, Clone(plan, base));
    SameDigest(candidate.policies, plan.ExpectedPolicies(denial), IMAGE_OPERATION);
    SameDigest(base.policies, plan.source.policies, IMAGE_OPERATION);
    assert plan.initializeImagePolicy ==> PutImagePolicy in landed;
    assert landed + {PutParentPolicy} == PrepareWrites(plan);
  }

  /** Whatever subset of the prepare writes landed, a later run recognizes the candidate. */
  lemma EveryPartialCandidateIsAdopted(plan: ImageUpgradePlan, denial: Policy, landed: set<Write>, base: Snapshot)
    requires plan.Planned() && base.Fingerprint() == plan.source.Fingerprint()
    requires Deployable(plan, landed)
    ensures VerifyPartialCandidate(plan, Landed(plan, denial, landed, Clone(plan, base)), denial)
  {
    hide PolicyDigests, PolicyDigest;
    var candidate := Landed(plan, denial, landed, Clone(plan, base));
    assert candidate.operations == LandedOperations(plan, landed, plan.source.operations);
    assert candidate.policies == LandedPolicies(denial, landed, base.policies);
    forall name | name in plan.source.policies
      ensures PartialPolicyOk(plan, name, candidate.OperationPolicy(name))
    {
      SameDigest(base.policies, plan.source.policies, name);
    }
    SameDigest(base.policies, plan.source.policies, IMAGE_OPERATION);
  }

  // ----- Readbacks -----

  /** Two snapshots that the full check cannot tell apart. */
  predicate SameReadback(expected: Snapshot, actual: Snapshot) {
    && actual.revision == expected.revision
    && actual.api == expected.api
    && PolicyDigest(actual.parent) == PolicyDigest(expected.parent)
    && actual.operations.Keys == expected.operations.Keys
    && (forall name | name in expected.operations ::
          OperationReadbackMatches(expected.operations[name], actual.operations[name]))
    && PolicyDigests(actual.policies) == PolicyDigests(expected.policies)
  }

  lemma LandedPoliciesAgree(denial: Policy, landed: set<Write>, a: map<string, Option<Policy>>, b: map<string, Option<Policy>>)
    requires PolicyDigests(a) == PolicyDigests(b)
    ensures PolicyDigests(LandedPolicies(denial, landed, a)) == PolicyDigests(LandedPolicies(denial, landed, b))
  {
    SameKeys(a, b);
    var x, y := LandedPolicies(denial, landed, a), LandedPolicies(denial, landed, b);
    assert PolicyDigests(x).Keys == x.Keys && PolicyDigests(y).Keys == y.Keys;
    forall name | name in x
      ensures name in y && PolicyDigests(x)[name] == PolicyDigests(y)[name]
    {
      SameDigest(a, b, name);
    }
  }

  lemma LandedRespectsReadback(plan: ImageUpgradePlan, denial: Policy, landed: set<Write>, a: Snapshot, b: Snapshot)
    requires SameReadback(a, b)
    ensures SameReadback(Landed(plan, denial, landed, a), Landed(plan, denial, landed, b))
  {
    hide PolicyDigests, LandedPolicies;
    LandedPoliciesAgree(denial, landed, a.policies, b.policies);
  }
}
