/** Recovery where readbacks are not exact: an interrupted candidate is adopted only if it reads back unchanged. */
module GatewayReadbacks {
  import opened Wrappers
  import opened GatewaySnapshots
  import opened GatewayUpgrade

  /** The operations that the candidate took over from the source read back to the letter. */
  predicate SourceReadsBack(plan: ImageUpgradePlan, candidate: Snapshot) {
    forall name | name in plan.source.operations :: candidate.Operation(name) == Some(plan.source.operations[name])
  }

  /** What a snapshot reads back as is verified like it. */
  lemma VerificationRespectsReadback(plan: ImageUpgradePlan, denial: Policy, expected: Snapshot, actual: Snapshot)
    requires VerifyUpgradeSnapshot(plan, expected, denial) && SameReadback(expected, actual)
    ensures VerifyUpgradeSnapshot(plan, actual, denial)
  {
    hide WithoutEmptyDerivedPath, PolicyDigests, PolicyDigest;
  }

  lemma ReadbackIsTransitive(a: Snapshot, b: Snapshot, c: Snapshot)
    requires SameReadback(a, b) && SameReadback(b, c)
    ensures SameReadback(a, c)
  {
    hide WithoutEmptyDerivedPath, PolicyDigests, PolicyDigest;
  }

  lemma ReadbackIsSymmetric(a: Snapshot, b: Snapshot)
    requires SameReadback(a, b)
    ensures SameReadback(b, a)
  {
    hide WithoutEmptyDerivedPath, PolicyDigests, PolicyDigest;
  }

  /** Two verified candidates read back alike. */
  lemma VerifiedReadAlike(plan: ImageUpgradePlan, denial: Policy, a: Snapshot, b: Snapshot)
    requires VerifyUpgradeSnapshot(plan, a, denial) && VerifyUpgradeSnapshot(plan, b, denial)
    ensures SameReadback(a, b)
  {
    hide WithoutEmptyDerivedPath, PolicyDigests, PolicyDigest;
  }

  /** The full check passes exactly what reads back as the recorded source with all prepare writes. */
  lemma VerifiedIffItReadsPrepared(plan: ImageUpgradePlan, denial: Policy, observed: Snapshot)
    requires plan.Planned()
    ensures VerifyUpgradeSnapshot(plan, observed, denial)
            <==> SameReadback(PreparedCandidate(plan, denial, plan.source), observed)
  {
    hide VerifyUpgradeSnapshot, SameReadback;
    var prepared := PreparedCandidate(plan, denial, plan.source);
    PreparedCandidateVerifies(plan, denial, plan.source);
    if VerifyUpgradeSnapshot(plan, observed, denial) {
      VerifiedReadAlike(plan, denial, prepared, observed);
    }
    if SameReadback(prepared, observed) {
      VerificationRespectsReadback(plan, denial, prepared, observed);
    }
  }

  /** Two readings of an operation match if they agree on all fields, where an empty derived path counts as none. */
  lemma MatchingMeans(expected: Properties, actual: Properties)
    ensures OperationReadbackMatches(expected, actual)
            <==> && (forall name | name != "effectivePath" ::
                       (name in expected <==> name in actual) && (name in expected ==> expected[name] == actual[name]))
                 && OperationField(expected, "effectivePath") == OperationField(actual, "effectivePath")
  {
    var a, b := WithoutEmptyDerivedPath(expected), WithoutEmptyDerivedPath(actual);
    assert "effectivePath" != "templateParameters" by {
      assert "effectivePath"[0] == 'e' && "templateParameters"[0] == 't';
    }
    if a == b {
      forall name | name != "effectivePath"
        ensures (name in expected <==> name in actual) && (name in expected ==> expected[name] == actual[name])
      {
        assert (name in a <==> name in expected) && (name in b <==> name in actual);
      }
      assert "effectivePath" in a <==> "effectivePath" in b;
    }
    if a != b && forall name | name != "effectivePath" ::
         (name in expected <==> name in actual) && (name in expected ==> expected[name] == actual[name]) {
      assert forall name | name != "effectivePath" :: (name in a <==> name in b) && (name in a ==> a[name] == b[name]);
    }
  }

  /** The image operation that a preparation creates where the source has none. */
  lemma CreatedImageOperation(plan: ImageUpgradePlan, denial: Policy, base: Snapshot)
    requires plan.Planned() && plan.createOperation
    ensures var prepared := PreparedCandidate(plan, denial, base);
            && "images-generations" in prepared.operations && "images-generations" in prepared.policies
            && FixedRoute(prepared.operations["images-generations"])
            && prepared.operations["images-generations"].Keys
               == {"displayName", "method", "urlTemplate", "templateParameters", "request", "responses"}
            && prepared.policies["images-generations"] == Some(denial)
  {
  }

  /** An upgrade is required exactly if its preparation would change anything of the source but the revision's name. */
  lemma RequiredUnlessPrepared(plan: ImageUpgradePlan, denial: Policy)
    requires plan.Planned()
    ensures plan.Required() <==> PreparedCandidate(plan, denial, plan.source) != plan.source.(revision := plan.revision)
  {
    var prepared := PreparedCandidate(plan, denial, plan.source);
    if plan.createOperation {
      assert IMAGE_OPERATION in prepared.operations && IMAGE_OPERATION !in plan.source.operations;
    } else if plan.initializeImagePolicy {
      assert prepared.policies[IMAGE_OPERATION] == Some(denial) && plan.source.policies[IMAGE_OPERATION].None?;
    } else {
      assert prepared.parent == plan.parent;
      assert prepared.operations == plan.source.operations && prepared.policies == plan.source.policies;
    }
  }

  /** An interrupted candidate is adopted exactly if what it took over from the source reads back to the letter. */
  lemma PartialIsAdoptedIffSourceReadsBack(plan: ImageUpgradePlan, denial: Policy, base: Snapshot, landed: set<Write>,
                                           candidate: Snapshot)
    requires plan.Planned() && base.Fingerprint() == plan.source.Fingerprint()
    requires CandidateIs(plan, denial, false, base, landed, candidate)
    ensures VerifyPartialCandidate(plan, candidate, denial) <==> SourceReadsBack(plan, candidate)
  {
    var expected := Landed(plan, denial, landed, Clone(plan, base));
    EveryPartialCandidateIsAdopted(plan, denial, landed, base);
    if SourceReadsBack(plan, candidate) {
      AdoptionRespectsReadback(plan, denial, expected, candidate);
    }
  }

  /** A candidate that looks as some of the prepare writes would leave the recorded source, existing operations to the letter. */
  ghost predicate LooksPrepared(plan: ImageUpgradePlan, denial: Policy, observed: Snapshot, landed: set<Write>) {
    && Deployable(plan, landed) && SourceReadsBack(plan, observed)
    && SameReadback(Landed(plan, denial, landed, Clone(plan, plan.source)), observed)
  }

  /** The writes that an observed candidate shows. */
  function ShownWrites(plan: ImageUpgradePlan, observed: Snapshot): set<Write> {
    (if PolicyDigest(observed.parent) == PolicyDigest(plan.parent) then {PutParentPolicy} else {})
    + (if plan.createOperation && IMAGE_OPERATION in observed.operations then {PutImageOperation} else {})
    + (if plan.initializeImagePolicy && observed.OperationPolicy(IMAGE_OPERATION).Some?
       then {PutImageOperation, PutImagePolicy} else {})
  }

  /**
    Of all candidates, where each operation is read with its policy, the tolerant check adopts exactly those
    that look as some of the prepare writes would leave the recorded source.
   */
  lemma AdoptedIffItLooksPrepared(plan: ImageUpgradePlan, denial: Policy, observed: Snapshot)
    requires plan.Planned() && observed.operations.Keys == observed.policies.Keys
    ensures VerifyPartialCandidate(plan, observed, denial) <==> exists landed :: LooksPrepared(plan, denial, observed, landed)
  {
    if VerifyPartialCandidate(plan, observed, denial) {
      AdoptedLooksPrepared(plan, denial, observed);
    }
    if landed :| LooksPrepared(plan, denial, observed, landed) {
      EveryPartialCandidateIsAdopted(plan, denial, landed, plan.source);
      AdoptionRespectsReadback(plan, denial, Landed(plan, denial, landed, Clone(plan, plan.source)), observed);
    }
  }

  lemma AdoptedLooksPrepared(plan: ImageUpgradePlan, denial: Policy, observed: Snapshot)
    requires plan.Planned() && observed.operations.Keys == observed.policies.Keys
    requires VerifyPartialCandidate(plan, observed, denial)
    ensures LooksPrepared(plan, denial, observed, ShownWrites(plan, observed))
  {
    var landed := ShownWrites(plan, observed);
    var expected := Landed(plan, denial, landed, Clone(plan, plan.source));
    AdoptedOperations(plan, denial, observed);
    AdoptedPolicies(plan, denial, observed);
    hide OperationReadbackMatches, PolicyDigests;
    assert SourceReadsBack(plan, observed);
    assert PolicyDigest(observed.parent) == PolicyDigest(expected.parent);
  }

  lemma AdoptedOperations(plan: ImageUpgradePlan, denial: Policy, observed: Snapshot)
    requires plan.Planned() && VerifyPartialCandidate(plan, observed, denial) && observed.operations.Keys == observed.policies.Keys
    ensures var expected := LandedOperations(plan, ShownWrites(plan, observed), plan.source.operations);
            && observed.operations.Keys == expected.Keys
            && forall name | name in expected :: OperationReadbackMatches(expected[name], observed.operations[name])
  {
    hide WithoutEmptyDerivedPath, PolicyDigests, PolicyDigest;
    var expected := LandedOperations(plan, ShownWrites(plan, observed), plan.source.operations);
    forall name
      ensures name in observed.operations <==> name in expected
    {
      assert name in plan.source.operations ==> observed.Operation(name) == Some(plan.source.operations[name]);
      assert name !in observed.operations.Keys - plan.source.operations.Keys - {IMAGE_OPERATION};
    }
  }

  lemma AdoptedPolicies(plan: ImageUpgradePlan, denial: Policy, observed: Snapshot)
    requires plan.Planned() && VerifyPartialCandidate(plan, observed, denial) && observed.operations.Keys == observed.policies.Keys
    ensures PolicyDigests(observed.policies)
            == PolicyDigests(LandedPolicies(denial, ShownWrites(plan, observed), plan.source.policies))
  {
    var expected := LandedPolicies(denial, ShownWrites(plan, observed), plan.source.policies);
    AdoptedOperations(plan, denial, observed);
    SamePolicyNames(plan, denial, ShownWrites(plan, observed));
    hide VerifyPartialCandidate, LandedPolicies, LandedOperations, ShownWrites;
    assert observed.policies.Keys == expected.Keys;
    forall name | name in expected
      ensures PolicyDigests(observed.policies)[name] == PolicyDigests(expected)[name]
    {
      AdoptedPolicy(plan, denial, observed, name);
    }
    assert PolicyDigests(observed.policies).Keys == observed.policies.Keys && PolicyDigests(expected).Keys == expected.Keys;
  }

  lemma SamePolicyNames(plan: ImageUpgradePlan, denial: Policy, landed: set<Write>)
    requires plan.Planned() && (PutImagePolicy in landed ==> PutImageOperation in landed)
    ensures LandedPolicies(denial, landed, plan.source.policies).Keys
            == LandedOperations(plan, landed, plan.source.operations).Keys
  {
  }

  lemma AdoptedPolicy(plan: ImageUpgradePlan, denial: Policy, observed: Snapshot, name: string)
    requires plan.Planned() && VerifyPartialCandidate(plan, observed, denial) && name in observed.policies
    requires observed.operations.Keys == observed.policies.Keys
    requires name in LandedPolicies(denial, ShownWrites(plan, observed), plan.source.policies)
    ensures PolicyDigests(observed.policies)[name]
            == PolicyDigests(LandedPolicies(denial, ShownWrites(plan, observed), plan.source.policies))[name]
  {
    hide OperationReadbackMatches;
    if name in plan.source.policies {
      assert PartialPolicyOk(plan, name, observed.OperationPolicy(name));
    }
  }

  lemma AdoptionRespectsReadback(plan: ImageUpgradePlan, denial: Policy, expected: Snapshot, candidate: Snapshot)
    requires VerifyPartialCandidate(plan, expected, denial) && SameReadback(expected, candidate)
    requires SourceReadsBack(plan, candidate)
    ensures VerifyPartialCandidate(plan, candidate, denial)
  {
    hide WithoutEmptyDerivedPath, PolicyDigests, PolicyDigest;
    forall name | name in plan.source.policies
      ensures PartialPolicyOk(plan, name, candidate.OperationPolicy(name))
    {
      SameDigest(candidate.policies, expected.policies, name);
    }
    SameDigest(candidate.policies, expected.policies, IMAGE_OPERATION);
    assert candidate.operations.Keys == expected.operations.Keys;
  }

  /** Finishing the writes on a candidate that reads back as some of them left it gives one that verifies. */
  lemma CompletedReadsBack(plan: ImageUpgradePlan, denial: Policy, base: Snapshot, landed: set<Write>, candidate: Snapshot)
    requires plan.Planned() && base.Fingerprint() == plan.source.Fingerprint()
    requires CandidateIs(plan, denial, false, base, landed, candidate)
    ensures var completed := Landed(plan, denial, PrepareWrites(plan), Clone(plan, candidate));
            VerifyUpgradeSnapshot(plan, completed, denial) && SameReadback(PreparedCandidate(plan, denial, base), completed)
  {
    hide VerifyUpgradeSnapshot, SameReadback, Landed;
    var writes := PrepareWrites(plan);
    var expected := Landed(plan, denial, landed, Clone(plan, base));
    CloneRespectsReadback(plan, expected, candidate);
    LandedRespectsReadback(plan, denial, writes, Clone(plan, expected), Clone(plan, candidate));
    LandedIsCloned(plan, denial, landed, base);
    LandedIsCumulative(plan, denial, landed, writes, Clone(plan, base));
    assert landed + writes == writes;
    PreparedCandidateVerifies(plan, denial, base);
    VerificationRespectsReadback(plan, denial, PreparedCandidate(plan, denial, base),
                                 Landed(plan, denial, writes, Clone(plan, candidate)));
  }

  lemma CloneRespectsReadback(plan: ImageUpgradePlan, a: Snapshot, b: Snapshot)
    requires SameReadback(a, b)
    ensures SameReadback(Clone(plan, a), Clone(plan, b))
  {
    hide WithoutEmptyDerivedPath, PolicyDigests, PolicyDigest;
  }

  lemma LandedIsCloned(plan: ImageUpgradePlan, denial: Policy, landed: set<Write>, base: Snapshot)
    ensures var expected := Landed(plan, denial, landed, Clone(plan, base));
            Clone(plan, expected) == expected
  {
  }

  // ----- Runs -----

  /** What the invariant says of an interrupted candidate, with its name filled in. */
  lemma CandidateOfSafe(plan: ImageUpgradePlan, denial: Policy, exact: bool, origin: Site, site: Site, landed: set<Write>)
    requires Safe(plan, denial, exact, origin, site, landed) && site.journal.Some? && plan.revision in site.revisions
    ensures origin.Read(None).Some? && origin.Read(None).value.Fingerprint() == plan.source.Fingerprint()
    ensures CandidateIs(plan, denial, false, origin.Read(None).value, landed, site.revisions[plan.revision])
    ensures site.Read(Some(plan.revision)) == Some(site.revisions[plan.revision])
  {
    hide VerifyUpgradeSnapshot;
  }

  /** Switching to a candidate that reads back as the full one gives the gateway of an uninterrupted upgrade. */
  lemma ReadsBackAsUpgraded(plan: ImageUpgradePlan, denial: Policy, exact: bool, origin: Site, site: Site,
                            landed: set<Write>, candidate: Snapshot)
    requires Safe(plan, denial, exact, origin, site, landed) && site.journal.Some?
    requires SameReadback(PreparedCandidate(plan, denial, origin.Read(None).value), candidate)
    ensures SameGateway(plan, Upgraded(plan, denial, origin),
                        site.(revisions := site.revisions[plan.revision := candidate],
                        current := Some(plan.revision)).Saved(plan, Passed))
  {
    hide VerifyUpgradeSnapshot, SameReadback;
    var after := site.revisions[plan.revision := candidate];
    assert after - {plan.revision} == site.revisions - {plan.revision};
    assert Upgraded(plan, denial, origin).revisions - {plan.revision} == origin.revisions - {plan.revision};
  }

  /** A fault-free run that promotes a verified candidate from the source. */
  lemma PromotesVerified(plan: ImageUpgradePlan, denial: Policy, site: Site)
    requires plan.revision in site.revisions && site.revisions[plan.revision].revision == plan.revision
    requires VerifyUpgradeSnapshot(plan, site.revisions[plan.revision], denial)
    requires site.Read(None).Some? && site.Read(None).value.Fingerprint() == plan.source.Fingerprint()
    ensures PromoteRun(plan, denial, site)
            == Run(site.(current := Some(plan.revision)).Saved(plan, Passed), Finished(Passed), [PromoteCalled(plan.revision)])
  {
    hide VerifyUpgradeSnapshot;
  }

  lemma ForwardFromSourceReadable(plan: ImageUpgradePlan, denial: Policy, exact: bool, origin: Site, site: Site, landed: set<Write>)
    requires plan.Planned() && site.journal.Some? && Safe(plan, denial, exact, origin, site, landed)
    requires site.current == Some(plan.source.revision)
    ensures var run := Forward(plan, denial, site);
            if plan.revision in site.revisions && !SourceReadsBack(plan, site.revisions[plan.revision])
            then run == Run(site, Refused, [])
            else run.outcome == Finished(Passed) && SameGateway(plan, Upgraded(plan, denial, origin), run.site)
  {
    hide VerifyUpgradeSnapshot, VerifyPartialCandidate, Landed, SameGateway, Upgraded, SourceReadsBack, PromoteRun, SameReadback;
    SafeSite(plan, denial, exact, origin, site, landed);
    var base := origin.Read(None).value;
    var current := site.Read(None).value;
    assert Forward(plan, denial, site) == PrepareRun(plan, denial, site, current);
    if plan.revision in site.revisions {
      CandidateOfSafe(plan, denial, exact, origin, site, landed);
      var candidate := site.revisions[plan.revision];
      PartialIsAdoptedIffSourceReadsBack(plan, denial, base, landed, candidate);
      if SourceReadsBack(plan, candidate) {
        if VerifyUpgradeSnapshot(plan, candidate, denial) {
          PreparedCandidateVerifies(plan, denial, base);
          VerifiedReadAlike(plan, denial, PreparedCandidate(plan, denial, base), candidate);
          assert site.revisions[plan.revision := candidate] == site.revisions;
          PromotesVerified(plan, denial, site.Saved(plan, Preparing));
          ReadsBackAsUpgraded(plan, denial, exact, origin, site, landed, candidate);
        } else {
          CompletedReadsBack(plan, denial, base, landed, candidate);
          CompletesAndPromotes(plan, denial, exact, origin, site, landed, candidate);
        }
      }
    } else {
      PreparedCandidateVerifies(plan, denial, base);
      VerifiedReadAlike(plan, denial, PreparedCandidate(plan, denial, base), PreparedCandidate(plan, denial, base));
      CompletesAndPromotes(plan, denial, exact, origin, site, landed, current);
    }
  }

  /** A fault-free run that finishes the writes over a base and promotes the result. */
  lemma CompletesAndPromotes(plan: ImageUpgradePlan, denial: Policy, exact: bool, origin: Site, site: Site,
                             landed: set<Write>, base: Snapshot)
    requires Safe(plan, denial, exact, origin, site, landed) && site.journal.Some?
    requires site.current == Some(plan.source.revision)
    requires var completed := Landed(plan, denial, PrepareWrites(plan), Clone(plan, base));
             && VerifyUpgradeSnapshot(plan, completed, denial)
             && SameReadback(PreparedCandidate(plan, denial, origin.Read(None).value), completed)
    ensures var completed := Landed(plan, denial, PrepareWrites(plan), Clone(plan, base));
            var prepared := site.(revisions := site.revisions[plan.revision := completed]);
            var run := PromoteRun(plan, denial, prepared.Saved(plan, Preparing));
            run.outcome == Finished(Passed) && SameGateway(plan, Upgraded(plan, denial, origin), run.site)
  {
    hide VerifyUpgradeSnapshot, SameReadback, SameGateway, Upgraded, PromoteRun;
    SafeSite(plan, denial, exact, origin, site, landed);
    var completed := Landed(plan, denial, PrepareWrites(plan), Clone(plan, base));
    var prepared := site.(revisions := site.revisions[plan.revision := completed]);
    SourceStays(plan, denial, exact, origin, site, landed, completed);
    PromotesVerified(plan, denial, prepared.Saved(plan, Preparing));
    ReadsBackAsUpgraded(plan, denial, exact, origin, site, landed, completed);
  }

  lemma SourceStays(plan: ImageUpgradePlan, denial: Policy, exact: bool, origin: Site, site: Site, landed: set<Write>,
                    completed: Snapshot)
    requires Safe(plan, denial, exact, origin, site, landed) && site.journal.Some?
    requires site.current == Some(plan.source.revision)
    ensures var prepared := site.(revisions := site.revisions[plan.revision := completed]).Saved(plan, Preparing);
            prepared.Read(None).Some? && prepared.Read(None).value.Fingerprint() == plan.source.Fingerprint()
  {
    hide VerifyUpgradeSnapshot, SameReadback;
    SafeSite(plan, denial, exact, origin, site, landed);
  }

  /** No rollback is under way on a current candidate, and a candidate that is not current yet reads back unchanged. */
  predicate MayGoForward(plan: ImageUpgradePlan, site: Site) {
    if site.current == Some(plan.revision) then !site.Recorded({RollingBack})
    else plan.revision in site.revisions ==> SourceReadsBack(plan, site.revisions[plan.revision])
  }

  /**
    From whatever interrupted runs with any readbacks left, a fault-free forward run passes exactly if it may
    go forward. When it passes it leaves a gateway that reads back as that of an uninterrupted upgrade, and
    otherwise it changes nothing.
   */
  lemma ForwardRecoversIffReadable(plan: ImageUpgradePlan, denial: Policy, exact: bool, origin: Site, site: Site, landed: set<Write>)
    requires plan.Planned() && site.journal.Some? && Safe(plan, denial, exact, origin, site, landed)
    ensures var run := Forward(plan, denial, site);
            if MayGoForward(plan, site) then run.outcome == Finished(Passed) && SameGateway(plan, Upgraded(plan, denial, origin), run.site)
            else run == Run(site, Refused, [])
  {
    hide VerifyUpgradeSnapshot, VerifyPartialCandidate, Landed, SameGateway, Upgraded, SourceReadsBack, PrepareRun, SameReadback;
    if site.current == Some(plan.source.revision) {
      ForwardFromSourceReadable(plan, denial, exact, origin, site, landed);
    } else {
      SafeSite(plan, denial, exact, origin, site, landed);
      CandidateOfSafe(plan, denial, exact, origin, site, landed);
      var base, candidate := origin.Read(None).value, site.revisions[plan.revision];
      PreparedCandidateVerifies(plan, denial, base);
      VerifiedReadAlike(plan, denial, PreparedCandidate(plan, denial, base), candidate);
      assert site.revisions[plan.revision := candidate] == site.revisions;
      ReadsBackAsUpgraded(plan, denial, exact, origin, site, landed, candidate);
    }
  }

  // ----- Runs that read back differently -----

  /** Other than in the candidate's readback, two fault-free runs agree; where nothing was prepared they are the same. */
  predicate SameRun(plan: ImageUpgradePlan, expected: Run, actual: Run) {
    && actual.outcome == expected.outcome && actual.calls == expected.calls
    && (|| actual.site == expected.site
        || (expected.calls != [] && expected.calls[0].PrepareCalled? && SameGateway(plan, expected.site, actual.site)))
  }

  lemma SameGatewayIsTransitive(plan: ImageUpgradePlan, a: Site, b: Site, c: Site)
    requires SameGateway(plan, a, b) && SameGateway(plan, b, c)
    ensures SameGateway(plan, a, c)
  {
    hide SameReadback;
    ReadbackIsTransitive(a.revisions[plan.revision], b.revisions[plan.revision], c.revisions[plan.revision]);
  }

  /** Revisions other than the candidate are read alike. */
  lemma OthersReadAlike(plan: ImageUpgradePlan, expected: Site, actual: Site, name: string)
    requires SameGateway(plan, expected, actual) && name != plan.revision
    ensures expected.Read(Some(name)) == actual.Read(Some(name))
  {
    hide SameReadback;
    assert name in expected.revisions <==> name in expected.revisions - {plan.revision};
    assert name in actual.revisions <==> name in actual.revisions - {plan.revision};
    if name in expected.revisions {
      assert (expected.revisions - {plan.revision})[name] == (actual.revisions - {plan.revision})[name];
    }
  }

  lemma CandidatesReadAlike(plan: ImageUpgradePlan, denial: Policy, expected: Site, actual: Site)
    requires SameGateway(plan, expected, actual)
    ensures var a, b := expected.Read(Some(plan.revision)), actual.Read(Some(plan.revision));
            a.Some? && b.Some?
            && (VerifyUpgradeSnapshot(plan, a.value, denial) <==> VerifyUpgradeSnapshot(plan, b.value, denial))
  {
    hide VerifyUpgradeSnapshot;
    var a, b := expected.Read(Some(plan.revision)).value, actual.Read(Some(plan.revision)).value;
    ReadbackIsSymmetric(a, b);
    if VerifyUpgradeSnapshot(plan, a, denial) {
      VerificationRespectsReadback(plan, denial, a, b);
    }
    if VerifyUpgradeSnapshot(plan, b, denial) {
      VerificationRespectsReadback(plan, denial, b, a);
    }
  }

  /** A promotion goes alike from gateways that read back alike. */
  lemma PromotesAlike(plan: ImageUpgradePlan, denial: Policy, expected: Site, actual: Site)
    requires SameGateway(plan, expected, actual) && expected.current != Some(plan.revision)
    ensures var a, b := PromoteRun(plan, denial, expected), PromoteRun(plan, denial, actual);
            a.outcome == b.outcome && a.calls == b.calls && SameGateway(plan, a.site, b.site)
  {
    hide VerifyUpgradeSnapshot, Snapshot.Fingerprint, SameReadback;
    CandidatesReadAlike(plan, denial, expected, actual);
    if expected.current.Some? {
      OthersReadAlike(plan, expected, actual, expected.current.value);
      assert expected.Read(None) == expected.Read(expected.current) && actual.Read(None) == actual.Read(actual.current);
    }
  }

  /** A candidate that is written reads back as it was meant, or alike. */
  lemma WrittenAlike(plan: ImageUpgradePlan, site: Site, written: Snapshot, observed: Snapshot)
    requires SameReadback(written, observed)
    ensures SameGateway(plan, site.(revisions := site.revisions[plan.revision := written]),
                        site.(revisions := site.revisions[plan.revision := observed]))
  {
    hide SameReadback;
    assert site.revisions[plan.revision := written] - {plan.revision} == site.revisions - {plan.revision};
    assert site.revisions[plan.revision := observed] - {plan.revision} == site.revisions - {plan.revision};
  }

  lemma WrittenKeepsCurrent(plan: ImageUpgradePlan, denial: Policy, site: Site, base: Snapshot)
    ensures Written(plan, denial, site, base).current == site.current
  {
  }

  /** Whatever a fault-free run reads back, it passes exactly if it may go forward, and then leaves what an uninterrupted one does. */
  lemma AnyReadbackRecovers(plan: ImageUpgradePlan, denial: Policy, exact: bool, origin: Site, site: Site, landed: set<Write>, run: Run)
    requires plan.Planned() && site.journal.Some? && Safe(plan, denial, exact, origin, site, landed)
    requires SameRun(plan, Forward(plan, denial, site), run)
    ensures if MayGoForward(plan, site)
            then run.outcome == Finished(Passed) && SameGateway(plan, Upgraded(plan, denial, origin), run.site)
            else run == Run(site, Refused, [])
  {
    hide Forward, Upgraded, SameGateway, MayGoForward;
    ForwardRecoversIffReadable(plan, denial, exact, origin, site, landed);
    if MayGoForward(plan, site) && run.site != Forward(plan, denial, site).site {
      SameGatewayIsTransitive(plan, Upgraded(plan, denial, origin), Forward(plan, denial, site).site, run.site);
    }
  }

  /**
    A passed upgrade with the checkpoint that its rollback saves before it switches: here going forward is refused,
    and rolling back once more switches to the source.
   */
  lemma RollbackUnderWayIsRefused() returns (plan: ImageUpgradePlan, denial: Policy, origin: Site, site: Site)
    ensures plan.Planned() && Safe(plan, denial, true, origin, site, PrepareWrites(plan))
    ensures var upgraded := Forward(plan, denial, origin);
            && upgraded.outcome == Finished(Passed) && site == upgraded.site.Saved(plan, RollingBack)
            && Rollback(plan, denial, upgraded.site) == SwitchBackRun(plan, site)
    ensures site.current == Some(plan.revision) && Forward(plan, denial, site) == Run(site, Refused, [])
    ensures Rollback(plan, denial, site)
            == Run(site.(current := origin.current).Saved(plan, RolledBack), Finished(RolledBack), [PromoteCalled(plan.source.revision)])
  {
    denial := Policy("denial", "");
    var source := Snapshot("1", map[], Policy("legacy", ""), map[], map[]);
    plan := ImageUpgradePlan("api", source, Policy("images", ""), true, true, "2", UPGRADE_VERSION);
    origin := Site(map["1" := source], Some("1"), None);
    UninterruptedUpgrade(plan, denial, origin);
    PreparedCandidateVerifies(plan, denial, source);
    var upgraded := Upgraded(plan, denial, origin);
    site := upgraded.Saved(plan, RollingBack);
    assert site.revisions - {"2"} == origin.revisions - {"2"};
    VerifiedReadAlike(plan, denial, PreparedCandidate(plan, denial, source), PreparedCandidate(plan, denial, source));
    assert CandidateIs(plan, denial, true, origin.Read(None).value, PrepareWrites(plan), site.revisions["2"]);
    ForwardRecoversIffReadable(plan, denial, true, origin, site, PrepareWrites(plan));
  }
}
