# Turnstile: a verified model of its protocols, compilers and allocators

Turnstile is a control plane for AI gateways. This project models its hardest logic in Dafny and proves
what the design promises of it. The state machines are proved over every run: a run may die at any step,
responses may be lost, and other writers may act in between, unless a statement says otherwise.

Check it with `dafny verify dfyconfig.toml` (Dafny 4.11).

## Components

- **Gateway upgrade** (`GatewaySnapshots`, `GatewayUpgrade`, `GatewayReadbacks`, `UpgradeExecution`,
  `UpgradeWhatIf`): the journalled prepare, verify, promote and roll-back machine over the revisions of one
  API. The site is a map of revisions with a current pointer and a journal. A class runs the protocol with
  chances to fail before and after every effect; a trace predicate says what must precede a deployment;
  pure functions say what a fault-free run does.
- **OpenAPI splitter** (`JsonDocuments`, `ContractReferences`, `SchemaWalk`, `FileReferences`,
  `ContractSplit`, `ContractReading`, `ContractContents`, `ContractNames`, `ContractInterior`,
  `ContractSplitting`, `ContractLosses`): documents as trees, the depth-first search over a possibly cyclic
  reference graph, the files it writes and what is in each, and reading them back through relative
  references and JSON Pointers (RFC 6901, sections 3 and 4).
- **Budgets** (`BudgetTable`, `BudgetHierarchy`, `BudgetBulk`, `BudgetAnswers`, `BudgetService`,
  `BudgetOverview`, `BudgetRows`): the table's transactions, the service's checks over a fixed catalog, bulk
  allocation, the answer of each call, and the overview row by row.
- **Connection diagnostics** (`DiagnosticClaims`, `DiagnosticRuns`): claim, re-check, dispatch and finish
  as a state machine over real time, and one diagnostic in program order among others.
- **Model Router compiler** (`RouterSpec`, `RouterChecks`, `RouterIssues`, `RouterSoundness`,
  `RouterPlans`, `RouterLocality`): the checks over one list of issues, what each issue means, an order-free
  meaning of acceptance, the canonical plan and what is in it, and what a compilation depends on.
- **Availability installer** (`PolicyTrees`, `PolicyNormalization`, `PolicyReadings`,
  `InstallationApply`, `InstallationRuns`, `InstallationReadback`): the rewriting of legacy choices with an
  execution semantics, and the journalled application of a plan by conditional writes.
- **Fixed-program bootstrap** (`BootstrapActivation`, `BootstrapOutcomes`, `ProgramLineage`): the activation
  that is recorded once, what its journal says of it, and the lineage that repeated upgrades keep.
- **Password records** (`PasswordRecords`): base64url without padding (RFC 4648, section 5) and the record
  around it; key derivation and what the runtime makes of foreign texts are parameters.
- **Traffic generator** (`TrafficPlans`): the round-robin plan and its execution within a budget.
- `Wrappers`, `Orders`, `TextOrder` and `Rounding` are shared.

## Assumptions

- Digests are injective, so values are compared in their place.
- Each update that a database or service makes atomic is one step: the budget transactions under their
  advisory lock, the claim and finish of a diagnostic, the journal update of an activation, a conditional
  write, a table batch.
- Entity tags and the request ids in diagnostic markers are never reused. All diagnostics of a runtime
  read one clock that does not run backwards, and a call ends within its bound.
- A catalog has distinct ids at each level, as the merging of observed users keeps them; limits are at
  least one token or cent, as request validation demands.

## Where the code and its intent differ

The model follows the code. Each of these is stated by lemmas: an input, and the exact condition.

- The partial check of an interrupted candidate compares operations exactly, while the full check forgives
  an empty derived path. A candidate that is verified can therefore be refused as partial
  (`GatewaySnapshots.VerifiedCandidateIsAdoptedIffReadbackIsExact`, `GatewaySnapshots.VerifiedCandidateMayBeRefused`).
  `GatewayReadbacks.ForwardRecoversIffReadable`, `GatewayReadbacks.AnyReadbackRecovers` and
  `UpgradeExecution.OperateThenRecover` say when recovery succeeds with any readbacks.
- A forward run is refused while a rollback is under way and the candidate is still current
  (`GatewayUpgrade.ForwardRecovers`, `GatewayReadbacks.RollbackUnderWayIsRefused`). Rolling back once more ends this.
- The what-if check folds case, so it protects the source exactly if the two revision names differ by more
  than case (`UpgradeWhatIf.PreparationKeepsSource`, `UpgradeWhatIf.SourceResourceLost`). Planning names the
  candidate by a digest of the source, so only a plan made by hand comes with names that fold alike.
- Rewritten references name `openapi.yaml` whatever the root file is called
  (`ContractReading.LocalReferencesResolve`, `ContractLosses.LoseReferences`); references in the event
  contracts, which stay in the root, resolve under every name (`ContractInterior.RootReferencesResolve`).
- A reference into the inside of a component, such as `#/components/schemas/A/properties/b`, finds nothing
  after the split, because the root has only a reference in the component's place
  (`ContractInterior.InnerReferenceIsLost`, `ContractLosses.LoseInnerReference`).
- Component names are not escaped. A reference keeps a component exactly if its name has no slash and no
  escape (`ContractNames.ReferenceFindsPlaceIffSafe`, `ContractNames.SoleComponentResolvesIffSafe`,
  `ContractLosses.LoseSchema`).
- The search for domains skips the other fields of an object that repeats a reference, so a schema may not
  get the domain that reaches it. A search is exact exactly if it entered whatever it skipped
  (`SchemaWalk.FreshSearchIsExact`, `SchemaWalk.RepeatedReferenceSkips`, `ContractLosses.LoseDomain`).
- The table's upsert accepts a missing parent. Sequentially the service prevents this; calls that overlap a
  save leave a row without its parent exactly if its parent is gone and the transaction is accepted
  (`BudgetService.OverlappedSaveIsSafeIffParentRemains`, `BudgetService.RemovalDuringSaveLeavesOrphan`,
  `BudgetService.SuchAnOverlapExists`). No other transaction can do this (`BudgetService.OnlyUpsertMayOrphan`).
- Nothing in the code bounds the time between the last deadline check and the start of a diagnostic call;
  it may take three seconds (`DiagnosticClaims.ServiceTimingIsSafe`, `DiagnosticClaims.TightTimingAllowsTwoCalls`).
- The readback of an installed policy ignores some differences of text, so a verified target may still hold
  its original. It is certain to hold the candidate exactly if the comparison tells the two apart
  (`InstallationReadback.VerifiedIsCertainIffTelling`, `InstallationReadback.OriginalMayBeVerified`).
- A bootstrap has one attempt at its fence and one at its activation. If the claimed attempt is never made,
  because the run dies or the approval expires, or if its request is lost on the way, nothing can be
  installed on the target any more; otherwise something can
  (`BootstrapActivation.InstallableUnlessStuck`; `BootstrapActivation.UnwrittenFenceIsReachable`,
  `BootstrapActivation.LostFenceIsReachable`, `BootstrapActivation.UnsentIntentIsReachable`,
  `BootstrapActivation.ExpiredIntentIsReachable`, `BootstrapActivation.LostBatchIsReachable`).
- An upgrade made by hand may list no predecessors as long as none were listed before; it is accepted, and
  then a program may be forgotten and installed again (`ProgramLineage.ListedLineageRemembers`,
  `ProgramLineage.AcceptedMayForget`). Prepared upgrades list them all (`ProgramLineage.LineageIsComplete`).
- An estimate of zero counts as the ceiling in traffic execution. The total is the sum of the estimates
  exactly if no success is charged this way (`TrafficPlans.SpentIsEstimatedIffNoneCharged`,
  `TrafficPlans.FreeCallIsCharged`).

## Model

| member | source | states |
|---|---|---|
| GatewaySnapshots.PlanImageUpgrade | scripts/apim_upgrade.py:119-188 | a plan keeps the snapshot, records exactly what it lacks, and is refused exactly for a conflicting image route |
| GatewaySnapshots.VerifiedCandidateIsAdoptedIffReadbackIsExact | scripts/apim_upgrade.py:442-473 | a candidate that passes the full check also passes the partial check exactly when its existing operations were read back character for character |
| GatewaySnapshots.VerifiedCandidateMayBeRefused | scripts/apim_upgrade.py:67-75 | a concrete verified candidate that the partial check refuses: one empty derived path in an existing operation |
| GatewaySnapshots.LandedIsCumulative | infra/modules/apim-upgrade.bicep:31-89 | repeating the prepare writes over what some of them left gives what their union gives |
| GatewaySnapshots.PreparedCandidateVerifies | scripts/apim_upgrade.py:191-218 | all prepare writes over a copy of the recorded source make a candidate that passes the full check |
| GatewaySnapshots.VerifiedCandidateIsPrepared | scripts/apim_upgrade.py:191-218 | a candidate that some of the writes made passes the full check only if it equals the one that all of them make |
| GatewaySnapshots.EveryPartialCandidateIsAdopted | scripts/apim_upgrade.py:442-473 | whatever subset of the prepare writes landed, the partial check passes |
| GatewayReadbacks.VerifiedIffItReadsPrepared | scripts/apim_upgrade.py:191-218 | the full check passes exactly the candidates that read back as the completely prepared one |
| GatewayReadbacks.MatchingMeans | scripts/apim_upgrade.py:67-75 | two readings of an operation match exactly if they agree on all fields, where an empty derived path counts as none |
| GatewayReadbacks.CreatedImageOperation | scripts/apim_upgrade.py:27-38 | where the source has no image operation the preparation makes one with the fixed route and the denying policy |
| GatewayReadbacks.RequiredUnlessPrepared | scripts/apim_upgrade.py:108-113 | an upgrade is required exactly if its preparation would change anything of the source but the revision's name |
| GatewayReadbacks.AdoptedIffItLooksPrepared | scripts/apim_upgrade.py:442-473 | the partial check passes exactly the candidates that look as some subset of the prepare writes leaves the recorded source |
| GatewaySnapshots.LandedRespectsReadback | scripts/apim_upgrade.py:67-75 | writes over snapshots that read back alike give snapshots that read back alike |
| GatewayUpgrade.PromotionFollowsVerification | scripts/apim_upgrade.py:540-548 | in every disciplined trace a promotion directly follows a verified reading of the candidate, a reading of the unchanged current source, and the saved checkpoint |
| GatewayUpgrade.PreparationFollowsRecognition | scripts/apim_upgrade.py:522-539 | in every disciplined trace a preparation follows a reading of the unchanged source and of an absent or recognized candidate, and creates exactly when it was absent |
| GatewayUpgrade.SafeSite | scripts/apim_upgrade.py:476-555 | the invariant means: current is the recorded source or the plan's candidate; a current candidate has a promotion record and verifies; no other revision differs from the first day |
| GatewayUpgrade.PrepareKeepsSafe | scripts/apim_upgrade.py:533-539 | an interrupted preparation with any subset of writes keeps the invariant |
| GatewayUpgrade.SwitchKeepsSafe | scripts/apim_upgrade.py:548-549 | switching the current revision under a promotion or rollback checkpoint keeps the invariant |
| GatewayUpgrade.UninterruptedUpgrade | scripts/apim_upgrade.py:515-555 | a fault-free first run passes with one preparation and one promotion and leaves the upgraded gateway |
| GatewayUpgrade.ForwardRecovers | scripts/apim_upgrade.py:515-555 | from every state an interrupted run can leave, with exact readbacks, a fault-free re-run passes with the gateway of an uninterrupted run, unless a rollback is under way with the candidate still current, when it is refused and changes nothing |
| GatewayReadbacks.PartialIsAdoptedIffSourceReadsBack | scripts/apim_upgrade.py:442-473 | an interrupted candidate is adopted exactly if every operation taken over from the source reads back to the letter, whatever else readbacks changed |
| GatewayReadbacks.ForwardRecoversIffReadable | scripts/apim_upgrade.py:515-555 | from what runs with any readbacks left, a fault-free re-run passes exactly if no rollback is under way on a current candidate and a waiting candidate reads back unchanged; then the gateway reads back as an uninterrupted run's, and otherwise nothing changes |
| GatewayReadbacks.AnyReadbackRecovers | scripts/apim_upgrade.py:515-555 | the same holds when the re-run's own writes read back differently, up to what the full check ignores |
| GatewayReadbacks.PromotesAlike | scripts/apim_upgrade.py:540-549 | a promotion decides, ends and deploys alike on gateways whose candidates read back alike |
| GatewayReadbacks.RollbackUnderWayIsRefused | scripts/apim_upgrade.py:506-517 | a passed upgrade with the checkpoint that its rollback saves before it switches, a site that the invariant allows: going forward is refused and rolling back once more restores the source |
| GatewayUpgrade.UpgradeIsIdempotent | scripts/apim_upgrade.py:515-521 | after a passed run a further run changes nothing and calls neither prepare nor promote |
| GatewayUpgrade.RollbackRecovers | scripts/apim_upgrade.py:494-514 | from every such state a fault-free rollback succeeds exactly when a journal exists whose status is beyond preparing, and then restores the recorded source and touches no revision |
| UpgradeExecution.UpgradeSite.Prepare | scripts/apim_upgrade.py:393-394 | an interrupted preparation leaves the candidate with some subset of its writes and everything else alone |
| UpgradeExecution.UpgradeSite.ExecuteImageUpgrade | scripts/apim_upgrade.py:476-555 | one run that may die or meet other writers at every step keeps trace discipline and the invariant; without faults it does what the fault-free specification says, to the letter with exact readbacks and otherwise up to them |
| UpgradeExecution.UpgradeSite.RollBack | scripts/apim_upgrade.py:494-514 | the rollback branch keeps discipline and invariant, and without faults restores the source |
| UpgradeExecution.UpgradeSite.ConfirmPromotion | scripts/apim_upgrade.py:515-521 | the confirming branch keeps discipline and invariant, and deploys nothing |
| UpgradeExecution.UpgradeSite.PrepareAndPromote | scripts/apim_upgrade.py:526-555 | the preparing branch keeps discipline and invariant, and without faults ends as specified, up to the readback of the candidate |
| UpgradeExecution.UpgradeSite.Operate | scripts/apim_upgrade.py:476-555 | any number of forward and rollback runs: every deployment is justified, only source or verified candidate is ever current, no other revision changes |
| UpgradeExecution.OperateThenRecover | scripts/apim_upgrade.py:476-555 | any number of runs with faults and then one without, whatever they read back: forward ends as an uninterrupted run exactly if it may go forward and is refused otherwise, and rollback restores the source exactly if a journal exists whose status is beyond preparing |
| UpgradeWhatIf.ValidateUpgradeWhatIf | scripts/apim_upgrade.py:420-439 | accepts a preview exactly when it lists changes and each is ignored or creates or modifies an allowed resource, written out for both stages |
| UpgradeWhatIf.PreparationKeepsSource | scripts/apim_upgrade.py:420-439 | an approved preparation keeps every resource of the source revision exactly when the two revision names differ by more than case |
| UpgradeWhatIf.SourceResourceLost | scripts/apim_upgrade.py:423-428 | for a plan whose revision folds like its source, an approved preparation that replaces a source resource |
| UpgradeWhatIf.RevisionResourcesAreDisjoint | scripts/apim_upgrade.py:423-438 | resources of two revisions are equal only if the revision names fold alike |
| UpgradeWhatIf.PromotionKeepsRevisions | scripts/apim_upgrade.py:423-439 | an approved promotion deploys nothing but releases, so every revision stays as it was |
| ContractSplit.PathDomainIsStrongestTag | scripts/split_openapi_contract.py:14-31 | a path belongs to the domain of the strongest of the five tags that an operation of one of the eight methods carries, and to observability exactly without any of them |
| ContractSplit.PathTagsAreCarried | scripts/split_openapi_contract.py:11-20 | a path has a tag exactly if a field spelled, in any case, as one of the eight methods holds an operation with that tag, or with none and the tag is Untagged |
| ContractContents.RootsAre | scripts/split_openapi_contract.py:88-119 | the searches start exactly from the paths under their domains, the common parameters and responses, and the event contracts |
| ContractReferences.RewriteRoundTrip | scripts/split_openapi_contract.py:38-51 | undoing the rewriting gives the value back exactly when no string already carries the rewritten prefix |
| ContractReferences.ClosedSetHoldsReach | scripts/split_openapi_contract.py:90-111 | a set of references closed under their targets holds everything that a value reaches |
| FileReferences.PointerRoundTrip | scripts/split_openapi_contract.py:34-35 | the JSON Pointer escape of RFC 6901 is undone by its decoding, for every text |
| FileReferences.SplitJoin | scripts/split_openapi_contract.py:148-170 | joining and splitting at slashes are inverse for parts without slashes |
| SchemaWalk.SchemaWalker.Walk | scripts/split_openapi_contract.py:90-111 | the search ends on every graph, enters and refuses exactly what its recursive specification says, and records its domain for exactly the schemas it entered |
| SchemaWalk.SearchEnters | scripts/split_openapi_contract.py:90-111 | a search enters and skips only what its value reaches, and whatever the value or an entered component refers to is entered or skipped |
| SchemaWalk.FreshSearchIsExact | scripts/split_openapi_contract.py:90-114 | a fresh search enters only what its value reaches, and all of it exactly if it entered every reference that it skipped; in plain values it skips none |
| SchemaWalk.RepeatedReferenceSkips | scripts/split_openapi_contract.py:99-111 | beside a repeated reference a value is skipped: only what the reference leads to is entered, though the value is reached too |
| SchemaWalk.CollectDomains | scripts/split_openapi_contract.py:88-119 | a domain is recorded for a schema exactly if one of its searches enters it, and the collection fails exactly if a search meets a malformed reference |
| SchemaWalk.EnteredIsReached | scripts/split_openapi_contract.py:88-119 | a search of a domain enters a schema only if a root of the domain reaches it, and with thorough searches if and only if |
| ContractSplitting.GroupByDomain | scripts/split_openapi_contract.py:81-86 | the groups have exactly the used domains and hold each field once, rewritten, in order |
| ContractSplitting.SplitContract | scripts/split_openapi_contract.py:67-177 | success gives exactly the split files and the records of the searches; failure comes exactly from an empty, already split or malformed contract |
| ContractSplitting.OwnerIsSoleReacher | scripts/split_openapi_contract.py:121-125 | with thorough searches a schema leaves the common file exactly for the only domain that reaches it |
| ContractSplitting.SchemaLandsInOneFile | scripts/split_openapi_contract.py:121-130 | a schema is in the file of its owner, rewritten, and in no other |
| ContractContents.PathLandsInOneFile | scripts/split_openapi_contract.py:81-86 | a path is in the file of its domain, rewritten, and in no other |
| ContractContents.FilesAre | scripts/split_openapi_contract.py:132-177 | the files are exactly the root, the common components, the event contracts if there are any, and one for each used domain of paths and of schemas |
| ContractContents.CommonFileIs | scripts/split_openapi_contract.py:132-145 | the common file holds the parameters, responses and security schemes, rewritten, exactly where there are any |
| ContractContents.RestStays | scripts/split_openapi_contract.py:139-149 | the event file holds the event contracts, rewritten, and every other field of the contract stays in the root as it was |
| ContractReading.AllowedNamesAreSafe | scripts/split_openapi_contract.py:155-170 | component names of the characters that OpenAPI allows need no escape |
| ContractNames.SafeNamesHaveNoEscape | scripts/split_openapi_contract.py:34-35 | a name reads back as itself exactly if it has no slash and no escape of RFC 6901 |
| ContractNames.ReferenceFindsPlaceIffSafe | scripts/split_openapi_contract.py:154-170 | the root's reference to a component leads to its file and, there, to its own place exactly if its name is safe |
| ContractNames.SoleComponentResolvesIffSafe | scripts/split_openapi_contract.py:154-170 | a part-less component alone of its kind is found through the root exactly if its name is safe, and otherwise nothing is |
| ContractLosses.LoseSchema | scripts/split_openapi_contract.py:121-177 | for every unsafe name a valid contract is split whose root reference to that schema resolves to nothing |
| ContractLosses.LoseReferences | scripts/split_openapi_contract.py:38-51 | under every other root name, a contract whose path refers to its schema and whose rewritten reference resolves to nothing |
| ContractLosses.LoseInnerReference | scripts/split_openapi_contract.py:38-51 | under every root name, a contract whose path refers to a part of its schema, found before the split and not after it |
| ContractLosses.LoseDomain | scripts/split_openapi_contract.py:99-125 | a contract whose second schema is reached from one domain only and still lands in the common file |
| ContractInterior.InnerReferenceIsLost | scripts/split_openapi_contract.py:156-171 | a rewritten reference into a component finds something exactly if it points to the text of the root's own reference |
| ContractInterior.RootReferencesResolve | scripts/split_openapi_contract.py:171-175 | a component reference that stays in the root resolves under every root name, exactly if its kind is split |
| ContractInterior.EventContractsStay | scripts/split_openapi_contract.py:171-175 | the root holds the event contracts as they were |
| ContractReading.DomainReferenceResolves | scripts/split_openapi_contract.py:148-170 | the root's reference to a path or schema resolves to its rewritten value in the domain file |
| ContractReading.CommonReferenceResolves | scripts/split_openapi_contract.py:154-161 | the root's reference to a common component resolves to its rewritten value |
| ContractReading.InliningGivesBack | scripts/split_openapi_contract.py:81-171 | inlining the files and undoing the prefix gives back all paths and components exactly when no part carries the prefix |
| ContractReading.LocalReferencesResolve | scripts/split_openapi_contract.py:38-51 | rewritten references resolve through the root to the same components exactly when the root is named openapi.yaml and the kind is split |
| BudgetTable.Sum | turnstile_core/persistence/repository_budgets.py:231-239 | the summing loop computes the sum of the chosen rows |
| BudgetTable.UpsertKeepsCaps | turnstile_core/persistence/repository_budgets.py:184-303 | an accepted upsert keeps every cap in one unit, at the row, its parent and everywhere else |
| BudgetTable.UpsertIsExact | turnstile_core/persistence/repository_budgets.py:208-268 | an upsert is refused exactly when it would break a cap or mix units among siblings |
| BudgetTable.BulkKeepsCaps | turnstile_core/persistence/repository_budgets.py:1031-1095 | an accepted bulk write keeps every cap, even when an entry repeats |
| BudgetTable.TransactionKeepsCaps | turnstile_core/persistence/repository_budgets.py:184-443 | every transaction keeps all caps, whatever its caller checked |
| BudgetTable.EveryInterleavingKeepsCaps | turnstile_core/persistence/repository_budgets.py:184-443 | any sequence of transactions of any callers keeps all caps |
| BudgetHierarchy.AllocatedAreChildren | backend/services/budget_service.py:823-878 | in a catalogued table the catalog's allocated children are the table's, with the same total |
| BudgetHierarchy.ServiceAndTableAgree | backend/services/budget_service.py:806-878 | the service's checks accept exactly what the table's transaction accepts under an allocated parent |
| BudgetHierarchy.SaveAcceptsExactlyConsistent | backend/services/budget_service.py:769-878 | a save is accepted exactly when the resulting hierarchy is consistent, and the table never refuses what the service let through |
| BudgetHierarchy.RemoveAcceptsExactlyConsistent | backend/services/budget_service.py:880-912 | a removal is accepted exactly when the scope is allocated and what remains is consistent |
| BudgetAnswers.UpsertAnswer | turnstile_core/persistence/repository_budgets.py:208-268 | the transaction reports the first of its five violations that the row commits, each said of the table's rows |
| BudgetAnswers.SaveAnswer | backend/services/budget_service.py:769-878 | a save reports the first reason that holds, each said of catalog and table, and otherwise stores just this row |
| BudgetAnswers.RemoveAnswer | backend/services/budget_service.py:880-912 | a removal reports the first reason that holds and otherwise removes just this row |
| BudgetBulk.NamedPeopleBelong | backend/services/budget_service.py:632-638 | naming people selects all of them, or is refused because one does not belong to the department |
| BudgetBulk.ShareIsLargest | backend/services/budget_service.py:696-710 | an equal share leaves less than one unit each, and is at least one exactly when there is one each |
| BudgetBulk.ChildrenAfterBulk | turnstile_core/persistence/repository_budgets.py:1075-1134 | after a bulk write the department's children are the unselected and the written ones, and their totals add |
| BudgetBulk.BulkChecksAgree | backend/services/budget_service.py:663-728 | the service's bulk checks accept exactly what the table's transaction accepts |
| BudgetBulk.FixedAcceptsExactlyConsistent | backend/services/budget_service.py:613-768 | a fixed allocation is accepted exactly when the resulting hierarchy is consistent |
| BudgetBulk.EqualGivesLargestFixed | backend/services/budget_service.py:695-728 | equal distribution decides as the largest fixed allocation that would be accepted: refused exactly when one unit each is, and one unit more would be refused |
| BudgetBulk.EqualLeavesLessThanOneEach | backend/services/budget_service.py:695-740 | after equal distribution the department has a remainder of zero or more, below one unit for each selected person |
| BudgetBulk.BulkKeepsConsistent | backend/services/budget_service.py:613-768 | every accepted bulk write keeps the hierarchy consistent |
| BudgetAnswers.BulkRefused | backend/services/budget_service.py:613-661 | a bulk write is refused for the first reason that holds, and one that keeps the limits writes none |
| BudgetAnswers.BulkAnswer | backend/services/budget_service.py:663-768 | otherwise it gives each selected person the fixed limit or the largest share, if that fits what the department has left, and touches no other row |
| BudgetService.EverySequenceKeepsConsistent | backend/services/budget_service.py:613-912 | every sequence of saves, bulk saves and removals keeps parents allocated, one unit and all caps |
| BudgetService.RemovalDuringSaveLeavesOrphan | turnstile_core/persistence/repository_budgets.py:208-248 | a removal of the parent between a save's check and its transaction always commits and leaves a row without its parent, with all caps intact |
| BudgetService.OverlappedSaveIsSafeIffParentRemains | backend/services/budget_service.py:769-878 | whatever calls run between a save's check and its transaction, the hierarchy stays consistent exactly if the transaction is refused or still finds its parent allocated |
| BudgetService.OnlyUpsertMayOrphan | turnstile_core/persistence/repository_budgets.py:184-443 | of all transactions only an accepted upsert without an allocated parent leaves a row without its parent |
| BudgetService.SuchAnOverlapExists | backend/services/budget_service.py:806-878 | a concrete catalog and table where this can happen |
| BudgetService.TokenBudgetService.UpsertTokenBudget | turnstile_core/persistence/repository_budgets.py:184-303 | the transaction stores the row or reports the violation of the specification |
| BudgetService.TokenBudgetService.BulkUpsertUserBudgets | turnstile_core/persistence/repository_budgets.py:1031-1134 | the transaction writes all entries or reports the violation and writes none |
| BudgetService.TokenBudgetService.DeleteTokenBudget | turnstile_core/persistence/repository_budgets.py:382-443 | deletes unless children are allocated, and tells whether there was a row |
| BudgetService.TokenBudgetService.Save | backend/services/budget_service.py:769-878 | the whole call answers and stores as specified and keeps the hierarchy consistent |
| BudgetService.TokenBudgetService.BulkSavePeople | backend/services/budget_service.py:613-768 | the whole call answers and stores as specified and keeps the hierarchy consistent |
| BudgetService.TokenBudgetService.RemoveBudget | backend/services/budget_service.py:880-912 | the whole call answers and stores as specified and keeps the hierarchy consistent |
| BudgetOverview.ListOverview | backend/services/budget_service.py:240-400 | the loops over levels and scopes compute the specified rows, risk list and count |
| BudgetRows.OverviewIs | backend/services/budget_service.py:240-499 | the overview is one row for each entity, level by level in catalog order, under the unit of the nearest budget above; the ranked risks cut at 25, ties in catalog order; and the count of all risks |
| BudgetRows.UsdRow | backend/services/budget_service.py:296-356 | a dollar budget of so many cents is exceeded exactly if the use in cents reaches it, and else warns exactly if the larger percentage, each to the nearest tenth, reaches the threshold |
| BudgetRows.TokenRow | backend/services/budget_service.py:291-362 | the same of a token budget |
| BudgetRows.PlainRow | backend/services/budget_service.py:284-339 | a scope without a budget has no percentages, a threshold of 80 and the unit from above |
| BudgetRows.TokenForecast | backend/services/budget_service.py:214-225 | the token forecast is nothing before the period, the use after it, and within it the integer nearest to the use at the same pace |
| BudgetRows.UsdForecast | backend/services/budget_service.py:227-238 | the dollar forecast likewise, to the precision of the decimal division |
| BudgetRows.UsdForecastIsAtLeastUse | backend/services/budget_service.py:227-238 | once the period runs the dollar forecast is below the use by less than one step of its rounding |
| BudgetOverview.RisksAreSorted | backend/services/budget_service.py:393-400 | the risk list is a permutation of the risks in descending order of forecast, usage and name |
| BudgetOverview.UnallocatedIsNoRisk | backend/services/budget_service.py:268-276 | nobody without a budget is at risk |
| BudgetOverview.CompactRefinesFull | backend/services/budget_service.py:262-400 | the compact overview has the same ordered risks, the same count and the same organization and department rows as the full one |
| BudgetOverview.TokenRiskIsForecastRisk | backend/services/budget_service.py:316-362 | once the period runs a token budget is at risk exactly when the rounded forecast reaches its threshold, and exceeded exactly when the limit is used up |
| BudgetOverview.ForecastIsAtLeastUse | backend/services/budget_service.py:216-226 | during and after the period nobody is forecast to use fewer tokens than they did |
| DiagnosticClaims.ClaimKeepsInv | turnstile_core/persistence/repository_publications.py:3121-3134 | an atomic claim keeps all claims a lease apart |
| DiagnosticClaims.ReachableKeepsInv | backend/services/runtime_diagnostics.py:429-627 | in every reachable state claims are a lease apart, dispatches began in time and the row speaks of the latest claim |
| DiagnosticClaims.RowBelongsToLatestClaim | backend/services/runtime_diagnostics.py:616-627 | the stored marker or result is always that of the latest claim |
| DiagnosticClaims.OnlyNewerClaimSupersedes | turnstile_core/persistence/repository_publications.py:3135-3145 | a run loses the row only to a claim at least a lease younger |
| DiagnosticClaims.TightTimingAllowsTwoCalls | backend/services/runtime_diagnostics.py:466-543 | if deadline, dispatch slack and call exceed the lease, some run of two diagnostics has both calls in flight |
| DiagnosticClaims.OneCallExactlyWhenSafe | backend/services/runtime_diagnostics.py:429-543 | no two calls are ever in flight together exactly when deadline, slack and call fit into the lease |
| DiagnosticClaims.ServiceTimingIsSafe | backend/services/runtime_diagnostics.py:429-543 | with 60, 45 and 12 seconds that is exactly a slack of at most three seconds |
| DiagnosticRuns.SharedRuntime.ClaimDiagnostic | turnstile_core/persistence/repository_publications.py:3121-3134 | claims exactly if the last check is a lease old, and then the row carries the run's marker and start |
| DiagnosticRuns.SharedRuntime.FinishDiagnostic | turnstile_core/persistence/repository_publications.py:3135-3145 | records exactly if the row still carries the run's marker; otherwise a younger claim is there and nothing changes |
| DiagnosticRuns.SharedRuntime.Check | backend/services/runtime_diagnostics.py:429-640 | one diagnostic among any others ends rejected, recorded or superseded by a younger claim, through reachable states only; it dispatches exactly if the answer says so, and if not then it was not ready, not intact, or was superseded or past its deadline at a re-check |
| DiagnosticRuns.UndisturbedIsNotStopped | backend/services/runtime_diagnostics.py:485-543 | a run is not stopped while nobody else claims the row and its deadline has not come, so a ready and intact one dispatches |
| RouterChecks.IssueList.ValidateContext | backend/services/model_router_compiler.py:189-226 | appends exactly the specified issues of the input contract, in order |
| RouterChecks.IssueList.ValidateCandidates | backend/services/model_router_compiler.py:228-341 | appends exactly the specified issues of the candidate pool, in order |
| RouterChecks.IssueList.ValidateRules | backend/services/model_router_compiler.py:343-406 | appends exactly the specified issues of the rules, in order |
| RouterChecks.IssueList.ValidateAction | backend/services/model_router_compiler.py:386-406 | appends exactly the specified issues of one action |
| RouterChecks.IssueList.Validate | backend/services/model_router_compiler.py:78-103 | runs all checks in the compiler's order over one list |
| RouterIssues.IssuesAreFaults | backend/services/model_router_compiler.py:189-757 | the compiler reports an issue exactly if the specification has that fault at that place, each said of the specification and the registries alone |
| RouterSoundness.ContextIssuesAgree | backend/services/model_router_compiler.py:189-226 | no issues exactly if names are distinct and each field matches its enabled registration |
| RouterSoundness.PoolIssuesAgree | backend/services/model_router_compiler.py:228-341 | no issues exactly if each candidate is available and eligible and no two share a logical model |
| RouterSoundness.RuleIssuesAgree | backend/services/model_router_compiler.py:343-451 | no issues exactly if each condition fits a declared field and each action names candidates or an enabled profile |
| RouterSoundness.SelectorIssuesAgree | backend/services/model_router_compiler.py:453-621 | no issues exactly if the selector covers or stays within the pool, totals 10000, and its model, profile or evaluation qualifies |
| RouterSoundness.NoIssuesMeansAccepted | backend/services/model_router_compiler.py:50-103 | the compiler has no issues exactly if the specification meets the order-free acceptance predicate |
| RouterSoundness.OrdersArePermutations | backend/services/model_router_compiler.py:463-476 | priority, weighted and static orders of an accepted router are permutations of the candidates, and weights share out 10000 |
| RouterSoundness.NamesOnlyCandidates | backend/services/model_router_compiler.py:796-840 | every model named in rules, selector, fallback or policy of an accepted router is a candidate |
| RouterSoundness.CandidatesAreEligible | backend/services/model_router_compiler.py:228-341 | every candidate of an accepted router is enabled, carries its identity, meets every demand and is alone in its logical model |
| RouterPlans.LookupsArePresent | backend/services/model_router_compiler.py:161-175 | with no issues every candidate, profile and routing model that the plan looks up is registered |
| RouterPlans.Compile | backend/services/model_router_compiler.py:35-187 | accepted specifications, and only they, give a plan, and its every part fits the specification and the registries: what is kept is equal, what is sorted is in order and lists the same; otherwise exactly the non-empty issues |
| RouterPlans.PlanIsFit | backend/services/model_router_compiler.py:105-187 | rules, stickiness, policy and written orders are the specification's; candidates, profiles and the routing model are their registered facts in order; fields, operations, demands and events are listed once, in order |
| TextOrder.AtMostIsByFirstDifference | backend/services/model_router_compiler.py:116-146 | the order of texts is that of their first difference |
| RouterPlans.SameBasisPoints | backend/services/model_router_compiler.py:470-476 | the total of the weights does not depend on their order |
| RouterPlans.SelectorsNormalizedAlike | backend/services/model_router_compiler.py:759-776 | selectors that differ only in the order of allocations or models are normalized alike |
| RouterPlans.PlanForgetsOrder | backend/services/model_router_compiler.py:105-187 | reordering candidates, operations, capabilities, providers, zones, fields, allocations, model lists or events changes neither acceptance nor the plan; rules and written orders stay |
| RouterLocality.CompilationIsLocal | backend/services/model_router_v3_service.py:165-239 | registries that agree on the fetched keys give the same issues, acceptance and plan |
| RouterLocality.FetchedRowsSuffice | backend/services/model_router_v3_service.py:165-239 | compiling against only the fetched rows gives what the whole registries give |
| Orders.SortForgetsOrder | backend/services/model_router_compiler.py:105-187 | sorting items that the order tells apart gives one result for all their permutations |
| Orders.SortedSetIsStrict | backend/services/model_router_compiler.py:116-146 | a sorted set holds each element once in strict order |
| PolicyNormalization.NormalizeChildren | scripts/install_model_availability.py:99-123 | succeeds exactly on known structures, gives the normalized children, and reports a change exactly if some choice was not well-formed; unchanged nodes come back as they were |
| PolicyReadings.KnownIsRecognized | scripts/install_model_availability.py:106-123 | the structures that the rewriting knows: choices of branches only, and choices in a when branch that begin with the two budget variables and go on with branches |
| PolicyReadings.HoistedIs | scripts/install_model_availability.py:116-122 | a legacy choice becomes its first two elements and then the choice without them, comments in their place |
| PolicyNormalization.HoistKeepsRun | scripts/install_model_availability.py:118-121 | setting the leading variables before a choice does what the choice did |
| PolicyReadings.NodeRuns | scripts/install_model_availability.py:99-123 | in the semantics that rewriting preserves, any other element runs its children once between its entry and its exit |
| PolicyReadings.TakenIs | scripts/install_model_availability.py:99-123 | a choice takes the first when branch whose condition holds, and else its first otherwise branch |
| PolicyNormalization.NormalizationPreservesExecution | scripts/install_model_availability.py:99-123 | a known policy executes as before from every state, for every reading of conditions and elements |
| PolicyNormalization.NormalizationConservesNodes | scripts/install_model_availability.py:118-121 | normalizing keeps the multiset of all nodes, comments included |
| PolicyNormalization.NormalizedIsWellFormed | scripts/install_model_availability.py:99-123 | afterwards every choice has only when and otherwise children |
| PolicyNormalization.WellFormedStays | scripts/install_model_availability.py:106-123 | a policy whose choices are well-formed is known and stays as it is |
| PolicyNormalization.NormalizationIsIdempotent | scripts/install_model_availability.py:99-123 | normalizing twice is normalizing once |
| InstallationApply.LandingKeepsProgress | scripts/install_model_availability.py:346-349 | a conditional write (RFC 9110, sections 13.1.1 and 13.1.2) replaces nothing but the recorded baseline, once for each change |
| InstallationApply.LogKeepsProgress | scripts/install_model_availability.py:343-372 | each journal line keeps the journal a truthful first part of the plan |
| InstallationApply.InterferenceKeepsProgress | scripts/install_model_availability.py:328-372 | other writers do not invalidate what was reached |
| InstallationRuns.Installer.Put | scripts/install_model_availability.py:346-356 | a write lands only under its condition; a lost response leaves open whether it did |
| InstallationRuns.Installer.ReadTarget | scripts/install_model_availability.py:357-369 | the readback matches exactly if the target exists and compares equal to the candidate |
| InstallationRuns.Installer.Apply | scripts/install_model_availability.py:328-372 | at any end or crash: attempts and verifications are first parts of the plan, only baselines were replaced, and with no other writer verified targets compare equal to the candidate and later ones are untouched; a run that stops met the reason that its outcome names; without faults the plan is applied |
| InstallationReadback.VerifiedIsCertainIffTelling | scripts/install_model_availability.py:349-372 | a verified target is certain to hold the candidate exactly if it was absent, held the candidate already, or held something that the comparison tells from it |
| InstallationReadback.OriginalMayBeVerified | scripts/install_model_availability.py:349-372 | a concrete application whose request was lost, whose target still holds its original, and which is verified |
| BootstrapActivation.EveryRunKeepsInv | backend/bootstrap_storage_route.py:204-356 | in every interleaving of interrupted runs all later phases share the claimed descriptor, its fence and the one recorded intent |
| BootstrapActivation.ActivationHappensAtMostOnce | backend/bootstrap_storage_route.py:305-353 | a fresh intent is recorded at most once and sent at most once |
| BootstrapActivation.InstalledRunsAgree | backend/bootstrap_storage_route.py:305-353 | all runs that install agree on descriptor, fence and the active head |
| BootstrapActivation.LostActivationStaysUnconfirmed | backend/bootstrap_storage_route.py:305-309 | once an intent is recorded whose batch has not landed, is not on its way and will not be sent, this stays so in every continuation |
| BootstrapActivation.InstallableUnlessStuck | backend/bootstrap_storage_route.py:271-356 | from every state that interrupted and overlapping runs and lost requests can leave, some continuation installs exactly if neither the claimed fence nor the recorded intent is beyond landing |
| BootstrapActivation.UnsentIntentIsReachable | backend/bootstrap_storage_route.py:305-353 | a concrete run that dies after recording its intent and before sending it |
| BootstrapActivation.UnwrittenFenceIsReachable | backend/bootstrap_storage_route.py:271-286 | a concrete run that dies after claiming its fence and before writing it |
| BootstrapActivation.LostFenceIsReachable | backend/bootstrap_storage_route.py:279-286 | a concrete run that does not die and whose fence write is lost |
| BootstrapActivation.ExpiredIntentIsReachable | turnstile_core/integrations/storage_route_projection.py:1411-1424 | a concrete run that does not die and whose approval expires between recording and sending |
| BootstrapActivation.LostBatchIsReachable | turnstile_core/integrations/storage_route_projection.py:1425-1445 | a concrete run that does not die and whose batch is sent and lost |
| BootstrapActivation.RecordThrough | backend/bootstrap_storage_route.py:169-172 | the journal object records what the state machine's step records |
| BootstrapActivation.NoteThrough | backend/bootstrap_storage_route.py:174-180 | the journal object notes the outcome that the state machine notes |
| BootstrapActivation.LandedIsRecovered | turnstile_core/integrations/storage_route_projection.py:1524-1559 | once the batch landed, a run that finds the journal recovers and installs |
| BootstrapOutcomes.JournalIsTruthful | turnstile_core/integrations/storage_route_projection.py:1408-1455 | in every reachable state the journal says that an activation expired only if it was never sent, is confirmed only if it landed, and is unknown only after it was sent; while its owner is at work it says that it started |
| BootstrapOutcomes.OnlyTheOwnerNotes | turnstile_core/integrations/storage_route_projection.py:1408-1455 | only the run that recorded the intent notes an outcome: expired before the dispatch, confirmed exactly if it then finds the receipt, and otherwise which unknown it met |
| BootstrapActivation.InitialActivationJournal.Save | backend/bootstrap_storage_route.py:158-167 | stores exactly if the row still holds what this run saw |
| BootstrapActivation.InitialActivationJournal.BeginOnce | backend/bootstrap_storage_route.py:169-172 | records exactly if neither view nor row has an activation |
| BootstrapActivation.InitialActivationJournal.RecordOutcome | backend/bootstrap_storage_route.py:174-180 | changes only the outcome, of its own intent, if the row is unchanged |
| ProgramLineage.UpgradedRemembers | backend/bootstrap_storage_route.py:549-553 | an upgrade remembers the previous program unless it is the first one, sorted and without repetition |
| ProgramLineage.LineageIsComplete | backend/bootstrap_storage_route.py:536-580 | after any number of upgrades the first program and the predecessors are exactly the earlier programs |
| ProgramLineage.OnlyTheFirstMayReturn | turnstile_core/domain/storage_routes.py:485-563 | an upgrade is bound exactly if its program is not the previous one, was not installed before unless first, and at most 32 predecessors are kept |
| ProgramLineage.ListedLineageRemembers | turnstile_core/domain/storage_routes.py:529-557 | in every accepted lineage, however it was made, the next installation remembers a program exactly if it lists any predecessor or the program is the first one; all later ones then do |
| ProgramLineage.RememberedDoesNotReturn | turnstile_core/domain/storage_routes.py:485-497 | in every accepted lineage a remembered program other than the first is never installed again, and at most 32 are listed, each once |
| ProgramLineage.AcceptedMayForget | turnstile_core/domain/storage_routes.py:529-557 | a concrete accepted lineage that lists no predecessors and installs its second program again |
| PasswordRecords.DecodeEncode | backend/services/auth_service.py:54-60 | decoding padless base64url gives back every sequence of bytes, and no encoding holds the record separator |
| PasswordRecords.NumberOfDecimal | backend/services/auth_service.py:77-99 | a cost parameter printed in decimal is read back |
| PasswordRecords.FieldsReadBack | backend/services/auth_service.py:77-95 | a record splits into its six fields, and each is read back |
| PasswordRecords.VerifyComparesKeys | backend/services/auth_service.py:63-101 | a password matches the record of another exactly when it is not empty and derives the same key |
| PasswordRecords.VerifyAcceptsOwnRecord | backend/services/auth_service.py:63-101 | every password matches its own record |
| PasswordRecords.CharsAreThoseOfTheAlphabet | backend/services/auth_service.py:54-56 | the alphabet of RFC 4648, section 5, by its ranges |
| PasswordRecords.SextetsAreBigEndian | backend/services/auth_service.py:54-56 | every three bytes are written as four sextets of the same number, highest first, and a rest of one or two bytes as two or three |
| PasswordRecords.VerifyRefusesOthers | backend/services/auth_service.py:86-101 | only a record of six fields with the right algorithm, readable costs, salt and key is ever matched |
| PasswordRecords.RecordIs | backend/services/auth_service.py:63-84 | a record is the algorithm, the costs 32768, 8 and 1, the salt and the derived key, joined by dollar signs |
| PasswordRecords.VerifyUsesRecordedCost | backend/services/auth_service.py:86-101 | a password is derived with the costs that its record names |
| TrafficPlans.MakePlan | backend/services/traffic.py:34-111 | each refusal is returned exactly for its reason, the last one exactly if the ceilings of all requests together exceed the budget; otherwise each request in turn gets an item with its model, prompt and ceiling |
| TrafficPlans.SelectedAreWanted | backend/services/traffic.py:37-42 | the selected models are exactly the enabled ones, named if any are named, that do not generate images, in order |
| TrafficPlans.CeilingIs | backend/services/traffic.py:69-75 | a ceiling is the price of a quarter of the prompt's length and the output tokens, to the nearest hundred-millionth |
| TrafficPlans.EveryModelGetsItsShare | backend/services/traffic.py:44-62 | the round robin asks every selected model exactly as often as requested |
| TrafficPlans.CallInTurn | backend/services/traffic.py:134-188 | attempts exactly the items before the first that does not fit |
| TrafficPlans.AttemptIs | backend/services/traffic.py:138-188 | an attempt records its item and succeeds exactly with its answer, at the estimate or else the ceiling |
| TrafficPlans.Execute | backend/services/traffic.py:113-197 | reports attempts, successes, failures, cost and stop of exactly that run |
| TrafficPlans.StopMeansOverrun | backend/services/traffic.py:134-137 | a budget stop means that an earlier call cost more than its ceiling |
| TrafficPlans.CeilingsKeepBudget | backend/services/traffic.py:134-188 | if no call costs more than its ceiling every item is attempted and the budget holds |
| TrafficPlans.PlannedCeilings | backend/services/traffic.py:65-79 | with a positive price every planned ceiling is zero or more |
| TrafficPlans.GenerateTraffic | backend/services/traffic.py:34-197 | planning and execution together: refusal exactly above the budget, a stop only after an overrun, everything within the budget without overruns, and an overshoot of at most the last success's excess |
| TrafficPlans.SpentIsEstimatedIffNoneCharged | backend/services/traffic.py:166-167 | the total is the sum of the estimates exactly if no success without a positive estimate had a positive ceiling |
| TrafficPlans.FreeCallIsCharged | backend/services/traffic.py:166-167 | a concrete call with an estimate of zero that is charged its ceiling |
| TrafficPlans.OvershootIsLastExcess | backend/services/traffic.py:134-167 | the total overshoots the budget by at most the last success's excess over its ceiling |

## Left out

- GatewaySnapshots.PlanImageUpgrade: the composed parent policy is an input, so refusing a parent policy that cannot be composed is not part of this model.
- Gateway upgrade: naming the candidate revision and the paging reads are inputs; effects that land after a run has ended are not modelled.
- Gateway upgrade: a fixed-program cutover, which passes its own operations to the template, is not part of this model.
- Splitter: YAML text, file deletion and percent-encoding in references; tags that are not lists of texts; component kinds other than the four that the code writes are dropped by it and so are not read back; a pointer finds object members, not array items.
- ContractSplitting.SplitContract: a path item that is no object is reported as an error, where the code fails with an attribute error.
- Budgets: the organization unit switch is reported as `UnitSwitch` and its effect is not modelled; the audit trail, the roll-forward between periods and the publication of model access are omitted.
- BudgetTable.UpsertIsExact: says nothing about rows without the limit of their mode, which the table's own constraint excludes.
- BudgetBulk.Decide: the people filter of a bulk write (name query and status) is an input set; decimal division is exact.
- BudgetOverview.CompactRefinesFull: history, enforcement and the display names are omitted; percentages are rounded exactly to one decimal instead of through binary floating point.
- Diagnostics: route, credential and configuration checks are two truth values; the disabled flag of a runtime, the monotonic clock (a second bound of the same length) and the projection of stored results are omitted.
- Router: stickiness, quality settings and profile configuration are opaque texts; the two digests of a plan are omitted, and capabilities that the plan adds for tools and streaming are not claimed of candidates.
- Router storage: create, update, publish and disable only store what the compiler returns.
- Installer: the tree is rewritten on values, so updates in place and node identity are not captured; text between elements is omitted; an element other than a choice runs its children once between an entry and an exit effect, which leaves out repeating elements.
- Installer: composing candidates and collecting the plan are inputs; a write that lands after the run has ended is not modelled, though its condition still guards the baseline.
- Bootstrap: proofs, inventory, database rollout and the expiry of approvals are covered only as reasons for which a run may fail; the policy edit of an upgrade is reduced to the digests it records.
- Traffic: project, department, agent and user attribution; exceptions other than refused calls.
- Passwords: the derivation is uninterpreted and timing is not modelled; what the runtime makes of texts outside the base64url alphabet and of numbers other than plain digits is a parameter; sessions and the sign-in around it are omitted.
- `scripts/deploy.py`, HTTP routing, the frontend, migrations and accounts.
