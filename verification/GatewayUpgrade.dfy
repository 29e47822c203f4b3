/**
  The gateway image upgrade: a journalled protocol that prepares a candidate revision,
  verifies it, promotes it, and can be rolled back. Every call may fail before, during or
  after its effect, a run may stop at any call, and the next run starts from the journal.

  Three flags of a site say how hostile its surroundings are. `reliable`: no call fails.
  `quiet`: nobody else writes to the gateway. `exact`: what is written reads back as
  written, instead of up to what the full check ignores.
 */
module GatewayUpgrade {
  import opened Wrappers
  import opened GatewaySnapshots

  /** The journalled status; `Unrecorded` is a journal without a known one. */
  datatype Status = Preparing | Promoting | Passed | RollingBack | RolledBack | Unrecorded

  datatype Record = Record(plan: ImageUpgradePlan, status: Status)

  datatype Outcome = NotRequired | Finished(status: Status) | Refused | Interrupted

  /** What outlives a run: the gateway and the journal file. */
  datatype Site = Site(
    revisions: map<string, Snapshot>,
    current: Option<string>,
    journal: Option<Record>)
  {
    /** One revision, or the current one. */
    function Read(asked: Option<string>): Option<Snapshot> {
      var name := if asked.Some? then asked else current;
      if name.Some? && name.value in revisions
      then Some(revisions[name.value].(revision := name.value))
      else None
    }

    predicate JournalOf(plan: ImageUpgradePlan) {
      journal.Some? && journal.value.plan == plan
    }

    predicate Recorded(statuses: set<Status>) {
      journal.Some? && journal.value.status in statuses
    }

    function Saved(plan: ImageUpgradePlan, status: Status): Site {
      this.(journal := Some(Record(plan, status)))
    }
  }

  /** What one run shows to the outside, in order. */
  datatype Event =
    | Observed(asked: Option<string>, found: Option<Snapshot>)
    | Saved(status: Status)
    | PrepareCalled(createRevision: bool)
    | PromoteCalled(revision: string)

  const PROMOTION_STARTED := {Promoting, Passed}
  const ROLLBACK_ALLOWED := {Passed, Promoting, RollingBack, RolledBack}

  // ----- The discipline of a trace -----

  predicate SawSource(plan: ImageUpgradePlan, event: Event) {
    && event.Observed?
    && event.asked.None?
    && event.found.Some?
    && event.found.value.Fingerprint() == plan.source.Fingerprint()
  }

  predicate SawOriginal(plan: ImageUpgradePlan, event: Event) {
    && event.Observed?
    && event.asked == Some(plan.source.revision)
    && event.found.Some?
    && event.found.value.Fingerprint() == plan.source.Fingerprint()
  }

  predicate SawVerified(plan: ImageUpgradePlan, denial: Policy, asked: Option<string>, event: Event) {
    && event.Observed?
    && event.asked == asked
    && event.found.Some?
    && VerifyUpgradeSnapshot(plan, event.found.value, denial)
  }

  predicate SawAdoptable(plan: ImageUpgradePlan, denial: Policy, event: Event) {
    && event.Observed?
    && event.asked == Some(plan.revision)
    && (event.found.Some? ==> VerifyPartialCandidate(plan, event.found.value, denial))
  }

  /** Whether the events that directly precede an event justify it. */
  predicate Justified(plan: ImageUpgradePlan, denial: Policy, before: seq<Event>, event: Event) {
    var n := |before|;
    match event
    case Observed(_, _) => true
    case Saved(Preparing) =>
      n >= 2 && SawSource(plan, before[n-2]) && SawAdoptable(plan, denial, before[n-1])
    case Saved(Promoting) =>
      n >= 2 && SawVerified(plan, denial, Some(plan.revision), before[n-2]) && SawSource(plan, before[n-1])
    case Saved(Passed) =>
      n >= 1 && SawVerified(plan, denial, None, before[n-1])
    case Saved(RollingBack) =>
      n >= 2 && SawVerified(plan, denial, None, before[n-2]) && SawOriginal(plan, before[n-1])
    case Saved(RolledBack) =>
      || (n >= 1 && SawSource(plan, before[n-1]))
      || (&& n >= 2 && SawOriginal(plan, before[n-1])
          && before[n-2].Observed? && before[n-2].asked.None? && before[n-2].found.Some?
          && before[n-2].found.value.revision == plan.source.revision)
    case Saved(Unrecorded) => false
    case PrepareCalled(createRevision) =>
      && n >= 2 && before[n-1] == Saved(Preparing)
      && SawAdoptable(plan, denial, before[n-2])
      && createRevision == before[n-2].found.None?
      && (before[n-2].found.Some? ==> !VerifyUpgradeSnapshot(plan, before[n-2].found.value, denial))
    case PromoteCalled(revision) =>
      && n >= 1
      && (|| (revision == plan.revision && before[n-1] == Saved(Promoting))
          || (revision == plan.source.revision && before[n-1] == Saved(RollingBack)))
  }

  ghost predicate Disciplined(plan: ImageUpgradePlan, denial: Policy, log: seq<Event>) {
    forall i: nat | i < |log| :: Justified(plan, denial, log[..i], log[i])
  }

  /**
    In every trace, a candidate is promoted only after it was read and fully verified,
    then the source was read as current and unchanged, then the checkpoint was saved, with
    nothing in between.
   */
  lemma PromotionFollowsVerification(plan: ImageUpgradePlan, denial: Policy, log: seq<Event>, i: nat)
    requires Disciplined(plan, denial, log) && i < |log|
    requires log[i] == PromoteCalled(plan.revision) && plan.revision != plan.source.revision
    ensures i >= 3
    ensures SawVerified(plan, denial, Some(plan.revision), log[i-3])
    ensures SawSource(plan, log[i-2])
    ensures log[i-1] == Saved(Promoting)
  {
    assert Justified(plan, denial, log[..i], log[i]);
    assert Justified(plan, denial, log[..i-1], log[i-1]);
  }

  /** A trace never writes to a candidate that it has just verified, or one it does not recognize. */
  lemma PreparationFollowsRecognition(plan: ImageUpgradePlan, denial: Policy, log: seq<Event>, i: nat)
    requires Disciplined(plan, denial, log) && i < |log| && log[i].PrepareCalled?
    ensures i >= 3
    ensures SawSource(plan, log[i-3])
    ensures SawAdoptable(plan, denial, log[i-2])
    ensures log[i].createRevision <==> log[i-2].found.None?
    ensures !log[i].createRevision ==> !VerifyUpgradeSnapshot(plan, log[i-2].found.value, denial)
  {
    assert Justified(plan, denial, log[..i], log[i]);
    assert Justified(plan, denial, log[..i-1], log[i-1]);
  }

  lemma DisciplinedAppend(plan: ImageUpgradePlan, denial: Policy, log: seq<Event>, event: Event)
    ensures Disciplined(plan, denial, log) && Justified(plan, denial, log, event)
            ==> Disciplined(plan, denial, log + [event])
    ensures Deployments(log + [event]) == Deployments(log) + Deployment(event)
  {
    var longer := log + [event];
    if Disciplined(plan, denial, log) && Justified(plan, denial, log, event) {
      forall i: nat | i < |longer|
        ensures Justified(plan, denial, longer[..i], longer[i])
      {
        assert longer[..i] == log[..i];
        assert log[..|log|] == log;
      }
    }
    assert longer[..|log|] == log;
  }

  function Deployment(event: Event): seq<Event> {
    if event.PrepareCalled? || event.PromoteCalled? then [event] else []
  }

  /** The deployments that a trace shows. */
  function Deployments(log: seq<Event>): seq<Event> {
    if |log| == 0 then [] else Deployments(log[..|log| - 1]) + Deployment(log[|log| - 1])
  }

  // ----- The invariant of every instant of every run -----

  /** Where the gateway points, for each status that a run may have left. */
  predicate CurrentAgrees(plan: ImageUpgradePlan, status: Status, current: Option<string>) {
    match status
    case Preparing => current == Some(plan.source.revision)
    case Promoting => current in {Some(plan.source.revision), Some(plan.revision)}
    case Passed => current == Some(plan.revision)
    case RollingBack => current in {Some(plan.source.revision), Some(plan.revision)}
    case RolledBack => current == Some(plan.source.revision)
    case Unrecorded => false
  }

  /** The candidate is the clone of the source with some of the prepare writes landed on it. */
  predicate CandidateIs(plan: ImageUpgradePlan, denial: Policy, exact: bool, base: Snapshot,
                        landed: set<Write>, candidate: Snapshot)
  {
    var expected := Landed(plan, denial, landed, Clone(plan, base));
    && Deployable(plan, landed)
    && SameReadback(expected, candidate)
    && (exact ==> candidate == expected)
  }

  /** `origin` is the site before the first run, with no journal yet. */
  ghost predicate Safe(plan: ImageUpgradePlan, denial: Policy, exact: bool, origin: Site, site: Site, landed: set<Write>) {
    && origin.journal.None?
    && site.revisions - {plan.revision} == origin.revisions - {plan.revision}
    && (site.journal.None? ==> site == origin)
    && (site.journal.Some? ==>
          var source := plan.source.revision;
          && plan.Required()
          && site.JournalOf(plan)
          && plan.revision != source
          && plan.revision !in origin.revisions
          && origin.current == Some(source)
          && origin.Read(None).Some?
          && origin.Read(None).value.Fingerprint() == plan.source.Fingerprint()
          && CurrentAgrees(plan, site.journal.value.status, site.current)
          && (site.journal.value.status != Preparing ==> plan.revision in site.revisions)
          && (plan.revision in site.revisions ==>
                var candidate := site.revisions[plan.revision];
                && CandidateIs(plan, denial, exact, origin.Read(None).value, landed, candidate)
                && (site.journal.value.status != Preparing ==>
                      VerifyUpgradeSnapshot(plan, candidate, denial))))
  }

  /** What the invariant says to an operator, at every instant of every run. */
  lemma SafeSite(plan: ImageUpgradePlan, denial: Policy, exact: bool, origin: Site, site: Site, landed: set<Write>)
    requires Safe(plan, denial, exact, origin, site, landed)
    ensures site.current in {origin.current, Some(plan.revision)}
    ensures site.current != origin.current ==>
              && origin.current == Some(plan.source.revision)
              && site.Recorded({Promoting, Passed, RollingBack})
              && VerifyUpgradeSnapshot(plan, site.Read(None).value, denial)
    ensures forall name | name != plan.revision :: site.Read(Some(name)) == origin.Read(Some(name))
    ensures plan.revision in origin.revisions ==> site == origin
    ensures site.journal.Some? ==>
              var original := site.Read(Some(plan.source.revision));
              original.Some? && original.value.Fingerprint() == plan.source.Fingerprint()
  {
    forall name | name != plan.revision
      ensures name in site.revisions <==> name in origin.revisions
      ensures name in site.revisions ==> site.revisions[name] == origin.revisions[name]
    {
      assert name in site.revisions - {plan.revision} <==> name in site.revisions;
      assert name in origin.revisions - {plan.revision} <==> name in origin.revisions;
    }
  }

  lemma PreparingKeepsSafe(plan: ImageUpgradePlan, denial: Policy, exact: bool, origin: Site, site: Site,
                           landed: set<Write>)
    requires Safe(plan, denial, exact, origin, site, landed) && plan.Required()
    requires SawSource(plan, Observed(None, site.Read(None)))
    requires site.Read(None).value.revision != plan.revision
    requires site.journal.None? ==> site.Read(Some(plan.revision)).None?
    ensures Safe(plan, denial, exact, origin, site.Saved(plan, Preparing), landed)
  {
  }

  lemma PromotingKeepsSafe(plan: ImageUpgradePlan, denial: Policy, exact: bool, origin: Site, site: Site,
                           landed: set<Write>)
    requires Safe(plan, denial, exact, origin, site, landed) && site.journal.Some?
    requires SawSource(plan, Observed(None, site.Read(None)))
    requires SawVerified(plan, denial, Some(plan.revision), Observed(Some(plan.revision), site.Read(Some(plan.revision))))
    ensures Safe(plan, denial, exact, origin, site.Saved(plan, Promoting), landed)
  {
  }

  lemma PassedKeepsSafe(plan: ImageUpgradePlan, denial: Policy, exact: bool, origin: Site, site: Site,
                        landed: set<Write>)
    requires Safe(plan, denial, exact, origin, site, landed) && site.journal.Some?
    requires SawVerified(plan, denial, None, Observed(None, site.Read(None)))
    ensures Safe(plan, denial, exact, origin, site.Saved(plan, Passed), landed)
  {
  }

  lemma RollingBackKeepsSafe(plan: ImageUpgradePlan, denial: Policy, exact: bool, origin: Site, site: Site,
                             landed: set<Write>)
    requires Safe(plan, denial, exact, origin, site, landed) && site.Recorded(ROLLBACK_ALLOWED)
    ensures Safe(plan, denial, exact, origin, site.Saved(plan, RollingBack), landed)
  {
  }

  lemma RolledBackKeepsSafe(plan: ImageUpgradePlan, denial: Policy, exact: bool, origin: Site, site: Site,
                            landed: set<Write>)
    requires Safe(plan, denial, exact, origin, site, landed) && site.Recorded(ROLLBACK_ALLOWED)
    requires site.Read(None).Some? && site.Read(None).value.revision == plan.source.revision
    ensures Safe(plan, denial, exact, origin, site.Saved(plan, RolledBack), landed)
  {
  }

  /** While a promotion or a rollback is recorded, the gateway may point to either revision. */
  lemma SwitchKeepsSafe(plan: ImageUpgradePlan, denial: Policy, exact: bool, origin: Site, site: Site,
                        landed: set<Write>, revision: string)
    requires Safe(plan, denial, exact, origin, site, landed)
    requires site.Recorded({Promoting, RollingBack})
    requires revision in {plan.revision, plan.source.revision}
    ensures Safe(plan, denial, exact, origin, site.(current := Some(revision)), landed)
  {
  }

  /** While preparation is recorded, prepare writes may land on the candidate. */
  lemma PrepareKeepsSafe(plan: ImageUpgradePlan, denial: Policy, exact: bool, origin: Site, site: Site,
                         landed: set<Write>, done: set<Write>, observed: Snapshot)
    requires Safe(plan, denial, exact, origin, site, landed)
    requires site.Recorded({Preparing})
    requires var base := site.Read(Some(if plan.revision in site.revisions then plan.revision else plan.source.revision));
             base.Some? && CandidateIs(plan, denial, exact, base.value, done, observed)
    ensures var earlier := if plan.revision in site.revisions then landed else {};
            Safe(plan, denial, exact, origin, site.(revisions := site.revisions[plan.revision := observed]), earlier + done)
  {
    SafeSite(plan, denial, exact, origin, site, landed);
    var base := origin.Read(None).value;
    var after := site.revisions[plan.revision := observed];
    assert after - {plan.revision} == site.revisions - {plan.revision};
    if plan.revision in site.revisions {
      LandedIsCumulative(plan, denial, landed, done, Clone(plan, base));
      LandedRespectsReadback(plan, denial, done, Landed(plan, denial, landed, Clone(plan, base)),
                             Clone(plan, site.revisions[plan.revision]));
    } else {
      assert {} + done == done;
    }
  }

  // ----- Fault-free runs -----

  /** A fault-free run: the site it leaves, how it ends, and the deployments it makes. */
  datatype Run = Run(site: Site, outcome: Outcome, calls: seq<Event>)

  function Forward(plan: ImageUpgradePlan, denial: Policy, site: Site): Run {
    var current := site.Read(None);
    if !plan.Required() then Run(site, NotRequired, [])
    else if (site.journal.Some? && !site.JournalOf(plan)) || current.None? then Run(site, Refused, [])
    else ForwardRun(plan, denial, site, current.value)
  }

  function ForwardRun(plan: ImageUpgradePlan, denial: Policy, site: Site, current: Snapshot): Run {
    if current.revision == plan.revision then ConfirmRun(plan, denial, site, current)
    else if current.Fingerprint() != plan.source.Fingerprint() then Run(site, Refused, [])
    else PrepareRun(plan, denial, site, current)
  }

  function ConfirmRun(plan: ImageUpgradePlan, denial: Policy, site: Site, current: Snapshot): Run {
    if site.Recorded(PROMOTION_STARTED) && VerifyUpgradeSnapshot(plan, current, denial)
    then Run(site.Saved(plan, Passed), Finished(Passed), [])
    else Run(site, Refused, [])
  }

  function PrepareRun(plan: ImageUpgradePlan, denial: Policy, site: Site, current: Snapshot): Run {
    PrepareFound(plan, denial, site, current, site.Read(Some(plan.revision)))
  }

  function PrepareFound(plan: ImageUpgradePlan, denial: Policy, site: Site, current: Snapshot, found: Option<Snapshot>): Run {
    if found.Some? && (site.journal.None? || !VerifyPartialCandidate(plan, found.value, denial)) then
      Run(site, Refused, [])
    else CompleteRun(plan, denial, site.Saved(plan, Preparing), current, found)
  }

  /** What follows the checkpoint of a preparation. */
  function CompleteRun(plan: ImageUpgradePlan, denial: Policy, site: Site, current: Snapshot, found: Option<Snapshot>): Run {
    if found.Some? && VerifyUpgradeSnapshot(plan, found.value, denial) then PromoteRun(plan, denial, site)
    else
      var run := PromoteRun(plan, denial, Written(plan, denial, site, if found.Some? then found.value else current));
      run.(calls := [PrepareCalled(found.None?)] + run.calls)
  }

  /** All prepare writes, over a clone of the source or the interrupted candidate. */
  function Written(plan: ImageUpgradePlan, denial: Policy, site: Site, base: Snapshot): Site {
    site.(revisions := site.revisions[plan.revision := Landed(plan, denial, PrepareWrites(plan), Clone(plan, base))])
  }

  function PromoteRun(plan: ImageUpgradePlan, denial: Policy, site: Site): Run {
    var candidate := site.Read(Some(plan.revision));
    var current := site.Read(None);
    if || candidate.None?
       || !VerifyUpgradeSnapshot(plan, candidate.value, denial)
       || current.None?
       || current.value.Fingerprint() != plan.source.Fingerprint()
    then Run(site, Refused, [])
    else Run(site.(current := Some(plan.revision)).Saved(plan, Passed), Finished(Passed), [PromoteCalled(plan.revision)])
  }

  function Rollback(plan: ImageUpgradePlan, denial: Policy, site: Site): Run {
    var current := site.Read(None);
    if !plan.Required() then Run(site, NotRequired, [])
    else if (site.journal.Some? && !site.JournalOf(plan)) || current.None? then Run(site, Refused, [])
    else RollbackRun(plan, denial, site, current.value)
  }

  function RollbackRun(plan: ImageUpgradePlan, denial: Policy, site: Site, current: Snapshot): Run {
    if || !site.Recorded(ROLLBACK_ALLOWED)
       || !SawOriginal(plan, Observed(Some(plan.source.revision), site.Read(Some(plan.source.revision))))
    then Run(site, Refused, [])
    else if current.revision == plan.source.revision then
      Run(site.Saved(plan, RolledBack), Finished(RolledBack), [])
    else if !VerifyUpgradeSnapshot(plan, current, denial) then Run(site, Refused, [])
    else SwitchBackRun(plan, site)
  }

  function SwitchBackRun(plan: ImageUpgradePlan, site: Site): Run {
    Run(site.(current := Some(plan.source.revision)).Saved(plan, RolledBack), Finished(RolledBack),
        [PromoteCalled(plan.source.revision)])
  }

  /** The gateway that an uninterrupted upgrade of `origin` leaves. */
  function Upgraded(plan: ImageUpgradePlan, denial: Policy, origin: Site): Site
    requires origin.Read(None).Some?
  {
    origin.(
    revisions := origin.revisions[plan.revision := PreparedCandidate(plan, denial, origin.Read(None).value)],
    current := Some(plan.revision)).Saved(plan, Passed)
  }

  lemma UninterruptedUpgrade(plan: ImageUpgradePlan, denial: Policy, origin: Site)
    requires plan.Planned() && plan.Required() && origin.journal.None?
    requires plan.revision != plan.source.revision && plan.revision !in origin.revisions
    requires origin.Read(None).Some? && origin.Read(None).value.Fingerprint() == plan.source.Fingerprint()
    ensures Forward(plan, denial, origin)
            == Run(Upgraded(plan, denial, origin), Finished(Passed),
                   [PrepareCalled(true), PromoteCalled(plan.revision)])
  {
    PreparedCandidateVerifies(plan, denial, origin.Read(None).value);
  }

  /** Two sites that agree on everything but the trivia of the candidate's policies. */
  predicate SameGateway(plan: ImageUpgradePlan, expected: Site, actual: Site) {
    && actual.current == expected.current
    && actual.journal == expected.journal
    && actual.revisions - {plan.revision} == expected.revisions - {plan.revision}
    && plan.revision in expected.revisions
    && plan.revision in actual.revisions
    && SameReadback(expected.revisions[plan.revision], actual.revisions[plan.revision])
  }

  /** The site of an uninterrupted upgrade, to the letter where the source policy is the planned text. */
  predicate Finishes(plan: ImageUpgradePlan, denial: Policy, origin: Site, site: Site)
    requires origin.Read(None).Some?
  {
    && SameGateway(plan, Upgraded(plan, denial, origin), site)
    && (origin.Read(None).value.parent == plan.source.parent ==> site == Upgraded(plan, denial, origin))
  }

  lemma SameRevisions(name: string, a: map<string, Snapshot>, b: map<string, Snapshot>)
    requires a - {name} == b - {name} && name in a && name in b
    ensures a[name] == b[name] ==> a == b
  {
    forall other ensures other in a <==> other in b
      ensures other in a && other != name ==> a[other] == b[other]
    {
      assert other != name ==> (other in a <==> other in a - {name}) && (other in b <==> other in b - {name});
    }
  }

  /** Writing the full candidate and switching to it gives the upgraded site. */
  lemma PreparedSite(plan: ImageUpgradePlan, denial: Policy, origin: Site, site: Site, landed: set<Write>)
    requires Safe(plan, denial, true, origin, site, landed) && site.journal.Some?
    ensures var candidate := PreparedCandidate(plan, denial, origin.Read(None).value);
            Finishes(plan, denial, origin,
                     site.(revisions := site.revisions[plan.revision := candidate],
                     current := Some(plan.revision)).Saved(plan, Passed))
  {
    var prepared := site.revisions[plan.revision := PreparedCandidate(plan, denial, origin.Read(None).value)];
    var upgraded := Upgraded(plan, denial, origin).revisions;
    assert upgraded - {plan.revision} == origin.revisions - {plan.revision};
    assert prepared - {plan.revision} == site.revisions - {plan.revision};
    SameRevisions(plan.revision, upgraded, prepared);
  }

  /** Finishing the writes on an interrupted candidate gives the full candidate. */
  lemma CompletedCandidate(plan: ImageUpgradePlan, denial: Policy, base: Snapshot, landed: set<Write>, candidate: Snapshot)
    requires plan.Planned() && base.Fingerprint() == plan.source.Fingerprint()
    requires CandidateIs(plan, denial, true, base, landed, candidate)
    ensures VerifyPartialCandidate(plan, candidate, denial)
    ensures Landed(plan, denial, PrepareWrites(plan), Clone(plan, candidate)) == PreparedCandidate(plan, denial, base)
  {
    EveryPartialCandidateIsAdopted(plan, denial, landed, base);
    LandedIsCumulative(plan, denial, landed, PrepareWrites(plan), Clone(plan, base));
    assert landed + PrepareWrites(plan) == PrepareWrites(plan);
  }

  /** A fault-free run on a site whose gateway still serves the source. */
  lemma ForwardFromSource(plan: ImageUpgradePlan, denial: Policy, origin: Site, site: Site, landed: set<Write>)
    requires plan.Planned() && site.journal.Some?
    requires Safe(plan, denial, true, origin, site, landed)
    requires site.current == Some(plan.source.revision)
    ensures var run := Forward(plan, denial, site);
            && run.outcome == Finished(Passed)
            && Finishes(plan, denial, origin, run.site)
  {
    hide VerifyUpgradeSnapshot, VerifyPartialCandidate, Landed, Finishes, Upgraded;
    SafeSite(plan, denial, true, origin, site, landed);
    var base := origin.Read(None).value;
    PreparedCandidateVerifies(plan, denial, base);
    PreparedSite(plan, denial, origin, site, landed);
    if plan.revision in site.revisions {
      var candidate := site.revisions[plan.revision];
      CompletedCandidate(plan, denial, base, landed, candidate);
      if VerifyUpgradeSnapshot(plan, candidate, denial) {
        FinishedSite(plan, denial, origin, site, landed);
      }
    }
  }

  lemma FinishedSite(plan: ImageUpgradePlan, denial: Policy, origin: Site, site: Site, landed: set<Write>)
    requires plan.Planned() && site.journal.Some?
    requires Safe(plan, denial, true, origin, site, landed)
    requires plan.revision in site.revisions
    requires VerifyUpgradeSnapshot(plan, site.revisions[plan.revision], denial)
    ensures Finishes(plan, denial, origin, site.(current := Some(plan.revision)).Saved(plan, Passed))
  {
    VerifiedCandidateIsPrepared(plan, denial, landed, origin.Read(None).value);
    assert Upgraded(plan, denial, origin).revisions - {plan.revision} == origin.revisions - {plan.revision};
    SameRevisions(plan.revision, Upgraded(plan, denial, origin).revisions, site.revisions);
  }

  /**
    From whatever an interrupted run left, with exact readbacks, a fault-free forward run
    passes and leaves the site of an uninterrupted upgrade, unless a rollback was started
    and has not yet switched the gateway back.
   */
  lemma ForwardRecovers(plan: ImageUpgradePlan, denial: Policy, origin: Site, site: Site, landed: set<Write>)
    requires plan.Planned() && site.journal.Some?
    requires Safe(plan, denial, true, origin, site, landed)
    ensures var run := Forward(plan, denial, site);
            if site.Recorded({RollingBack}) && site.current == Some(plan.revision)
            then run == Run(site, Refused, [])
            else run.outcome == Finished(Passed) && Finishes(plan, denial, origin, run.site)
  {
    if site.current == Some(plan.source.revision) {
      ForwardFromSource(plan, denial, origin, site, landed);
    } else {
      FinishedSite(plan, denial, origin, site, landed);
    }
  }

  /** What a passed run leaves: a verified current candidate under a passed record. */
  predicate ConfirmedSite(plan: ImageUpgradePlan, denial: Policy, site: Site) {
    && plan.Required()
    && site.journal == Some(Record(plan, Passed))
    && site.current == Some(plan.revision)
    && site.Read(None).Some?
    && VerifyUpgradeSnapshot(plan, site.Read(None).value, denial)
  }

  lemma PromoteRunConfirms(plan: ImageUpgradePlan, denial: Policy, site: Site)
    ensures var run := PromoteRun(plan, denial, site);
            run.outcome == Finished(Passed) && plan.Required() ==> ConfirmedSite(plan, denial, run.site)
  {
    hide VerifyUpgradeSnapshot, Snapshot.Fingerprint;
  }

  lemma PrepareRunConfirms(plan: ImageUpgradePlan, denial: Policy, site: Site, current: Snapshot)
    ensures var run := PrepareRun(plan, denial, site, current);
            run.outcome == Finished(Passed) && plan.Required() ==> ConfirmedSite(plan, denial, run.site)
  {
    hide VerifyUpgradeSnapshot, VerifyPartialCandidate, Landed, PromoteRun, ConfirmedSite;
    var found := site.Read(Some(plan.revision));
    PromoteRunConfirms(plan, denial, site.Saved(plan, Preparing));
    var base := if found.Some? then found.value else current;
    var candidate := Landed(plan, denial, PrepareWrites(plan), Clone(plan, base));
    PromoteRunConfirms(plan, denial, site.(revisions := site.revisions[plan.revision := candidate]).Saved(plan, Preparing));
  }

  lemma PassedRunConfirms(plan: ImageUpgradePlan, denial: Policy, site: Site)
    ensures var run := Forward(plan, denial, site);
            run.outcome == Finished(Passed) ==> ConfirmedSite(plan, denial, run.site)
  {
    hide VerifyUpgradeSnapshot, PrepareRun, Snapshot.Fingerprint;
    if site.Read(None).Some? {
      PrepareRunConfirms(plan, denial, site, site.Read(None).value);
    }
  }

  lemma ConfirmedStays(plan: ImageUpgradePlan, denial: Policy, site: Site)
    requires ConfirmedSite(plan, denial, site)
    ensures Forward(plan, denial, site) == Run(site, Finished(Passed), [])
  {
    hide VerifyUpgradeSnapshot, PrepareRun, Snapshot.Fingerprint;
  }

  /** A further forward run changes nothing and calls neither prepare nor promote. */
  lemma UpgradeIsIdempotent(plan: ImageUpgradePlan, denial: Policy, site: Site)
    ensures var run := Forward(plan, denial, site);
            run.outcome == Finished(Passed) ==>
              Forward(plan, denial, run.site) == Run(run.site, Finished(Passed), [])
  {
    hide Forward, ConfirmedSite;
    var run := Forward(plan, denial, site);
    PassedRunConfirms(plan, denial, site);
    if run.outcome == Finished(Passed) {
      ConfirmedStays(plan, denial, run.site);
    }
  }

  /** Some run recorded a checkpoint later than that of the preparation. */
  predicate PastPreparing(site: Site) {
    site.journal.Some? && site.journal.value.status != Preparing
  }

  /**
    Once a promotion was recorded, a fault-free rollback succeeds from whatever an
    interrupted run left. It restores the recorded source and touches no revision.
   */
  lemma RollbackRecovers(plan: ImageUpgradePlan, denial: Policy, exact: bool, origin: Site, site: Site, landed: set<Write>)
    requires Safe(plan, denial, exact, origin, site, landed)
    ensures var run := Rollback(plan, denial, site);
            && (run.outcome == Finished(RolledBack) <==> PastPreparing(site))
            && run.site.revisions == site.revisions
            && (PastPreparing(site) ==>
                  && run.site.journal == Some(Record(plan, RolledBack))
                  && run.site.current == origin.current
                  && run.site.Read(None) == origin.Read(None)
                  && run.site.Read(None).value.Fingerprint() == plan.source.Fingerprint())
  {
    SafeSite(plan, denial, exact, origin, site, landed);
  }
}
