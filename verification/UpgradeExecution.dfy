/**
  The upgrade as it runs: one call at a time against a gateway and a journal file that
  outlive the run. A call that reports failure may have had its effect or not.
 */
module UpgradeExecution {
  import opened Wrappers
  import opened GatewaySnapshots
  import opened GatewayUpgrade
  import opened GatewayReadbacks

  class UpgradeSite {
    const reliable: bool
    const quiet: bool
    const exact: bool
    /** The gateway and the journal file, which outlive every run. */
    var site: Site
    /** Everything that any run has shown to the outside. */
    var log: seq<Event>
    /** The prepare writes that have landed on the candidate revision. */
    ghost var landed: set<Write>

    constructor (site: Site, reliable: bool, quiet: bool, exact: bool)
      ensures this.site == site && log == [] && landed == {}
      ensures this.reliable == reliable && this.quiet == quiet && this.exact == exact
    {
      this.reliable, this.quiet, this.exact := reliable, quiet, exact;
      this.site, log, landed := site, [], {};
    }

    ghost predicate SafeFrom(plan: ImageUpgradePlan, denial: Policy, origin: Site)
      reads this
    {
      Safe(plan, denial, exact, origin, site, landed)
    }

    // ----- The surroundings -----

    method Succeeds() returns (ok: bool)
      ensures reliable ==> ok
    {
      ok := *;
      ok := ok || reliable;
    }

    /** Other writers change any revision and the current pointer, but not the journal file. */
    method Interfere()
      modifies `site, `landed
      ensures site.journal == old(site.journal)
      ensures quiet ==> unchanged(this)
    {
      if !quiet {
        var revisions: map<string, Snapshot>, current: Option<string> := *, *;
        site := site.(revisions := revisions, current := current);
        landed := *;
      }
    }

    method ReadBack(written: Snapshot) returns (observed: Snapshot)
      ensures SameReadback(written, observed)
      ensures exact ==> observed == written
    {
      observed := *;
      if exact || !SameReadback(written, observed) {
        observed := written;
      }
    }

    method ChooseLanded(plan: ImageUpgradePlan) returns (done: set<Write>)
      ensures Deployable(plan, done)
      ensures reliable ==> done == PrepareWrites(plan)
    {
      done := *;
      if reliable || !Deployable(plan, done) {
        done := PrepareWrites(plan);
      }
    }

    // ----- The calls of a run -----

    method Read(asked: Option<string>) returns (found: Option<Snapshot>, ok: bool)
      modifies `site, `landed, `log
      ensures site.journal == old(site.journal)
      ensures quiet ==> site == old(site) && landed == old(landed)
      ensures reliable ==> ok
      ensures ok ==> found == site.Read(asked)
      ensures log == if ok then old(log) + [Observed(asked, found)] else old(log)
    {
      Interfere();
      ok := Succeeds();
      found := site.Read(asked);
      if ok {
        log := log + [Observed(asked, found)];
      }
    }

    method Save(plan: ImageUpgradePlan, status: Status) returns (ok: bool)
      modifies `site, `log
      ensures reliable ==> ok
      ensures if log == old(log) then site == old(site) && !ok
              else log == old(log) + [Event.Saved(status)] && site == old(site).Saved(plan, status)
    {
      ok := Succeeds();
      if !ok {
        return;
      }
      site := site.Saved(plan, status);
      log := log + [Event.Saved(status)];
      ok := Succeeds();
    }

    /** Deploys a subset of the prepare writes on a new clone of the source or on the candidate. */
    method Prepare(plan: ImageUpgradePlan, denial: Policy, createRevision: bool)
      returns (ok: bool, ghost done: set<Write>, ghost observed: Snapshot)
      modifies `site, `landed, `log
      ensures log == old(log) + [PrepareCalled(createRevision)]
      ensures site.journal == old(site.journal)
      ensures var base := old(site.Read(Some(if createRevision then plan.source.revision else plan.revision)));
              quiet ==>
                && site.current == old(site.current)
                && (ok ==> base.Some? && done == PrepareWrites(plan))
                && (ok || site.revisions != old(site.revisions) ==>
                      && base.Some?
                      && CandidateIs(plan, denial, exact, base.value, done, observed)
                      && landed == (if createRevision then {} else old(landed)) + done
                      && site.revisions == old(site.revisions)[plan.revision := observed])
                && (site.revisions == old(site.revisions) && !ok ==> landed == old(landed))
                && (reliable && base.Some? ==> ok)
    {
      log := log + [PrepareCalled(createRevision)];
      Interfere();
      var started := Succeeds();
      var base := site.Read(Some(if createRevision then plan.source.revision else plan.revision));
      done := {};
      observed := plan.source;
      if !started || base.None? {
        return false, done, observed;
      }
      var writes := ChooseLanded(plan);
      var candidate := ReadBack(Landed(plan, denial, writes, Clone(plan, base.value)));
      done, observed := writes, candidate;
      ok := Succeeds();
      ok := ok && writes == PrepareWrites(plan);
      var revisions := site.revisions[plan.revision := candidate];
      if !ok && site.revisions == revisions {
        return false, done, observed;
      }
      site := site.(revisions := revisions);
      landed := (if createRevision then {} else landed) + writes;
    }

    method Promote(revision: string) returns (ok: bool)
      modifies `site, `landed, `log
      ensures log == old(log) + [PromoteCalled(revision)]
      ensures site.journal == old(site.journal)
      ensures quiet ==> landed == old(landed)
      ensures quiet ==> site == old(site) || site == old(site).(current := Some(revision))
      ensures quiet && ok ==> site.current == Some(revision)
      ensures quiet && reliable && revision in site.revisions ==> ok
    {
      log := log + [PromoteCalled(revision)];
      Interfere();
      ok := Succeeds();
      if !ok || revision !in site.revisions {
        return false;
      }
      site := site.(current := Some(revision));
      ok := Succeeds();
    }

    // ----- The protocol -----

    /** What a run keeps, however it ends and whoever else writes. */
    twostate predicate Kept(plan: ImageUpgradePlan, denial: Policy, origin: Site)
      reads this
    {
      && old(log) <= log
      && (Disciplined(plan, denial, old(log)) ==> Disciplined(plan, denial, log))
      && (quiet && old(SafeFrom(plan, denial, origin)) ==> SafeFrom(plan, denial, origin))
    }

    /** What a fault-free run does. */
    twostate predicate Did(run: Run, outcome: Outcome)
      reads this
    {
      && site == run.site
      && outcome == run.outcome
      && Deployments(log) == Deployments(old(log)) + run.calls
    }

    /** What a fault-free run does, however the candidate it prepares reads back. */
    twostate predicate DidAlike(plan: ImageUpgradePlan, run: Run, outcome: Outcome)
      reads this
    {
      && SameRun(plan, run, Run(site, outcome, run.calls))
      && Deployments(log) == Deployments(old(log)) + run.calls
    }

    /** The last event is the observation of the current revision. */
    predicate Saw(asked: Option<string>, found: Option<Snapshot>)
      reads this
    {
      && |log| > 0
      && log[|log| - 1] == Observed(asked, found)
      && (quiet ==> found == site.Read(asked))
    }

    method ExecuteImageUpgrade(plan: ImageUpgradePlan, denial: Policy, rollback: bool, ghost origin: Site)
      returns (outcome: Outcome)
      requires plan.Planned()
      modifies this
      ensures Kept(plan, denial, origin)
      ensures quiet && reliable && rollback ==> Did(Rollback(plan, denial, old(site)), outcome)
      ensures quiet && reliable && !rollback ==> DidAlike(plan, Forward(plan, denial, old(site)), outcome)
      ensures quiet && reliable && exact && !rollback ==> Did(Forward(plan, denial, old(site)), outcome)
    {
      hide Disciplined, Deployments, Snapshot.Fingerprint, Safe, VerifyUpgradeSnapshot, ForwardRun, RollbackRun;
      if !plan.Required() {
        return NotRequired;
      }
      if site.journal.Some? && !site.JournalOf(plan) {
        return Refused;
      }
      var maintained := Succeeds();
      if !maintained {
        return Interrupted;
      }
      var present, ok := ReadCurrent(plan, denial, origin);
      if !ok {
        return Interrupted;
      }
      if present.None? {
        return Refused;
      }
      if rollback {
        outcome := RollBack(plan, denial, present.value, origin);
      } else {
        outcome := GoForward(plan, denial, present.value, origin);
      }
    }

    method ReadCurrent(plan: ImageUpgradePlan, denial: Policy, ghost origin: Site) returns (present: Option<Snapshot>, ok: bool)
      modifies this
      ensures Kept(plan, denial, origin)
      ensures ok ==> Saw(None, present)
      ensures quiet ==> site == old(site) && Deployments(log) == Deployments(old(log))
      ensures quiet && ok ==> present == site.Read(None)
      ensures reliable ==> ok
      ensures site.journal == old(site.journal)
    {
      hide Disciplined, Deployments, Safe;
      ghost var before := log;
      present, ok := Read(None);
      if ok {
        DisciplinedAppend(plan, denial, before, Observed(None, present));
      }
    }

    method GoForward(plan: ImageUpgradePlan, denial: Policy, present: Snapshot, ghost origin: Site)
      returns (outcome: Outcome)
      requires plan.Required() && (site.journal.Some? ==> site.JournalOf(plan))
      requires Saw(None, Some(present))
      modifies this
      ensures Kept(plan, denial, origin)
      ensures quiet && reliable ==> DidAlike(plan, ForwardRun(plan, denial, old(site), present), outcome)
      ensures quiet && reliable && exact ==> Did(ForwardRun(plan, denial, old(site), present), outcome)
    {
      hide Disciplined, Deployments, Snapshot.Fingerprint, Safe, VerifyUpgradeSnapshot, ConfirmRun, PrepareRun;
      if present.revision == plan.revision {
        outcome := ConfirmPromotion(plan, denial, present, origin);
      } else if present.Fingerprint() != plan.source.Fingerprint() {
        outcome := Refused;
      } else {
        outcome := PrepareAndPromote(plan, denial, present, origin);
      }
    }

    method ConfirmPromotion(plan: ImageUpgradePlan, denial: Policy, present: Snapshot, ghost origin: Site)
      returns (outcome: Outcome)
      requires plan.Required() && (site.journal.Some? ==> site.JournalOf(plan))
      requires Saw(None, Some(present)) && present.revision == plan.revision
      modifies this
      ensures Kept(plan, denial, origin)
      ensures quiet && reliable ==> Did(ConfirmRun(plan, denial, old(site), present), outcome)
    {
      if !site.Recorded(PROMOTION_STARTED) || !VerifyUpgradeSnapshot(plan, present, denial) {
        return Refused;
      }
      hide Disciplined, Deployments, VerifyUpgradeSnapshot, Landed;
      DisciplinedAppend(plan, denial, log, Event.Saved(Passed));
      var saved := Save(plan, Passed);
      outcome := if saved then Finished(Passed) else Interrupted;
    }

    method RollBack(plan: ImageUpgradePlan, denial: Policy, present: Snapshot, ghost origin: Site)
      returns (outcome: Outcome)
      requires plan.Required() && (site.journal.Some? ==> site.JournalOf(plan))
      requires Saw(None, Some(present))
      modifies this
      ensures Kept(plan, denial, origin)
      ensures quiet && reliable ==> Did(RollbackRun(plan, denial, old(site), present), outcome)
    {
      hide Disciplined, Deployments, Snapshot.Fingerprint, Safe, VerifyUpgradeSnapshot;
      if !site.Recorded(ROLLBACK_ALLOWED) {
        return Refused;
      }
      ghost var before := log;
      var original, ok := Read(Some(plan.source.revision));
      if !ok {
        return Interrupted;
      }
      DisciplinedAppend(plan, denial, before, Observed(Some(plan.source.revision), original));
      if original.None? || original.value.Fingerprint() != plan.source.Fingerprint() {
        return Refused;
      }
      if present.revision == plan.source.revision {
        if quiet && old(SafeFrom(plan, denial, origin)) {
          RolledBackKeepsSafe(plan, denial, exact, origin, site, landed);
        }
        DisciplinedAppend(plan, denial, log, Event.Saved(RolledBack));
        var saved := Save(plan, RolledBack);
        return if saved then Finished(RolledBack) else Interrupted;
      }
      if !VerifyUpgradeSnapshot(plan, present, denial) {
        return Refused;
      }
      outcome := SwitchBack(plan, denial, present, original, origin);
    }

    method SwitchBack(plan: ImageUpgradePlan, denial: Policy, ghost present: Snapshot,
                      ghost original: Option<Snapshot>, ghost origin: Site)
      returns (outcome: Outcome)
      requires plan.Required() && site.JournalOf(plan) && site.Recorded(ROLLBACK_ALLOWED)
      requires |log| > 1 && log[|log| - 2] == Observed(None, Some(present))
      requires quiet ==> site.Read(None) == Some(present)
      requires VerifyUpgradeSnapshot(plan, present, denial) && present.revision != plan.source.revision
      requires Saw(Some(plan.source.revision), original)
      requires SawOriginal(plan, Observed(Some(plan.source.revision), original))
      modifies this
      ensures Kept(plan, denial, origin)
      ensures quiet && reliable ==> Did(SwitchBackRun(plan, old(site)), outcome)
    {
      hide Disciplined, Deployments, Snapshot.Fingerprint, Safe, VerifyUpgradeSnapshot;
      ghost var safe := quiet && SafeFrom(plan, denial, origin);
      if safe {
        RollingBackKeepsSafe(plan, denial, exact, origin, site, landed);
      }
      DisciplinedAppend(plan, denial, log, Event.Saved(RollingBack));
      var saved := Save(plan, RollingBack);
      if !saved {
        return Interrupted;
      }
      if safe {
        SwitchKeepsSafe(plan, denial, exact, origin, site, landed, plan.source.revision);
      }
      DisciplinedAppend(plan, denial, log, PromoteCalled(plan.source.revision));
      var promoted := Promote(plan.source.revision);
      if !promoted {
        return Interrupted;
      }
      outcome := FinishRollback(plan, denial, origin);
    }

    method FinishRollback(plan: ImageUpgradePlan, denial: Policy, ghost origin: Site) returns (outcome: Outcome)
      requires site.Recorded({RollingBack}) && site.JournalOf(plan)
      modifies this
      ensures Kept(plan, denial, origin)
      ensures quiet && reliable && SawSource(plan, Observed(None, old(site.Read(None)))) ==>
                Did(Run(old(site).Saved(plan, RolledBack), Finished(RolledBack), []), outcome)
    {
      hide Disciplined, Deployments, Safe;
      ghost var before := log;
      var restored, ok := Read(None);
      if !ok {
        return Interrupted;
      }
      DisciplinedAppend(plan, denial, before, Observed(None, restored));
      if restored.None? || restored.value.Fingerprint() != plan.source.Fingerprint() {
        return Refused;
      }
      if quiet && old(SafeFrom(plan, denial, origin)) {
        RolledBackKeepsSafe(plan, denial, exact, origin, site, landed);
      }
      DisciplinedAppend(plan, denial, log, Event.Saved(RolledBack));
      var saved := Save(plan, RolledBack);
      outcome := if saved then Finished(RolledBack) else Interrupted;
    }

    method PrepareAndPromote(plan: ImageUpgradePlan, denial: Policy, present: Snapshot, ghost origin: Site)
      returns (outcome: Outcome)
      requires plan.Required() && (site.journal.Some? ==> site.JournalOf(plan))
      requires Saw(None, Some(present)) && present.revision != plan.revision
      requires SawSource(plan, Observed(None, Some(present)))
      modifies this
      ensures Kept(plan, denial, origin)
      ensures quiet && reliable ==> DidAlike(plan, PrepareRun(plan, denial, old(site), present), outcome)
      ensures quiet && reliable && exact ==> Did(PrepareRun(plan, denial, old(site), present), outcome)
    {
      hide Disciplined, Deployments, Snapshot.Fingerprint, Safe, VerifyUpgradeSnapshot, VerifyPartialCandidate, PrepareFound, Landed;
      ghost var before := log;
      var candidate, ok := Read(Some(plan.revision));
      if !ok {
        return Interrupted;
      }
      DisciplinedAppend(plan, denial, before, Observed(Some(plan.revision), candidate));
      outcome := PrepareFrom(plan, denial, present, candidate, origin);
    }

    method PrepareFrom(plan: ImageUpgradePlan, denial: Policy, ghost present: Snapshot, candidate: Option<Snapshot>, ghost origin: Site)
      returns (outcome: Outcome)
      requires plan.Required() && (site.journal.Some? ==> site.JournalOf(plan))
      requires |log| > 1 && log[|log| - 2] == Observed(None, Some(present)) && (quiet ==> site.Read(None) == Some(present))
      requires SawSource(plan, Observed(None, Some(present))) && present.revision != plan.revision
      requires Saw(Some(plan.revision), candidate)
      modifies this
      ensures Kept(plan, denial, origin)
      ensures quiet && reliable ==> DidAlike(plan, PrepareFound(plan, denial, old(site), present, candidate), outcome)
      ensures quiet && reliable && exact ==> Did(PrepareFound(plan, denial, old(site), present, candidate), outcome)
    {
      hide Disciplined, Deployments, Snapshot.Fingerprint, Safe, VerifyUpgradeSnapshot, VerifyPartialCandidate, CompleteRun, Landed;
      FingerprintTellsRevision(present, plan.source);
      ghost var safe := quiet && SafeFrom(plan, denial, origin);
      if candidate.Some? && (site.journal.None? || !VerifyPartialCandidate(plan, candidate.value, denial)) {
        return Refused;
      }
      if safe {
        PreparingKeepsSafe(plan, denial, exact, origin, site, landed);
      }
      DisciplinedAppend(plan, denial, log, Event.Saved(Preparing));
      var saved := Save(plan, Preparing);
      if !saved {
        return Interrupted;
      }
      outcome := CompleteFrom(plan, denial, present, candidate, origin);
    }

    method CompleteFrom(plan: ImageUpgradePlan, denial: Policy, ghost present: Snapshot, candidate: Option<Snapshot>, ghost origin: Site)
      returns (outcome: Outcome)
      requires plan.Required() && site.Recorded({Preparing}) && site.JournalOf(plan)
      requires |log| > 1 && log[|log| - 1] == Saved(Preparing)
      requires log[|log| - 2] == Observed(Some(plan.revision), candidate)
      requires SawAdoptable(plan, denial, Observed(Some(plan.revision), candidate))
      requires quiet ==> candidate == site.Read(Some(plan.revision)) && site.Read(None) == Some(present)
      requires present.revision == plan.source.revision != plan.revision
      modifies this
      ensures Kept(plan, denial, origin)
      ensures quiet && reliable ==> DidAlike(plan, CompleteRun(plan, denial, old(site), present, candidate), outcome)
      ensures quiet && reliable && exact ==> Did(CompleteRun(plan, denial, old(site), present, candidate), outcome)
    {
      hide Disciplined, Deployments, Snapshot.Fingerprint, Safe, VerifyUpgradeSnapshot, VerifyPartialCandidate, PromoteRun,
        Written, SameGateway;
      if candidate.None? || !VerifyUpgradeSnapshot(plan, candidate.value, denial) {
        ghost var meant := Written(plan, denial, site, if candidate.None? then present else candidate.value);
        WrittenKeepsCurrent(plan, denial, site, if candidate.None? then present else candidate.value);
        var prepared := PrepareCandidate(plan, denial, candidate, origin);
        if !prepared {
          return Interrupted;
        }
        if quiet && reliable {
          PromotesAlike(plan, denial, meant, site);
        }
      }
      outcome := PromoteCandidate(plan, denial, origin);
    }

    method PrepareCandidate(plan: ImageUpgradePlan, denial: Policy, candidate: Option<Snapshot>, ghost origin: Site)
      returns (prepared: bool)
      requires site.Recorded({Preparing}) && site.JournalOf(plan)
      requires |log| > 1 && log[|log| - 1] == Saved(Preparing)
      requires log[|log| - 2] == Observed(Some(plan.revision), candidate)
      requires SawAdoptable(plan, denial, Observed(Some(plan.revision), candidate))
      requires candidate.Some? ==> !VerifyUpgradeSnapshot(plan, candidate.value, denial)
      requires quiet ==> candidate == site.Read(Some(plan.revision))
      modifies this
      ensures Kept(plan, denial, origin)
      ensures site.journal == old(site.journal)
      ensures quiet && reliable ==>
                var base := old(site.Read(Some(if candidate.None? then plan.source.revision else plan.revision)));
                base.Some? ==>
                  && prepared
                  && Deployments(log) == Deployments(old(log)) + [PrepareCalled(candidate.None?)]
                  && var meant := Written(plan, denial, old(site), base.value);
                     SameGateway(plan, meant, site) && (exact ==> site == meant)
    {
      hide Disciplined, Deployments, Safe, VerifyUpgradeSnapshot, VerifyPartialCandidate, Landed;
      ghost var safe := quiet && SafeFrom(plan, denial, origin);
      ghost var before, earlier := site, landed;
      DisciplinedAppend(plan, denial, log, PrepareCalled(candidate.None?));
      ghost var done, observed;
      prepared, done, observed := Prepare(plan, denial, candidate.None?);
      if quiet && prepared {
        WrittenAlike(plan, before, Landed(plan, denial, done, Clone(plan, before.Read(
          Some(if candidate.None? then plan.source.revision else plan.revision)).value)), observed);
      }
      if safe && (prepared || site.revisions != before.revisions) {
        PrepareKeepsSafe(plan, denial, exact, origin, before, earlier, done, observed);
      }
    }

    method PromoteCandidate(plan: ImageUpgradePlan, denial: Policy, ghost origin: Site)
      returns (outcome: Outcome)
      requires plan.Required() && site.Recorded({Preparing}) && site.JournalOf(plan)
      modifies this
      ensures Kept(plan, denial, origin)
      ensures quiet && reliable ==> Did(PromoteRun(plan, denial, old(site)), outcome)
    {
      hide Disciplined, Deployments, Snapshot.Fingerprint, Safe, VerifyUpgradeSnapshot;
      ghost var before := log;
      var candidate, ok := Read(Some(plan.revision));
      if !ok {
        return Interrupted;
      }
      DisciplinedAppend(plan, denial, before, Observed(Some(plan.revision), candidate));
      if candidate.None? || !VerifyUpgradeSnapshot(plan, candidate.value, denial) {
        return Refused;
      }
      before := log;
      var present;
      present, ok := Read(None);
      if !ok {
        return Interrupted;
      }
      DisciplinedAppend(plan, denial, before, Observed(None, present));
      if present.None? || present.value.Fingerprint() != plan.source.Fingerprint() {
        return Refused;
      }
      outcome := SwitchForward(plan, denial, candidate.value, present, origin);
    }

    method SwitchForward(plan: ImageUpgradePlan, denial: Policy, ghost candidate: Snapshot,
                         ghost present: Option<Snapshot>, ghost origin: Site)
      returns (outcome: Outcome)
      requires plan.Required() && site.Recorded({Preparing}) && site.JournalOf(plan)
      requires |log| > 1 && log[|log| - 2] == Observed(Some(plan.revision), Some(candidate))
      requires quiet ==> site.Read(Some(plan.revision)) == Some(candidate)
      requires VerifyUpgradeSnapshot(plan, candidate, denial)
      requires Saw(None, present) && SawSource(plan, Observed(None, present))
      modifies this
      ensures Kept(plan, denial, origin)
      ensures quiet && reliable ==> Did(PromoteRun(plan, denial, old(site)), outcome)
    {
      hide Disciplined, Deployments, Snapshot.Fingerprint, Safe, VerifyUpgradeSnapshot;
      ghost var safe := quiet && SafeFrom(plan, denial, origin);
      if safe {
        PromotingKeepsSafe(plan, denial, exact, origin, site, landed);
      }
      DisciplinedAppend(plan, denial, log, Event.Saved(Promoting));
      var saved := Save(plan, Promoting);
      if !saved {
        return Interrupted;
      }
      if safe {
        SwitchKeepsSafe(plan, denial, exact, origin, site, landed, plan.revision);
      }
      DisciplinedAppend(plan, denial, log, PromoteCalled(plan.revision));
      var promoted := Promote(plan.revision);
      if !promoted {
        return Interrupted;
      }
      outcome := FinishPromotion(plan, denial, origin);
    }

    method FinishPromotion(plan: ImageUpgradePlan, denial: Policy, ghost origin: Site) returns (outcome: Outcome)
      requires site.Recorded({Promoting}) && site.JournalOf(plan)
      modifies this
      ensures Kept(plan, denial, origin)
      ensures quiet && reliable && SawVerified(plan, denial, None, Observed(None, old(site.Read(None)))) ==>
                Did(Run(old(site).Saved(plan, Passed), Finished(Passed), []), outcome)
    {
      hide Disciplined, Deployments, Safe, VerifyUpgradeSnapshot;
      ghost var before := log;
      var observed, ok := Read(None);
      if !ok {
        return Interrupted;
      }
      DisciplinedAppend(plan, denial, before, Observed(None, observed));
      if observed.None? || !VerifyUpgradeSnapshot(plan, observed.value, denial) {
        return Refused;
      }
      if quiet && old(SafeFrom(plan, denial, origin)) {
        PassedKeepsSafe(plan, denial, exact, origin, site, landed);
      }
      DisciplinedAppend(plan, denial, log, Event.Saved(Passed));
      var saved := Save(plan, Passed);
      outcome := if saved then Finished(Passed) else Interrupted;
    }

    /**
      Any number of forward and rollback runs, each failing wherever it may. With other
      writers, every deployment of every run is justified by what it observed just before.
      Without them, the gateway only ever serves the recorded source or a verified
      candidate under a promotion record, and no other revision changes.
     */
    method Operate(plan: ImageUpgradePlan, denial: Policy, rollbacks: seq<bool>, ghost origin: Site)
      requires plan.Planned()
      requires site == origin && origin.journal.None? && log == []
      modifies this
      ensures Disciplined(plan, denial, log)
      ensures quiet ==> SafeFrom(plan, denial, origin)
      ensures quiet && site.current != origin.current ==>
                && origin.current == Some(plan.source.revision)
                && site.current == Some(plan.revision)
                && site.Recorded({Promoting, Passed, RollingBack})
                && VerifyUpgradeSnapshot(plan, site.Read(None).value, denial)
      ensures quiet ==> forall name | name != plan.revision :: site.Read(Some(name)) == origin.Read(Some(name))
    {
      for i := 0 to |rollbacks|
        invariant Disciplined(plan, denial, log)
        invariant quiet ==> SafeFrom(plan, denial, origin)
      {
        var _ := ExecuteImageUpgrade(plan, denial, rollbacks[i], origin);
      }
      if quiet {
        SafeSite(plan, denial, exact, origin, site, landed);
      }
    }
  }

  /**
    Any number of runs with faults, and then one run without, all with whatever readbacks: it does what
    recovery promises from wherever the faults left the site.
   */
  method OperateThenRecover(machine: UpgradeSite, plan: ImageUpgradePlan, denial: Policy, rollbacks: seq<bool>, rollback: bool)
    returns (outcome: Outcome, later: UpgradeSite)
    requires plan.Planned() && machine.site.journal.None? && machine.log == [] && machine.quiet
    modifies machine
    ensures fresh(later)
    ensures machine.site.journal.Some? && !rollback ==>
              if MayGoForward(plan, machine.site)
              then && outcome == Finished(Passed) && old(machine.site).Read(None).Some?
                   && SameGateway(plan, Upgraded(plan, denial, old(machine.site)), later.site)
              else outcome == Refused && later.site == machine.site
    ensures machine.site.journal.Some? && !rollback && machine.exact ==>
              && (MayGoForward(plan, machine.site)
                  <==> !(machine.site.Recorded({RollingBack}) && machine.site.current == Some(plan.revision)))
              && (outcome == Finished(Passed) ==> Finishes(plan, denial, old(machine.site), later.site))
    ensures machine.site.journal.Some? && rollback ==>
              && (outcome == Finished(RolledBack) <==> PastPreparing(machine.site))
              && later.site.revisions == machine.site.revisions
              && (outcome == Finished(RolledBack) ==>
                    && later.site.current == old(machine.site).current
                    && later.site.Read(None) == old(machine.site).Read(None))
  {
    hide Safe, Forward, Rollback, Disciplined, VerifyUpgradeSnapshot, Finishes, MayGoForward, SameGateway, Upgraded, SameRun;
    ghost var origin := machine.site;
    machine.Operate(plan, denial, rollbacks, origin);
    later := new UpgradeSite(machine.site, true, machine.quiet, machine.exact);
    outcome := later.ExecuteImageUpgrade(plan, denial, rollback, origin);
    if machine.site.journal.Some? {
      if rollback {
        RollbackRecovers(plan, denial, machine.exact, origin, machine.site, machine.landed);
      } else {
        OriginWasServing(plan, denial, machine.exact, origin, machine.site, machine.landed);
        AnyReadbackRecovers(plan, denial, machine.exact, origin, machine.site, machine.landed,
                            Run(later.site, outcome, Forward(plan, denial, machine.site).calls));
        if machine.exact {
          ForwardRecovers(plan, denial, origin, machine.site, machine.landed);
          ForwardRecoversIffReadable(plan, denial, true, origin, machine.site, machine.landed);
        }
      }
    }
  }

  lemma OriginWasServing(plan: ImageUpgradePlan, denial: Policy, exact: bool, origin: Site, site: Site, landed: set<Write>)
    requires Safe(plan, denial, exact, origin, site, landed) && site.journal.Some?
    ensures origin.Read(None).Some?
  {
  }
}
