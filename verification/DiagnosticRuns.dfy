/** One diagnostic in program order, among any number of others on the same runtime. */
module DiagnosticRuns {
  import opened Wrappers
  import opened DiagnosticClaims

  function RunOf(step: Step): Option<RunId> {
    if step.Tick? then None else Some(step.run)
  }

  // ----- Reasons for not calling -----

  /** When the steps reach the k-th of them, the run rechecks and no longer has the row, or checks the clock too late. */
  ghost predicate Stopped(timing: Timing, start: System, steps: seq<Step>, k: nat, run: RunId) {
    && k < |steps| && (steps[k] == Clear(run) || (steps[k].Recheck? && steps[k].run == run))
    && var before := Exec(timing, start, steps[..k]);
       && before.Some? && run in before.value.runs
       && (|| (steps[k].Recheck? && before.value.row.message != Pending(run))
           || before.value.now >= before.value.runs[run].started + timing.deadline)
  }

  ghost predicate StoppedSince(timing: Timing, start: System, steps: seq<Step>, since: nat, run: RunId) {
    exists k :: since <= k && Stopped(timing, start, steps, k, run)
  }

  lemma StoppedStays(timing: Timing, start: System, steps: seq<Step>, more: seq<Step>, since: nat, earlier: nat, run: RunId)
    requires StoppedSince(timing, start, steps, since, run) && steps <= more && earlier <= since
    ensures StoppedSince(timing, start, more, earlier, run)
  {
    var k :| since <= k && Stopped(timing, start, steps, k, run);
    assert more[..k] == steps[..k];
    assert Stopped(timing, start, more, k, run);
  }

  ghost predicate TakenSince(steps: seq<Step>, since: nat, step: Step) {
    exists i :: since <= i < |steps| && steps[i] == step
  }

  lemma TakenGrows(steps: seq<Step>, more: seq<Step>, since: nat, step: Step)
    requires steps <= more && since <= |steps|
    ensures TakenSince(more, since, step) <==> TakenSince(steps, since, step) || TakenSince(more, |steps|, step)
  {
    assert forall i | 0 <= i < |steps| :: more[i] == steps[i];
  }

  /** No other run claims between two moments. */
  predicate NobodyElseClaims(steps: seq<Step>, j: nat, k: nat, run: RunId)
    requires j <= k <= |steps|
  {
    forall i | j <= i < k :: steps[i].Claim? ==> steps[i].run == run
  }

  /** As long as nobody else claims, and until the run itself finishes, the row stays the run's. */
  lemma {:induction false} RowStays(timing: Timing, start: System, steps: seq<Step>, j: nat, k: nat, run: RunId)
    requires j <= k <= |steps| && Exec(timing, start, steps[..k]).Some? && NobodyElseClaims(steps, j, k, run)
    requires Exec(timing, start, steps[..j]).Some? && Exec(timing, start, steps[..j]).value.row.message == Pending(run)
    requires forall i | j <= i < k :: steps[i] != Claim(run) && steps[i] != Finish(run)
    ensures Exec(timing, start, steps[..k]).value.row.message == Pending(run)
  {
    if j < k {
      assert steps[..k][..k-1] == steps[..k-1];
      RowStays(timing, start, steps, j, k - 1, run);
    }
  }

  /** A run that has the row is not stopped while nobody else claims and the deadline has not come. */
  lemma UndisturbedIsNotStopped(timing: Timing, start: System, steps: seq<Step>, j: nat, k: nat, run: RunId)
    requires j <= k < |steps| && NobodyElseClaims(steps, j, k, run)
    requires Exec(timing, start, steps[..j]).Some? && Exec(timing, start, steps[..j]).value.row.message == Pending(run)
    requires forall i | j <= i < k :: steps[i] != Claim(run) && steps[i] != Finish(run)
    requires var before := Exec(timing, start, steps[..k]);
             before.Some? && run in before.value.runs && before.value.now < before.value.runs[run].started + timing.deadline
    ensures !Stopped(timing, start, steps, k, run)
  {
    hide Exec;
    RowStays(timing, start, steps, j, k, run);
  }

  class SharedRuntime {
    const timing: Timing
    ghost const start: System
    ghost var steps: seq<Step>
    var system: System

    /** The state is one that the recorded steps lead to. */
    ghost predicate Valid()
      reads this
    {
      timing.Valid() && Idle(start) && Leads(timing, start, steps, system)
    }

    constructor (timing: Timing, now: real, row: Stored)
      requires timing.Valid() && row.message == Other
      ensures Valid() && this.timing == timing && system == System(now, row, map[], None)
    {
      this.timing := timing;
      start := System(now, row, map[], None);
      steps := [];
      system := System(now, row, map[], None);
    }

    method Take(step: Step)
      requires Valid() && Enabled(timing, system, step)
      modifies this`system, this`steps
      ensures Valid() && system == Apply(timing, old(system), step) && steps == old(steps) + [step]
    {
      hide Apply, Exec;
      OneMore(timing, start, steps, system, step);
      system := Apply(timing, system, step);
      steps := steps + [step];
    }

    /** Time passes and other runs take steps, in any number and order. */
    method Others(run: RunId)
      requires Valid() && run in system.runs
      modifies this`system, this`steps
      ensures Valid() && old(steps) <= steps
      ensures run in system.runs && system.runs[run] == old(system.runs[run])
      ensures forall i | |old(steps)| <= i < |steps| :: RunOf(steps[i]) != Some(run)
    {
      var count: nat := *;
      while count > 0
        invariant Valid() && old(steps) <= steps
        invariant forall i | |old(steps)| <= i < |steps| :: RunOf(steps[i]) != Some(run)
        invariant run in system.runs && system.runs[run] == old(system.runs[run])
      {
        var step: Step := *;
        if RunOf(step) != Some(run) && Enabled(timing, system, step) {
          Take(step);
        }
        count := count - 1;
      }
    }

    /** The claim of a run that has read the clock. */
    method ClaimDiagnostic(run: RunId) returns (claimed: bool)
      requires Valid() && PhaseOf(system, run) == Some(Started)
      modifies this`system, this`steps
      ensures Valid() && old(steps) <= steps
      ensures PhaseOf(system, run) == Some(if claimed then Claimed else Rejected)
      ensures system.runs[run].started == old(system.runs[run].started)
      ensures claimed <==>
                || old(system.row.lastChecked).None?
                || old(system.row.lastChecked.value) + timing.lease <= system.runs[run].started
      ensures steps == old(steps) + [Claim(run)]
      ensures system.row == if claimed then Stored(Pending(run), Some(system.runs[run].started)) else old(system.row)
    {
      claimed := MayClaim(timing, system.row, system.runs[run].started);
      Take(Claim(run));
    }

    /** The finish of a run that has read its completion time. */
    method FinishDiagnostic(run: RunId) returns (recorded: bool)
      requires Valid() && run in system.runs && system.runs[run].phase.Completed?
      modifies this`system, this`steps
      ensures Valid() && old(steps) <= steps
      ensures PhaseOf(system, run) == Some(if recorded then Recorded else Phase.Superseded)
      ensures steps == old(steps) + [Finish(run)]
      ensures system.runs[run].started == old(system.runs[run].started)
      ensures recorded <==> old(system.row.message) == Pending(run)
      ensures system.row == if recorded then Stored(Outcome(run), Some(old(system.runs[run].phase.at))) else old(system.row)
      ensures !recorded ==>
                && system.latest.Some? && system.latest.value in system.runs
                && system.runs[run].started + timing.lease <= system.runs[system.latest.value].started
    {
      recorded := system.row.message == Pending(run);
      if !recorded {
        ReachableKeepsInv(timing, start, steps);
        OnlyNewerClaimSupersedes(timing, system, run);
      }
      Take(Finish(run));
    }

    /**
      One diagnostic. `ready` says whether the protocol and the credential could be prepared, and `intact`
      whether the stored configuration was still the claimed one when it was read again.
     */
    method Check(run: RunId, ready: bool, intact: bool) returns (outcome: Phase, dispatched: bool)
      requires Valid() && run !in system.runs
      modifies this`system, this`steps
      ensures Valid() && old(steps) <= steps
      ensures outcome == Rejected || outcome == Recorded || outcome == Phase.Superseded
      ensures PhaseOf(system, run) == Some(outcome)
      ensures dispatched <==> TakenSince(steps, |old(steps)|, Dispatch(run))
      ensures dispatched ==> ready && intact && outcome != Rejected
      ensures outcome != Rejected && ready && intact && !dispatched ==> StoppedSince(timing, start, steps, |old(steps)|, run)
      ensures outcome == Recorded ==> system.row.message == Outcome(run)
      ensures outcome == Phase.Superseded ==>
                && system.latest.Some? && system.latest.value in system.runs
                && system.runs[run].started + timing.lease <= system.runs[system.latest.value].started
    {
      hide Apply, Enabled, Exec, TakenSince, StoppedSince;
      ghost var begun := steps;
      var claimed := BeginAndClaim(run);
      if !claimed {
        return Rejected, false;
      }
      ghost var claiming := steps;
      dispatched := TryCall(run, ready, intact);
      ghost var tried := steps;
      var recorded := CompleteAndFinish(run);
      TakenGrows(begun, claiming, |begun|, Dispatch(run));
      TakenGrows(claiming, tried, |begun|, Dispatch(run));
      TakenGrows(tried, steps, |begun|, Dispatch(run));
      if ready && intact && !dispatched {
        StoppedStays(timing, start, tried, steps, |claiming|, |begun|, run);
      }
      outcome := if recorded then Recorded else Phase.Superseded;
    }

    method BeginAndClaim(run: RunId) returns (claimed: bool)
      requires Valid() && run !in system.runs
      modifies this`system, this`steps
      ensures Valid() && old(steps) <= steps && PhaseOf(system, run) == Some(if claimed then Claimed else Rejected)
      ensures !TakenSince(steps, |old(steps)|, Dispatch(run))
    {
      hide Apply, Enabled, Exec;
      BeginRun(run);
      Others(run);
      ghost var before := steps;
      claimed := ClaimDiagnostic(run);
      assert steps == before + [Claim(run)];
      if claimed {
        Others(run);
      }
    }

    method CompleteAndFinish(run: RunId) returns (recorded: bool)
      requires Valid() && PhaseOf(system, run) == Some(Closing)
      modifies this`system, this`steps
      ensures Valid() && old(steps) <= steps && PhaseOf(system, run) == Some(if recorded then Recorded else Phase.Superseded)
      ensures !TakenSince(steps, |old(steps)|, Dispatch(run))
      ensures recorded ==> system.row.message == Outcome(run)
      ensures !recorded ==>
                && system.latest.Some? && system.latest.value in system.runs
                && system.runs[run].started + timing.lease <= system.runs[system.latest.value].started
    {
      hide Apply, Enabled, Exec;
      Others(run);
      ReadCompletion(run);
      Others(run);
      recorded := FinishDiagnostic(run);
    }

    method BeginRun(run: RunId)
      requires Valid() && run !in system.runs
      modifies this`system, this`steps
      ensures Valid() && steps == old(steps) + [Start(run)] && PhaseOf(system, run) == Some(Started)
    {
      Take(Start(run));
    }

    method ReadCompletion(run: RunId)
      requires Valid() && PhaseOf(system, run) == Some(Closing)
      modifies this`system, this`steps
      ensures Valid() && steps == old(steps) + [Complete(run)] && run in system.runs && system.runs[run].phase.Completed?
    {
      Take(Complete(run));
    }

    method RecheckRun(run: RunId, intact: bool) returns (owned: bool)
      requires Valid() && PhaseOf(system, run) == Some(Claimed)
      modifies this`system, this`steps
      ensures Valid() && PhaseOf(system, run) == Some(if owned then Rechecked else Closing)
      ensures steps == old(steps) + [Recheck(run, intact)]
      ensures !owned && intact ==> Stopped(timing, start, steps, |old(steps)|, run)
      ensures owned <==> intact && system.row.message == Pending(run)
                         && system.now < system.runs[run].started + timing.deadline
    {
      Take(Recheck(run, intact));
      assert steps[..|old(steps)|] == old(steps);
      owned := system.runs[run].phase == Rechecked;
    }

    method ClearRun(run: RunId) returns (cleared: bool)
      requires Valid() && PhaseOf(system, run) == Some(Rechecked)
      modifies this`system, this`steps
      ensures Valid() && PhaseOf(system, run) == Some(if cleared then Cleared(system.now) else Closing)
      ensures steps == old(steps) + [Clear(run)]
      ensures !cleared ==> Stopped(timing, start, steps, |old(steps)|, run)
      ensures cleared <==> system.now < system.runs[run].started + timing.deadline
    {
      Take(Clear(run));
      assert steps[..|old(steps)|] == old(steps);
      cleared := system.runs[run].phase.Cleared?;
    }

    method CallGateway(run: RunId)
      requires Valid() && run in system.runs && system.runs[run].phase.Cleared?
      modifies this`system, this`steps
      ensures Valid() && old(steps) + [Dispatch(run)] <= steps && PhaseOf(system, run) == Some(Closing)
    {
      hide Exec;
      Take(Dispatch(run));
      Others(run);
      Take(Return(run));
    }

    /** From the claim to the return of the call, or to the reason for not calling. */
    method TryCall(run: RunId, ready: bool, intact: bool) returns (dispatched: bool)
      requires Valid() && PhaseOf(system, run) == Some(Claimed)
      modifies this`system, this`steps
      ensures Valid() && old(steps) <= steps && PhaseOf(system, run) == Some(Closing)
      ensures dispatched <==> TakenSince(steps, |old(steps)|, Dispatch(run))
      ensures dispatched ==> ready && intact
      ensures ready && intact && !dispatched ==> StoppedSince(timing, start, steps, |old(steps)|, run)
    {
      hide Apply, Enabled, Exec;
      var owned := RecheckRun(run, ready && intact);
      if !owned {
        return false;
      }
      Others(run);
      ghost var before := steps;
      var cleared := ClearRun(run);
      assert steps == before + [Clear(run)];
      if !cleared {
        return false;
      }
      Others(run);
      ghost var clear := steps;
      CallGateway(run);
      assert steps[|clear|] == Dispatch(run);
      return true;
    }
  }
}
