/** What the journal of an activation says about it, in every state that bootstrap runs can reach. */
module BootstrapOutcomes {
  import opened Wrappers
  import opened BootstrapActivation

  /** The run that recorded the intent and has noted no outcome yet. */
  predicate Owns(system: System, run: RunId) {
    run in system.runs && (system.runs[run].phase.Recorded? || system.runs[run].phase.Sent?)
  }

  /** While the owner is at work the journal says that it started, and it is the only owner. */
  ghost predicate OneOwner(system: System) {
    && (forall a: RunId, b: RunId | Owns(system, a) && Owns(system, b) :: a == b)
    && (forall run: RunId | Owns(system, run) :: system.journal.Some? && system.journal.value.outcome == Started)
    && (forall run | run in system.runs && system.runs[run].phase.Sent? :: system.sends == 1)
  }

  /** An outcome is noted only if it is so, and what is noted once stays so. */
  predicate Truthful(system: System) {
    system.journal.Some? ==>
      match system.journal.value.outcome
      case Started => true
      case ExpiredBeforeDispatch => system.sends == 0 && system.head.None?
      case Confirmed => system.head == Some(system.journal.value.intent)
      case UnknownNoReplay => system.sends == 1
      case Unknown => system.sends == 1
      case ConditionalConflict => false
  }

  ghost predicate Tells(system: System) {
    Inv(system) && OneOwner(system) && Truthful(system)
  }

  /** Neither the journal nor an owner changes, and a head appears only where a batch was sent. */
  ghost predicate Quiet(before: System, after: System) {
    && after.journal == before.journal && after.sends == before.sends
    && (after.head == before.head || (before.head.None? && before.sends != 0))
    && forall run: RunId | Owns(after, run) :: Owns(before, run) && after.runs[run].phase == before.runs[run].phase
  }

  lemma QuietKeepsTells(before: System, after: System)
    requires OneOwner(before) && Truthful(before) && Quiet(before, after)
    ensures OneOwner(after) && Truthful(after)
  {
    forall run: RunId | Owns(after, run)
      ensures after.journal.Some? && after.journal.value.outcome == Started && (after.runs[run].phase.Sent? ==> after.sends == 1)
    {
      assert Owns(before, run);
    }
    assert forall run | run in after.runs && after.runs[run].phase.Sent? :: Owns(after, run);
  }

  lemma LandingIsQuiet(system: System, intent: Intent)
    requires OneSender(system) && Enabled(system, Land(intent))
    ensures Quiet(system, Apply(system, Land(intent)))
  {
  }

  lemma OneRunMoves(system: System, step: Step)
    requires Enabled(system, step) && !step.LandFence? && !step.LoseFence? && !step.Land? && !step.Lose?
    requires !step.RecordIntent? && !step.Expire? && !step.Send? && !step.Recover?
    ensures var after := Apply(system, step);
            && after.journal == system.journal && after.sends == system.sends && after.head == system.head
            && step.run in after.runs && after.runs == system.runs[step.run := after.runs[step.run]] && !Owns(after, step.run)
  {
    hide Fence;
  }

  lemma OtherStepsAreQuiet(system: System, step: Step)
    requires Enabled(system, step)
    requires !step.RecordIntent? && !step.Expire? && !step.Send? && !step.Recover? && !step.Land?
    ensures Quiet(system, Apply(system, step))
  {
    hide Fence;
    if step.LandFence? || step.LoseFence? || step.Lose? {
      assert Apply(system, step).runs == system.runs;
    } else {
      OneRunMoves(system, step);
      hide Apply;
    }
  }

  /** One run moves on and may note an outcome. */
  lemma RecordKeepsTells(system: System, step: Step)
    requires Tells(system) && Enabled(system, step) && step.RecordIntent?
    ensures OneOwner(Apply(system, step)) && Truthful(Apply(system, step))
  {
    hide OneDescriptor, SeenStays, Fence;
    if system.journal.Some? {
      assert Quiet(system, Apply(system, step));
      QuietKeepsTells(system, Apply(system, step));
    } else {
      assert forall run: RunId | Owns(Apply(system, step), run) :: run == step.run;
    }
  }

  lemma OwnerKeepsTells(system: System, step: Step)
    requires Tells(system) && Enabled(system, step) && (step.Expire? || step.Send? || step.Recover?)
    requires Owns(system, step.run)
    ensures OneOwner(Apply(system, step)) && Truthful(Apply(system, step))
  {
    hide OneDescriptor, SeenStays, Fence;
    var after := Apply(system, step);
    assert forall run: RunId | Owns(after, run) :: run == step.run by {
      forall run: RunId | Owns(after, run)
        ensures run == step.run
      {
        assert run != step.run ==> Owns(system, run);
      }
    }
  }

  lemma StepKeepsTells(system: System, step: Step)
    requires Tells(system) && Enabled(system, step)
    ensures Tells(Apply(system, step))
  {
    hide OneOwner, Truthful, OneDescriptor, OneIntent, SeenStays, Fence;
    StepKeepsInv(system, step);
    if step.RecordIntent? {
      RecordKeepsTells(system, step);
    } else if (step.Expire? || step.Send? || step.Recover?) && Owns(system, step.run) {
      OwnerKeepsTells(system, step);
    } else {
      hide Inv;
      assert OneSender(system);
      if step.Recover? {
        RecoveringIsQuiet(system, step);
      } else if step.Land? {
        LandingIsQuiet(system, step.intent);
      } else {
        OtherStepsAreQuiet(system, step);
      }
      QuietKeepsTells(system, Apply(system, step));
    }
  }

  lemma RecoveringIsQuiet(system: System, step: Step)
    requires Enabled(system, step) && step.Recover? && !Owns(system, step.run)
    ensures Quiet(system, Apply(system, step))
  {
    hide Fence;
  }

  /** In every reachable state the journal tells the truth. */
  lemma {:induction false} JournalIsTruthful(steps: seq<Step>)
    requires Exec(NEW, steps).Some?
    ensures Tells(Exec(NEW, steps).value)
  {
    hide Tells, Apply, Enabled;
    if steps == [] {
      NewTells();
    } else {
      JournalIsTruthful(steps[..|steps| - 1]);
      StepKeepsTells(Exec(NEW, steps[..|steps| - 1]).value, steps[|steps| - 1]);
    }
  }

  lemma NewTells()
    ensures Tells(NEW)
  {
  }

  /** Only the owner notes an outcome: it expired, it was confirmed, it is unknown, or its receipt was not there. */
  lemma OnlyTheOwnerNotes(steps: seq<Step>, step: Step)
    requires Exec(NEW, steps).Some? && Enabled(Exec(NEW, steps).value, step)
    ensures var before := Exec(NEW, steps).value;
            var after := Apply(before, step);
            match step
            case RecordIntent(_, intent) => before.journal.None? ==> after.journal == Some(Record(intent, Started))
            case Expire(run) => after.journal == Some(Record(before.runs[run].phase.intent, ExpiredBeforeDispatch))
            case Recover(run, lost) =>
              before.runs[run].phase.Sent? ==>
                after.journal == Some(Record(before.runs[run].phase.intent,
                                             if lost then UnknownNoReplay
                                             else if before.receipt == Some(before.runs[run].phase.intent) then Confirmed
                                             else Unknown))
            case _ => true
    ensures var before := Exec(NEW, steps).value;
            Apply(before, step).journal != before.journal ==>
              || (step.RecordIntent? && before.journal.None?)
              || (step.Expire? && Owns(before, step.run))
              || (step.Recover? && Owns(before, step.run))
  {
    JournalIsTruthful(steps);
    hide OneDescriptor, SeenStays, Fence, Exec;
    var before := Exec(NEW, steps).value;
    if step.Expire? || step.Recover? {
      assert Owns(before, step.run) ==> before.journal.value.outcome == Started;
    }
  }
}
