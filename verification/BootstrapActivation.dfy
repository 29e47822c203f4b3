/**
  The first activation of a fixed program: interrupted and overlapping bootstrap runs of one target share
  its stored configuration, the budget fence and the route table, each updated atomically.
 */
module BootstrapActivation {
  import opened Wrappers

  type RunId = nat

  /** What an activation writes: its receipt and head. The number tells apart the intents of different moments. */
  type Intent = nat
  datatype ActivationOutcome = Started | ExpiredBeforeDispatch | ConditionalConflict | UnknownNoReplay | Unknown | Confirmed
  datatype Record = Record(intent: Intent, outcome: ActivationOutcome)

  datatype Phase =
    | Begun                        // connected, nothing claimed yet
    | Owning                       // the target's installation is this run's descriptor
    | ClaimingFence                // found no fence
    | WritingFence                 // claimed the one attempt to create it
    | AwaitingFence                // sent its write
    | Fenced                       // the fence is the one this descriptor asks for
    | Fresh                        // loaded the journal and found no activation
    | Recovering(intent: Intent)   // found one
    | Recorded(intent: Intent)     // recorded its own
    | Sent(intent: Intent)         // dispatched the batch
    | Seen(intent: Intent)         // found the receipt of the recorded intent
    | Installed(intent: Intent)    // and its head
    | Failed

  datatype Run = Run(descriptor: string, phase: Phase)

  /** `fenceWrites` and `batches` are on their way and may land or be lost; `records` counts fresh intents, `sends` dispatches. */
  datatype System = System(
    installation: Option<string>,
    fenceClaimed: bool,
    fence: Option<string>,
    fenceWrites: multiset<string>,
    journal: Option<Record>,
    head: Option<Intent>,
    receipt: Option<Intent>,
    batches: multiset<Intent>,
    runs: map<RunId, Run>,
    records: nat,
    sends: nat)

  datatype Step =
    | Begin(run: RunId, descriptor: string)
    | Own(run: RunId)
    | CheckFence(run: RunId)
    | ClaimFence(run: RunId)
    | SendFence(run: RunId)
    | LandFence(descriptor: string)
    | LoseFence(descriptor: string)
    | ReadFence(run: RunId)
    | LoadJournal(run: RunId)
    | RecordIntent(run: RunId, intent: Intent)
    | Expire(run: RunId)
    | Send(run: RunId)
    | Land(intent: Intent)
    | Lose(intent: Intent)
    | Recover(run: RunId, lost: bool)
    | CheckHead(run: RunId)
    | Die(run: RunId)

  function Fence(descriptor: string): string {
    "fence of " + descriptor
  }

  function PhaseOf(system: System, run: RunId): Option<Phase> {
    if run in system.runs then Some(system.runs[run].phase) else None
  }

  predicate Enabled(system: System, step: Step) {
    match step
    case Begin(run, _) => run !in system.runs
    case Own(run) => PhaseOf(system, run) == Some(Begun)
    case CheckFence(run) => PhaseOf(system, run) == Some(Owning)
    case ClaimFence(run) => PhaseOf(system, run) == Some(ClaimingFence)
    case SendFence(run) => PhaseOf(system, run) == Some(WritingFence)
    case LandFence(descriptor) => descriptor in system.fenceWrites
    case LoseFence(descriptor) => descriptor in system.fenceWrites
    case ReadFence(run) => PhaseOf(system, run) == Some(AwaitingFence)
    case LoadJournal(run) => PhaseOf(system, run) == Some(Fenced)
    case RecordIntent(run, _) => PhaseOf(system, run) == Some(Fresh)
    case Expire(run) => run in system.runs && system.runs[run].phase.Recorded?
    case Send(run) => run in system.runs && system.runs[run].phase.Recorded?
    case Land(intent) => intent in system.batches
    case Lose(intent) => intent in system.batches
    case Recover(run, _) => run in system.runs && (system.runs[run].phase.Recovering? || system.runs[run].phase.Sent?)
    case CheckHead(run) => run in system.runs && system.runs[run].phase.Seen?
    case Die(run) => run in system.runs
  }

  function Move(system: System, run: RunId, phase: Phase): System
    requires run in system.runs
  {
    system.(runs := system.runs[run := system.runs[run].(phase := phase)])
  }

  /** The owner of an intent notes its outcome, if the journal still says what the run last saved. */
  function Note(system: System, intent: Intent, outcome: ActivationOutcome): System {
    if system.journal == Some(Record(intent, Started)) then system.(journal := Some(Record(intent, outcome))) else system
  }

  function Apply(system: System, step: Step): System
    requires Enabled(system, step)
  {
    match step
    case Begin(run, descriptor) => system.(runs := system.runs[run := Run(descriptor, Begun)])
    case Own(run) =>
      var descriptor := system.runs[run].descriptor;
      if system.installation.None? then Move(system, run, Owning).(installation := Some(descriptor))
      else if system.installation == Some(descriptor) then Move(system, run, Owning)
      else Move(system, run, Failed)
    case CheckFence(run) =>
      if system.fence.None? then Move(system, run, ClaimingFence)
      else if system.fence == Some(Fence(system.runs[run].descriptor)) then Move(system, run, Fenced)
      else Move(system, run, Failed)
    case ClaimFence(run) =>
      if system.fenceClaimed then Move(system, run, Failed) else Move(system, run, WritingFence).(fenceClaimed := true)
    case SendFence(run) =>
      Move(system, run, AwaitingFence).(fenceWrites := system.fenceWrites + multiset{system.runs[run].descriptor})
    case LandFence(descriptor) =>
      var rest := system.(fenceWrites := system.fenceWrites - multiset{descriptor});
      if system.fence.None? then rest.(fence := Some(Fence(descriptor))) else rest
    case LoseFence(descriptor) => system.(fenceWrites := system.fenceWrites - multiset{descriptor})
    case ReadFence(run) =>
      Move(system, run, if system.fence == Some(Fence(system.runs[run].descriptor)) then Fenced else Failed)
    case LoadJournal(run) =>
      if system.journal.Some? then Move(system, run, Recovering(system.journal.value.intent)) else Move(system, run, Fresh)
    case RecordIntent(run, intent) =>
      if system.journal.None?
        then Move(system, run, Recorded(intent)).(journal := Some(Record(intent, Started)), records := system.records + 1)
        else Move(system, run, Failed)
    case Expire(run) => Note(Move(system, run, Failed), system.runs[run].phase.intent, ExpiredBeforeDispatch)
    case Send(run) =>
      var intent := system.runs[run].phase.intent;
      Move(system, run, Sent(intent)).(batches := system.batches + multiset{intent}, sends := system.sends + 1)
    case Land(intent) =>
      var rest := system.(batches := system.batches - multiset{intent});
      if system.head.None? && system.receipt.None? then rest.(head := Some(intent), receipt := Some(intent)) else rest
    case Lose(intent) => system.(batches := system.batches - multiset{intent})
    case Recover(run, lost) =>
      var phase := system.runs[run].phase;
      if !lost && system.receipt == Some(phase.intent) then
        if phase.Sent? then Note(Move(system, run, Seen(phase.intent)), phase.intent, Confirmed)
        else Move(system, run, Seen(phase.intent))
      else if phase.Sent? then Note(Move(system, run, Failed), phase.intent, if lost then UnknownNoReplay else Unknown)
      else Move(system, run, Failed)
    case CheckHead(run) =>
      var intent := system.runs[run].phase.intent;
      if system.head == Some(intent) then Move(system, run, Installed(intent)) else Move(system, run, Failed)
    case Die(run) => Move(system, run, Failed)
  }

  ghost function Exec(start: System, steps: seq<Step>): Option<System> {
    if steps == [] then Some(start)
    else
      var before := Exec(start, steps[..|steps| - 1]);
      if before.Some? && Enabled(before.value, steps[|steps| - 1]) then Some(Apply(before.value, steps[|steps| - 1])) else None
  }

  const NEW := System(None, false, None, multiset{}, None, None, None, multiset{}, map[], 0, 0)

  // ----- What every state keeps -----

  predicate HasIntent(phase: Phase) {
    phase.Recovering? || phase.Recorded? || phase.Sent? || phase.Seen? || phase.Installed?
  }

  /** Past the claim a run's descriptor is the target's, and past the fence so is the fence. */
  predicate OneDescriptor(system: System) {
    && (forall run | run in system.runs && !system.runs[run].phase.Begun? && !system.runs[run].phase.Failed? ::
          system.installation == Some(system.runs[run].descriptor))
    && (system.fence.Some? ==> system.installation.Some? && system.fence == Some(Fence(system.installation.value)))
    && (forall descriptor | descriptor in system.fenceWrites :: system.installation == Some(descriptor))
    && (forall run | run in system.runs && (system.runs[run].phase.Fenced? || system.runs[run].phase.Fresh?
                                            || HasIntent(system.runs[run].phase)) :: system.fence.Some?)
  }

  /** Every intent anywhere is the recorded one. */
  predicate OneIntent(system: System) {
    && (system.journal.None? ==> system.records == 0) && (system.journal.Some? ==> system.records == 1)
    && (forall run | run in system.runs && HasIntent(system.runs[run].phase) ::
          system.journal.Some? && system.runs[run].phase.intent == system.journal.value.intent)
    && (forall intent | intent in system.batches :: system.journal.Some? && intent == system.journal.value.intent)
    && system.head == system.receipt
    && (system.head.Some? ==> system.journal.Some? && system.head.value == system.journal.value.intent)
  }

  /** The intent is sent at most once, by the run that recorded it. */
  predicate OneSender(system: System) {
    && (forall a, b | a in system.runs && b in system.runs && system.runs[a].phase.Recorded? && system.runs[b].phase.Recorded? ::
          a == b)
    && system.sends <= 1
    && (forall run | run in system.runs && system.runs[run].phase.Recorded? :: system.sends == 0)
    && (system.journal.None? ==> system.sends == 0)
    && (system.sends == 0 ==> system.batches == multiset{} && system.head.None?)
  }

  /** A run past the receipt has seen what stays in the table. */
  predicate SeenStays(system: System) {
    forall run | run in system.runs && (system.runs[run].phase.Seen? || system.runs[run].phase.Installed?) :: system.head.Some?
  }

  predicate Inv(system: System) {
    OneDescriptor(system) && OneIntent(system) && OneSender(system) && SeenStays(system)
  }

  /** What a run needs before it may be in a phase. */
  predicate MayBe(system: System, run: RunId, phase: Phase)
    requires run in system.runs
  {
    && (!phase.Begun? && !phase.Failed? ==> system.installation == Some(system.runs[run].descriptor))
    && (phase.Fenced? || phase.Fresh? || HasIntent(phase) ==> system.fence.Some?)
    && (HasIntent(phase) ==> system.journal.Some? && phase.intent == system.journal.value.intent)
    && (phase.Recorded? ==> system.sends == 0 && forall other | other in system.runs :: !system.runs[other].phase.Recorded?)
    && (phase.Seen? || phase.Installed? ==> system.head.Some?)
  }

  lemma MoveKeepsInv(system: System, run: RunId, phase: Phase)
    requires Inv(system) && run in system.runs && MayBe(system, run, phase)
    ensures Inv(Move(system, run, phase))
  {
    hide Fence, HasIntent;
  }

  lemma NoteKeepsInv(system: System, intent: Intent, outcome: ActivationOutcome)
    requires Inv(system)
    ensures Inv(Note(system, intent, outcome))
  {
    hide Fence, HasIntent;
  }

  lemma BeginKeepsInv(system: System, run: RunId, descriptor: string)
    requires Inv(system) && run !in system.runs
    ensures Inv(system.(runs := system.runs[run := Run(descriptor, Begun)]))
  {
    hide Fence;
  }

  lemma OwnKeepsInv(system: System, descriptor: string)
    requires Inv(system) && system.installation.None?
    ensures Inv(system.(installation := Some(descriptor)))
  {
    hide Fence, HasIntent;
  }

  lemma ClaimKeepsInv(system: System)
    requires Inv(system)
    ensures Inv(system.(fenceClaimed := true))
  {
    hide Fence, HasIntent;
  }

  lemma SendFenceKeepsInv(system: System, run: RunId)
    requires Inv(system) && PhaseOf(system, run) == Some(WritingFence)
    ensures Inv(Apply(system, SendFence(run)))
  {
    hide Fence;
    MoveKeepsInv(system, run, AwaitingFence);
  }

  lemma LoseFenceKeepsInv(system: System, descriptor: string)
    requires Inv(system) && descriptor in system.fenceWrites
    ensures Inv(Apply(system, LoseFence(descriptor)))
  {
    hide Fence, HasIntent;
  }

  lemma FenceKeepsInv(system: System, descriptor: string)
    requires Inv(system) && system.fence.None? && system.installation == Some(descriptor)
    ensures Inv(system.(fence := Some(Fence(descriptor))))
  {
    hide Fence, HasIntent;
  }

  lemma LandFenceKeepsInv(system: System, descriptor: string)
    requires Inv(system) && descriptor in system.fenceWrites
    ensures Inv(Apply(system, LandFence(descriptor)))
  {
    LoseFenceKeepsInv(system, descriptor);
    FenceWriteIsOwned(system, descriptor);
    hide Inv, Fence;
    if system.fence.None? {
      FenceKeepsInv(Apply(system, LoseFence(descriptor)), descriptor);
    }
  }

  lemma FenceWriteIsOwned(system: System, descriptor: string)
    requires Inv(system) && descriptor in system.fenceWrites
    ensures system.installation == Some(descriptor)
  {
    hide Fence, HasIntent;
  }

  lemma RecordKeepsInv(system: System, run: RunId, intent: Intent)
    requires Inv(system) && PhaseOf(system, run) == Some(Fresh) && system.journal.None?
    ensures Inv(Apply(system, RecordIntent(run, intent)))
  {
    hide Fence;
    var recorded := system.(journal := Some(Record(intent, Started)), records := system.records + 1);
    assert Inv(recorded);
    MoveKeepsInv(recorded, run, Recorded(intent));
    assert Apply(system, RecordIntent(run, intent)) == Move(recorded, run, Recorded(intent));
  }

  lemma SendKeepsInv(system: System, run: RunId)
    requires Inv(system) && run in system.runs && system.runs[run].phase.Recorded?
    ensures Inv(Apply(system, Send(run)))
  {
    hide Fence;
    var intent := system.runs[run].phase.intent;
    MoveKeepsInv(system, run, Sent(intent));
  }

  lemma LoseKeepsInv(system: System, intent: Intent)
    requires Inv(system) && intent in system.batches
    ensures Inv(Apply(system, Lose(intent)))
  {
    hide Fence, HasIntent;
  }

  lemma LandKeepsInv(system: System, intent: Intent)
    requires Inv(system) && intent in system.batches
    ensures Inv(Apply(system, Land(intent)))
  {
    hide Fence, HasIntent;
  }

  lemma RecoverKeepsInv(system: System, run: RunId, lost: bool)
    requires Inv(system) && Enabled(system, Recover(run, lost))
    ensures Inv(Apply(system, Recover(run, lost)))
  {
    hide Inv, Note, Fence;
    var phase := system.runs[run].phase;
    RunIsAllowed(system, run);
    if !lost && system.receipt == Some(phase.intent) {
      MoveKeepsInv(system, run, Seen(phase.intent));
      NoteKeepsInv(Move(system, run, Seen(phase.intent)), phase.intent, Confirmed);
    } else {
      MoveKeepsInv(system, run, Failed);
      NoteKeepsInv(Move(system, run, Failed), phase.intent, if lost then UnknownNoReplay else Unknown);
    }
  }

  /** What the invariant says of a run that carries an intent. */
  lemma RunIsAllowed(system: System, run: RunId)
    requires Inv(system) && run in system.runs
    ensures var phase := system.runs[run].phase;
            && (!phase.Begun? && !phase.Failed? ==> system.installation == Some(system.runs[run].descriptor))
            && (phase.Fenced? || phase.Fresh? || HasIntent(phase) ==> system.fence.Some?)
            && (HasIntent(phase) ==> system.journal.Some? && phase.intent == system.journal.value.intent)
            && (phase.Seen? || phase.Installed? ==> system.head.Some?)
            && system.head == system.receipt
  {
    hide Fence;
  }

  lemma ClaimsKeepInv(system: System, step: Step)
    requires Inv(system) && Enabled(system, step)
    requires step.Own? || step.CheckFence? || step.ClaimFence? || step.ReadFence? || step.LoadJournal?
    ensures Inv(Apply(system, step))
  {
    hide Inv, Fence;
    var run, descriptor := step.run, system.runs[step.run].descriptor;
    RunIsAllowed(system, run);
    MoveKeepsInv(system, run, Failed);
    match step
    case Own(_) =>
      if system.installation.None? {
        OwnKeepsInv(system, descriptor);
        MoveKeepsInv(system.(installation := Some(descriptor)), run, Owning);
      } else if system.installation == Some(descriptor) {
        MoveKeepsInv(system, run, Owning);
      }
    case CheckFence(_) =>
      MoveKeepsInv(system, run, ClaimingFence);
      if system.fence.Some? {
        MoveKeepsInv(system, run, Fenced);
      }
    case ClaimFence(_) =>
      ClaimKeepsInv(system);
      MoveKeepsInv(system.(fenceClaimed := true), run, WritingFence);
    case ReadFence(_) =>
      if system.fence.Some? {
        MoveKeepsInv(system, run, Fenced);
      }
    case LoadJournal(_) =>
      if system.journal.Some? {
        MoveKeepsInv(system, run, Recovering(system.journal.value.intent));
      } else {
        MoveKeepsInv(system, run, Fresh);
      }
  }

  lemma StepKeepsInv(system: System, step: Step)
    requires Inv(system) && Enabled(system, step)
    ensures Inv(Apply(system, step))
  {
    hide Inv, Note, Fence;
    match step
    case Begin(run, descriptor) => BeginKeepsInv(system, run, descriptor);
    case RecordIntent(run, intent) =>
      if system.journal.None? {
        RecordKeepsInv(system, run, intent);
      } else {
        MoveKeepsInv(system, run, Failed);
      }
    case Expire(run) =>
      MoveKeepsInv(system, run, Failed);
      NoteKeepsInv(Move(system, run, Failed), system.runs[run].phase.intent, ExpiredBeforeDispatch);
    case Send(run) => SendKeepsInv(system, run);
    case SendFence(run) => SendFenceKeepsInv(system, run);
    case LandFence(descriptor) => LandFenceKeepsInv(system, descriptor);
    case LoseFence(descriptor) => LoseFenceKeepsInv(system, descriptor);
    case Land(intent) => LandKeepsInv(system, intent);
    case Lose(intent) => LoseKeepsInv(system, intent);
    case Recover(run, lost) => RecoverKeepsInv(system, run, lost);
    case CheckHead(run) =>
      SeenMayInstall(system, run);
      MoveKeepsInv(system, run, Installed(system.runs[run].phase.intent));
      MoveKeepsInv(system, run, Failed);
    case Die(run) => MoveKeepsInv(system, run, Failed);
    case _ => ClaimsKeepInv(system, step);
  }

  lemma SeenMayInstall(system: System, run: RunId)
    requires Inv(system) && run in system.runs && system.runs[run].phase.Seen?
    ensures MayBe(system, run, Installed(system.runs[run].phase.intent))
  {
    hide Fence;
  }

  lemma {:induction false} EveryRunKeepsInv(steps: seq<Step>)
    requires Exec(NEW, steps).Some?
    ensures Inv(Exec(NEW, steps).value)
  {
    hide Inv, Apply, Enabled;
    if steps == [] {
      NewIsInv();
    } else {
      EveryRunKeepsInv(steps[..|steps| - 1]);
      StepKeepsInv(Exec(NEW, steps[..|steps| - 1]).value, steps[|steps| - 1]);
    }
  }

  lemma NewIsInv()
    ensures Inv(NEW)
  {
  }

  /** Whatever runs were interrupted or overlapped, one intent at most was recorded and sent once at most. */
  lemma ActivationHappensAtMostOnce(steps: seq<Step>)
    requires Exec(NEW, steps).Some?
    ensures Exec(NEW, steps).value.records <= 1 && Exec(NEW, steps).value.sends <= 1
  {
    EveryRunKeepsInv(steps);
  }

  /** All runs that install a program install the same one, and the table's head is theirs. */
  lemma InstalledRunsAgree(steps: seq<Step>, a: RunId, b: RunId)
    requires Exec(NEW, steps).Some?
    requires var system := Exec(NEW, steps).value;
             && a in system.runs && system.runs[a].phase.Installed? && b in system.runs && system.runs[b].phase.Installed?
    ensures var system := Exec(NEW, steps).value;
            && system.runs[a] == system.runs[b] && system.head == Some(system.runs[a].phase.intent)
            && system.installation == Some(system.runs[a].descriptor) && system.fence == Some(Fence(system.runs[a].descriptor))
  {
    EveryRunKeepsInv(steps);
  }

  // ----- When a program can still be installed -----

  /** An intent is recorded, its batch has not landed and is not on its way, and nobody will send it. */
  predicate NothingMayLand(system: System) {
    && system.journal.Some? && system.head.None? && system.batches == multiset{}
    && forall run | run in system.runs ::
         var phase := system.runs[run].phase; !phase.Recorded? && !phase.Seen? && !phase.Installed?
  }

  /** The one attempt at the fence is claimed, its write has not landed and is not on its way, and nobody will send it. */
  predicate NoFenceMayLand(system: System) {
    && system.fenceClaimed && system.fence.None? && system.fenceWrites == multiset{}
    && forall run | run in system.runs :: !system.runs[run].phase.WritingFence?
  }

  predicate Stuck(system: System) {
    NothingMayLand(system) || NoFenceMayLand(system)
  }

  lemma StuckStep(system: System, step: Step)
    requires Inv(system) && Enabled(system, step)
    ensures NothingMayLand(system) ==> NothingMayLand(Apply(system, step))
    ensures NoFenceMayLand(system) ==> NoFenceMayLand(Apply(system, step))
  {
    if NothingMayLand(system) {
      LostStaysLost(system, step);
    }
    if NoFenceMayLand(system) {
      LostFenceStaysLost(system, step);
    }
  }

  /** A step moves no run but its own. */
  lemma OthersStay(system: System, step: Step, other: RunId)
    requires Enabled(system, step) && other in Apply(system, step).runs
    requires step.Land? || step.Lose? || step.LandFence? || step.LoseFence? || other != step.run
    ensures other in system.runs && Apply(system, step).runs[other] == system.runs[other]
  {
    hide Fence;
  }

  lemma LostStaysLost(system: System, step: Step)
    requires Inv(system) && NothingMayLand(system) && Enabled(system, step)
    ensures NothingMayLand(Apply(system, step))
  {
    hide OneDescriptor, OneSender, Fence;
    var after := Apply(system, step);
    assert after.journal.Some? && after.head.None? && after.batches == multiset{};
    forall run | run in after.runs
      ensures var phase := after.runs[run].phase; !phase.Recorded? && !phase.Seen? && !phase.Installed?
    {
      if step.Land? || step.Lose? || step.LandFence? || step.LoseFence? || run != step.run {
        OthersStay(system, step, run);
      }
    }
  }

  lemma LostFenceStaysLost(system: System, step: Step)
    requires NoFenceMayLand(system) && Enabled(system, step)
    ensures NoFenceMayLand(Apply(system, step))
  {
    hide Fence;
    var after := Apply(system, step);
    FenceFieldsStay(system, step);
    forall run | run in after.runs
      ensures !after.runs[run].phase.WritingFence?
    {
      if step.Land? || step.Lose? || step.LandFence? || step.LoseFence? || run != step.run {
        OthersStay(system, step, run);
      }
    }
  }

  lemma FenceFieldsStay(system: System, step: Step)
    requires NoFenceMayLand(system) && Enabled(system, step)
    ensures var after := Apply(system, step); after.fenceClaimed && after.fence.None? && after.fenceWrites == multiset{}
  {
    hide Fence;
  }

  /** Whatever is recorded was recorded behind the fence. */
  predicate JournalIsFenced(system: System) {
    system.journal.Some? ==> system.fence.Some?
  }

  ghost predicate Sound(system: System) {
    Inv(system) && JournalIsFenced(system)
  }

  lemma OnlyRecordingStartsJournal(system: System, step: Step)
    requires Enabled(system, step)
    ensures var after := Apply(system, step);
            && (after.journal.Some? ==> system.journal.Some? || step.RecordIntent?)
            && (system.fence.Some? ==> after.fence.Some?)
  {
    hide Fence;
  }

  lemma StepKeepsSound(system: System, step: Step)
    requires Sound(system) && Enabled(system, step)
    ensures Sound(Apply(system, step))
  {
    StepKeepsInv(system, step);
    OnlyRecordingStartsJournal(system, step);
    assert step.RecordIntent? ==> system.fence.Some?;
    hide Inv, Apply;
  }

  lemma {:induction false} EveryRunKeepsSound(start: System, steps: seq<Step>)
    requires Sound(start) && Exec(start, steps).Some?
    ensures Sound(Exec(start, steps).value)
  {
    hide Sound, Apply, Enabled;
    if steps != [] {
      EveryRunKeepsSound(start, steps[..|steps| - 1]);
      StepKeepsSound(Exec(start, steps[..|steps| - 1]).value, steps[|steps| - 1]);
    }
  }

  lemma {:induction false} StuckStays(start: System, steps: seq<Step>)
    requires Sound(start) && Stuck(start) && Exec(start, steps).Some?
    ensures Stuck(Exec(start, steps).value)
  {
    if steps != [] {
      var before := steps[..|steps| - 1];
      hide Inv, JournalIsFenced, NothingMayLand, NoFenceMayLand, Apply, Enabled;
      StuckStays(start, before);
      EveryRunKeepsSound(start, before);
      StuckStep(Exec(start, before).value, steps[|steps| - 1]);
    }
  }

  /** In a stuck state no run has installed the program. */
  lemma StuckHasNotInstalled(system: System, run: RunId)
    requires Sound(system) && Stuck(system) && run in system.runs
    ensures !system.runs[run].phase.Installed?
  {
    hide OneSender, Fence;
  }

  ghost predicate InstalledAfter(system: System, steps: seq<Step>, run: RunId) {
    var later := Exec(system, steps);
    later.Some? && run in later.value.runs && later.value.runs[run].phase.Installed?
  }

  ghost predicate CanInstall(system: System) {
    exists steps, run :: InstalledAfter(system, steps, run)
  }

  lemma {:induction false} FirstStep(system: System, step: Step, steps: seq<Step>)
    requires Enabled(system, step)
    ensures Exec(system, [step] + steps) == Exec(Apply(system, step), steps)
  {
    hide Enabled, Apply;
    if steps == [] {
      assert [step] + steps == [step] && [step][..0] == [];
      assert Exec(system, []) == Some(system);
    } else {
      assert ([step] + steps)[..|steps|] == [step] + steps[..|steps| - 1];
      FirstStep(system, step, steps[..|steps| - 1]);
    }
  }

  lemma StepHelps(system: System, step: Step)
    requires Enabled(system, step) && CanInstall(Apply(system, step))
    ensures CanInstall(system)
  {
    hide Exec, Enabled, Apply;
    var steps, run :| InstalledAfter(Apply(system, step), steps, run);
    FirstStep(system, step, steps);
    assert InstalledAfter(system, [step] + steps, run);
  }

  lemma NothingToDo(system: System, run: RunId)
    requires run in system.runs && system.runs[run].phase.Installed?
    ensures CanInstall(system)
  {
    assert Exec(system, []) == Some(system);
    assert InstalledAfter(system, [], run);
  }

  lemma NewRun(runs: map<RunId, Run>) returns (run: RunId)
    ensures run !in runs
  {
    var keys := runs.Keys;
    run := Above(keys);
  }

  lemma {:induction false} Above(keys: set<RunId>) returns (above: RunId)
    ensures forall key | key in keys :: key < above
    decreases keys
  {
    above := 0;
    if keys != {} {
      var key :| key in keys;
      var rest := Above(keys - {key});
      above := if rest > key then rest else key + 1;
      assert forall other | other in keys :: other == key || other in keys - {key};
    }
  }

  /** A run of the target's descriptor that stands behind the fence. */
  lemma BehindFence(system: System, run: RunId) returns (after: System)
    requires Sound(system) && system.fence.Some? && run !in system.runs
    ensures Sound(after) && PhaseOf(after, run) == Some(Fenced)
    ensures after == system.(runs := system.runs[run := Run(system.installation.GetOr(""), Fenced)])
    ensures CanInstall(after) ==> CanInstall(system)
  {
    hide CanInstall, Inv;
    FenceIsOwned(system);
    var descriptor := system.installation.value;
    var begun := Apply(system, Begin(run, descriptor));
    var owned := Apply(begun, Own(run));
    after := Apply(owned, CheckFence(run));
    StepKeepsSound(system, Begin(run, descriptor));
    StepKeepsSound(begun, Own(run));
    StepKeepsSound(owned, CheckFence(run));
    if CanInstall(after) {
      StepHelps(owned, CheckFence(run));
      StepHelps(begun, Own(run));
      StepHelps(system, Begin(run, descriptor));
    }
    assert after.runs == system.runs[run := Run(descriptor, Fenced)];
  }

  lemma FenceIsOwned(system: System)
    requires Inv(system) && system.fence.Some?
    ensures system.installation.Some? && system.fence == Some(Fence(system.installation.value))
  {
    hide Fence;
  }

  /** Once the batch has landed, a new run recovers the intent. */
  lemma LandedCanInstall(system: System)
    requires Sound(system) && system.head.Some?
    ensures CanInstall(system)
  {
    hide CanInstall, Inv;
    HeadIsRecorded(system);
    var run := NewRun(system.runs);
    var fenced := BehindFence(system, run);
    FencedRunRecovers(fenced, run);
  }

  lemma HeadIsRecorded(system: System)
    requires Inv(system) && system.head.Some?
    ensures system.journal.Some? && system.head == system.receipt == Some(system.journal.value.intent)
  {
    hide Fence;
  }

  /** A run behind the fence that finds a landed activation loads, recovers and installs it. */
  lemma FencedRunRecovers(system: System, run: RunId)
    requires Inv(system) && system.head.Some? && PhaseOf(system, run) == Some(Fenced)
    ensures CanInstall(system)
  {
    HeadIsRecorded(system);
    hide CanInstall, Inv;
    var loaded := Apply(system, LoadJournal(run));
    var seen := Apply(loaded, Recover(run, false));
    var installed := Apply(seen, CheckHead(run));
    NothingToDo(installed, run);
    StepHelps(seen, CheckHead(run));
    StepHelps(loaded, Recover(run, false));
    StepHelps(system, LoadJournal(run));
  }

  lemma SentCanInstall(system: System, intent: Intent)
    requires Sound(system) && intent in system.batches
    ensures CanInstall(system)
  {
    hide CanInstall, Inv;
    if system.head.Some? {
      LandedCanInstall(system);
    } else {
      HeadIsReceipt(system);
      StepKeepsSound(system, Land(intent));
      LandedCanInstall(Apply(system, Land(intent)));
      StepHelps(system, Land(intent));
    }
  }

  lemma HeadIsReceipt(system: System)
    requires Inv(system)
    ensures system.head == system.receipt
  {
    hide Fence;
  }

  lemma RecordedCanInstall(system: System, run: RunId)
    requires Sound(system) && run in system.runs && system.runs[run].phase.Recorded?
    ensures CanInstall(system)
  {
    hide CanInstall, Inv;
    StepKeepsSound(system, Send(run));
    SentCanInstall(Apply(system, Send(run)), system.runs[run].phase.intent);
    StepHelps(system, Send(run));
  }

  /** Behind a fence and with nothing recorded, a new run records and sends. */
  lemma FreshCanInstall(system: System)
    requires Sound(system) && system.fence.Some? && system.journal.None?
    ensures CanInstall(system)
  {
    hide CanInstall, Inv;
    var run := NewRun(system.runs);
    var fenced := BehindFence(system, run);
    var loaded := Apply(fenced, LoadJournal(run));
    StepKeepsSound(fenced, LoadJournal(run));
    StepKeepsSound(loaded, RecordIntent(run, 0));
    RecordedCanInstall(Apply(loaded, RecordIntent(run, 0)), run);
    StepHelps(loaded, RecordIntent(run, 0));
    StepHelps(fenced, LoadJournal(run));
  }

  /** A fence that is on its way may land. */
  lemma AwaitedCanInstall(system: System, descriptor: string)
    requires Sound(system) && system.fence.None? && descriptor in system.fenceWrites
    ensures CanInstall(system)
  {
    hide CanInstall, Inv;
    StepKeepsSound(system, LandFence(descriptor));
    FreshCanInstall(Apply(system, LandFence(descriptor)));
    StepHelps(system, LandFence(descriptor));
  }

  lemma WritingCanInstall(system: System, run: RunId)
    requires Sound(system) && system.fence.None? && PhaseOf(system, run) == Some(WritingFence)
    ensures CanInstall(system)
  {
    hide CanInstall, Inv;
    StepKeepsSound(system, SendFence(run));
    AwaitedCanInstall(Apply(system, SendFence(run)), system.runs[run].descriptor);
    StepHelps(system, SendFence(run));
  }

  lemma UnclaimedCanInstall(system: System)
    requires Sound(system) && system.fence.None? && !system.fenceClaimed
    ensures CanInstall(system)
  {
    hide CanInstall, Inv;
    var run := NewRun(system.runs);
    var descriptor := system.installation.GetOr("");
    var begun := Apply(system, Begin(run, descriptor));
    var owned := Apply(begun, Own(run));
    var claiming := Apply(owned, CheckFence(run));
    var writing := Apply(claiming, ClaimFence(run));
    StepKeepsSound(system, Begin(run, descriptor));
    StepKeepsSound(begun, Own(run));
    StepKeepsSound(owned, CheckFence(run));
    StepKeepsSound(claiming, ClaimFence(run));
    WritingCanInstall(writing, run);
    StepHelps(claiming, ClaimFence(run));
    StepHelps(owned, CheckFence(run));
    StepHelps(begun, Own(run));
    StepHelps(system, Begin(run, descriptor));
  }

  lemma NotStuckCanInstall(system: System)
    requires Sound(system) && !Stuck(system)
    ensures CanInstall(system)
  {
    hide CanInstall, Inv;
    if system.fence.None? {
      if system.fenceWrites != multiset{} {
        var descriptor :| descriptor in system.fenceWrites;
        AwaitedCanInstall(system, descriptor);
      } else if system.fenceClaimed {
        var run :| run in system.runs && system.runs[run].phase.WritingFence?;
        WritingCanInstall(system, run);
      } else {
        UnclaimedCanInstall(system);
      }
    } else if system.journal.None? {
      FreshCanInstall(system);
    } else if system.head.Some? {
      LandedCanInstall(system);
    } else if system.batches != multiset{} {
      var intent :| intent in system.batches;
      SentCanInstall(system, intent);
    } else {
      var run :| run in system.runs && var phase := system.runs[run].phase; phase.Recorded? || phase.Seen? || phase.Installed?;
      RunIsAllowed(system, run);
      RecordedCanInstall(system, run);
    }
  }

  /**
    From any state that interrupted and overlapping runs and lost requests can leave, some run can still
    install the program exactly if the one attempt at the fence and the one at the activation are unclaimed,
    have landed, or can still land.
   */
  lemma InstallableUnlessStuck(steps: seq<Step>)
    requires Exec(NEW, steps).Some?
    ensures CanInstall(Exec(NEW, steps).value) <==> !Stuck(Exec(NEW, steps).value)
  {
    hide Sound, Stuck, Exec;
    var system := Exec(NEW, steps).value;
    NewIsSound();
    EveryRunKeepsSound(NEW, steps);
    if Stuck(system) {
      forall more, run
        ensures !InstalledAfter(system, more, run)
      {
        if InstalledAfter(system, more, run) {
          StuckStays(system, more);
          EveryRunKeepsSound(system, more);
          StuckHasNotInstalled(Exec(system, more).value, run);
        }
      }
    } else {
      NotStuckCanInstall(system);
    }
  }

  lemma NewIsSound()
    ensures Sound(NEW)
  {
  }

  lemma OneMore(steps: seq<Step>, step: Step)
    requires Exec(NEW, steps).Some? && Enabled(Exec(NEW, steps).value, step)
    ensures Exec(NEW, steps + [step]) == Some(Apply(Exec(NEW, steps).value, step))
  {
    assert (steps + [step])[..|steps|] == steps;
  }

  /** Some steps lead from an empty target to a state. */
  ghost predicate Reaches(steps: seq<Step>, system: System) {
    Exec(NEW, steps) == Some(system)
  }

  lemma ReachMore(steps: seq<Step>, system: System, step: Step) returns (more: seq<Step>, after: System)
    requires Reaches(steps, system) && Enabled(system, step)
    ensures Reaches(more, after) && after == Apply(system, step) && more == steps + [step]
  {
    OneMore(steps, step);
    more, after := steps + [step], Apply(system, step);
  }

  lemma ReachWritingFence(run: RunId, descriptor: string) returns (steps: seq<Step>, system: System)
    ensures Reaches(steps, system) && forall step | step in steps :: !step.Die?
    ensures system
            == System(Some(descriptor), true, None, multiset{}, None, None, None, multiset{},
                      map[run := Run(descriptor, WritingFence)], 0, 0)
  {
    hide Exec;
    steps, system := [], NEW;
    NothingExecuted();
    steps, system := ReachMore(steps, system, Begin(run, descriptor));
    steps, system := ReachMore(steps, system, Own(run));
    steps, system := ReachMore(steps, system, CheckFence(run));
    steps, system := ReachMore(steps, system, ClaimFence(run));
    assert system.runs == map[run := Run(descriptor, WritingFence)];
  }

  lemma NothingExecuted()
    ensures Exec(NEW, []) == Some(NEW)
  {
  }

  /** A run that dies after claiming its fence and before writing it. */
  lemma UnwrittenFenceIsReachable() returns (steps: seq<Step>, system: System)
    ensures Reaches(steps, system) && NoFenceMayLand(system) && !NothingMayLand(system)
  {
    var run := 0;
    steps, system := ReachWritingFence(run, "d");
    steps, system := ReachMore(steps, system, Die(run));
  }

  /** A fence whose write is lost, with no run that dies. */
  lemma LostFenceIsReachable() returns (steps: seq<Step>, system: System)
    ensures Reaches(steps, system) && NoFenceMayLand(system) && forall step | step in steps :: !step.Die?
  {
    hide Exec;
    var run := 0;
    steps, system := ReachWritingFence(run, "d");
    steps, system := ReachMore(steps, system, SendFence(run));
    steps, system := ReachMore(steps, system, LoseFence("d"));
    steps, system := ReachMore(steps, system, ReadFence(run));
  }

  lemma ReachFenced(run: RunId, descriptor: string) returns (steps: seq<Step>, system: System)
    ensures Reaches(steps, system) && forall step | step in steps :: !step.Die?
    ensures system
            == System(Some(descriptor), true, Some(Fence(descriptor)), multiset{}, None, None, None, multiset{},
                      map[run := Run(descriptor, Fenced)], 0, 0)
  {
    hide Exec, Fence, Reaches;
    steps, system := ReachWritingFence(run, descriptor);
    steps, system := ReachMore(steps, system, SendFence(run));
    steps, system := ReachMore(steps, system, LandFence(descriptor));
    assert system.fenceWrites == multiset{};
    steps, system := ReachMore(steps, system, ReadFence(run));
    assert system.runs == map[run := Run(descriptor, Fenced)];
  }

  lemma ReachRecorded(run: RunId, descriptor: string, intent: Intent) returns (steps: seq<Step>, system: System)
    ensures Reaches(steps, system) && forall step | step in steps :: !step.Die?
    ensures system
            == System(Some(descriptor), true, Some(Fence(descriptor)), multiset{}, Some(Record(intent, Started)), None, None,
                      multiset{}, map[run := Run(descriptor, Recorded(intent))], 1, 0)
  {
    hide Exec, Fence, Reaches;
    steps, system := ReachFenced(run, descriptor);
    steps, system := ReachMore(steps, system, LoadJournal(run));
    steps, system := ReachMore(steps, system, RecordIntent(run, intent));
    assert system.runs == map[run := Run(descriptor, Recorded(intent))];
  }

  /** A run that dies after recording its intent and before sending it. */
  lemma UnsentIntentIsReachable() returns (steps: seq<Step>, system: System)
    ensures Reaches(steps, system) && NothingMayLand(system) && !NoFenceMayLand(system) && system.sends == 0
  {
    hide Exec, Fence, Reaches;
    steps, system := ReachRecorded(0, "d", 7);
    steps, system := ReachMore(steps, system, Die(0));
  }

  /** An approval that expires between recording and sending, with no run that dies. */
  lemma ExpiredIntentIsReachable() returns (steps: seq<Step>, system: System)
    ensures Reaches(steps, system) && NothingMayLand(system) && forall step | step in steps :: !step.Die?
    ensures system.journal == Some(Record(7, ExpiredBeforeDispatch))
  {
    hide Exec, Fence, Reaches;
    steps, system := ReachRecorded(0, "d", 7);
    steps, system := ReachMore(steps, system, Expire(0));
  }

  /** A batch that is sent and lost, with no run that dies. */
  lemma LostBatchIsReachable() returns (steps: seq<Step>, system: System)
    ensures Reaches(steps, system) && NothingMayLand(system) && forall step | step in steps :: !step.Die?
    ensures system.sends == 1 && system.journal == Some(Record(7, UnknownNoReplay))
  {
    hide Exec, Fence, Reaches;
    steps, system := ReachRecorded(0, "d", 7);
    steps, system := ReachMore(steps, system, Send(0));
    steps, system := ReachMore(steps, system, Lose(7));
    steps, system := ReachMore(steps, system, Recover(0, true));
  }

  /** If nothing of the recorded intent can land, later runs only fail: they recover, and there is nothing to recover. */
  lemma {:induction false} LostActivationStaysUnconfirmed(steps: seq<Step>, more: seq<Step>)
    requires Exec(NEW, steps).Some? && NothingMayLand(Exec(NEW, steps).value)
    requires Exec(NEW, steps + more).Some?
    ensures NothingMayLand(Exec(NEW, steps + more).value)
  {
    if more == [] {
      assert steps + more == steps;
    } else {
      var shorter := more[..|more| - 1];
      assert (steps + more)[..|steps + more| - 1] == steps + shorter;
      LostActivationStaysUnconfirmed(steps, shorter);
      EveryRunKeepsInv(steps + shorter);
      LostStaysLost(Exec(NEW, steps + shorter).value, more[|more| - 1]);
    }
  }

  /** Once the batch has landed, a run that finds the journal always installs the recorded intent. */
  lemma LandedIsRecovered(steps: seq<Step>, run: RunId)
    requires Exec(NEW, steps).Some?
    requires var system := Exec(NEW, steps).value; system.head.Some? && PhaseOf(system, run) == Some(Fenced)
    ensures var system := Exec(NEW, steps).value;
            var later := Exec(NEW, steps + [LoadJournal(run)] + [Recover(run, false)] + [CheckHead(run)]);
            later.Some? && PhaseOf(later.value, run) == Some(Installed(system.head.value))
  {
    EveryRunKeepsInv(steps);
    var system := Exec(NEW, steps).value;
    HeadIsRecorded(system);
    OneMore(steps, LoadJournal(run));
    OneMore(steps + [LoadJournal(run)], Recover(run, false));
    OneMore(steps + [LoadJournal(run)] + [Recover(run, false)], CheckHead(run));
  }

  // ----- The journal as an object -----

  /** The row that all runs of a target share. */
  class Profile {
    var activation: Option<Record>

    constructor (activation: Option<Record>)
      ensures this.activation == activation
    {
      this.activation := activation;
    }
  }

  /** One run's view of the activation in the shared row; every save compares before it sets. */
  class InitialActivationJournal {
    const profile: Profile
    var record: Option<Record>

    constructor (profile: Profile)
      ensures this.profile == profile && record == profile.activation
    {
      this.profile := profile;
      record := profile.activation;
    }

    method Save(value: Record) returns (saved: bool)
      modifies this`record, profile
      ensures saved <==> old(profile.activation) == old(record)
      ensures profile.activation == if saved then Some(value) else old(profile.activation)
      ensures record == if saved then Some(value) else old(record)
    {
      saved := profile.activation == record;
      if saved {
        profile.activation := Some(value);
        record := Some(value);
      }
    }

    /** Records a fresh intent exactly when neither this run's view nor the row has one. */
    method BeginOnce(intent: Intent) returns (recorded: bool)
      modifies this`record, profile
      ensures recorded <==> old(record).None? && old(profile.activation).None?
      ensures profile.activation == if recorded then Some(Record(intent, Started)) else old(profile.activation)
      ensures record == if recorded then profile.activation else old(record)
    {
      if record.Some? {
        return false;
      }
      recorded := Save(Record(intent, Started));
    }

    method RecordOutcome(intent: Intent, outcome: ActivationOutcome) returns (saved: bool)
      modifies this`record, profile
      ensures saved <==> old(record).Some? && old(record).value.intent == intent && old(profile.activation) == old(record)
      ensures profile.activation == if saved then Some(Record(intent, outcome)) else old(profile.activation)
      ensures profile.activation.Some? && old(profile.activation).Some? ==>
                profile.activation.value.intent == old(profile.activation).value.intent
      ensures record == if saved then profile.activation else old(record)
    {
      if record.None? || record.value.intent != intent {
        return false;
      }
      saved := Save(record.value.(outcome := outcome));
    }
  }

  /** For a run that found no activation, the object records what the state machine's step records. */
  method RecordThrough(system: System, run: RunId, journal: InitialActivationJournal, intent: Intent) returns (recorded: bool)
    requires Enabled(system, RecordIntent(run, intent))
    requires journal.record.None? && journal.profile.activation == system.journal
    modifies journal, journal.profile
    ensures var after := Apply(system, RecordIntent(run, intent));
            && journal.profile.activation == after.journal
            && PhaseOf(after, run) == Some(if recorded then Recorded(intent) else Failed)
            && (recorded ==> journal.record == after.journal)
  {
    recorded := journal.BeginOnce(intent);
  }

  /** For the run that recorded the intent, the object notes what the state machine notes. */
  method NoteThrough(system: System, journal: InitialActivationJournal, intent: Intent, outcome: ActivationOutcome)
    requires journal.record == Some(Record(intent, Started)) && journal.profile.activation == system.journal
    modifies journal, journal.profile
    ensures journal.profile.activation == Note(system, intent, outcome).journal
  {
    var _ := journal.RecordOutcome(intent, outcome);
  }
}
