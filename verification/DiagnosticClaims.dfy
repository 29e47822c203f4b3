/**
  Concurrent connection diagnostics of one runtime: claim, re-check, dispatch, finish.
  Runs share one clock and one stored row; the claim and the finish are atomic updates of that row.
 */
module DiagnosticClaims {
  import opened Wrappers

  /** A run is named by the unique request id in its marker. */
  type RunId = nat

  /** What the row's health message says: a pending marker and a result never look alike. */
  datatype Message = Other | Pending(run: RunId) | Outcome(run: RunId)
  datatype Stored = Stored(message: Message, lastChecked: Option<real>)

  datatype Phase =
    | Started                  // read the clock, not yet claimed
    | Rejected                 // the claim was refused
    | Claimed
    | Rechecked                // configuration and ownership were still those claimed
    | Cleared(at: real)        // passed the dispatch deadline
    | InFlight(since: real)    // the inference call is running
    | Closing                  // the call returned, or was never made
    | Completed(at: real)      // read the completion time
    | Recorded                 // the result was stored
    | Superseded               // the row no longer carried the run's marker

  datatype Run = Run(started: real, phase: Phase) {
    predicate HasClaimed() {
      phase != Started && phase != Rejected
    }
  }

  /** `latest` remembers which run claimed last. */
  datatype System = System(now: real, row: Stored, runs: map<RunId, Run>, latest: Option<RunId>)

  /** How long a claim lasts, a dispatch may wait, a cleared dispatch may take to begin, and a call may run. */
  datatype Timing = Timing(lease: real, deadline: real, slack: real, call: real) {
    predicate Valid() {
      lease > 0.0 && deadline > 0.0 && slack >= 0.0 && call >= 0.0
    }

    predicate Safe() {
      deadline + slack + call <= lease
    }
  }

  datatype Step =
    | Tick(to: real)
    | Start(run: RunId)
    | Claim(run: RunId)
    | Recheck(run: RunId, intact: bool)
    | Clear(run: RunId)
    | Dispatch(run: RunId)
    | Return(run: RunId)
    | Complete(run: RunId)
    | Finish(run: RunId)

  function PhaseOf(system: System, run: RunId): Option<Phase> {
    if run in system.runs then Some(system.runs[run].phase) else None
  }

  /** Time waits for a cleared dispatch to begin within the slack, and for a call to return within its bound. */
  predicate MayPass(timing: Timing, system: System, to: real) {
    && system.now <= to
    && forall run | run in system.runs ::
         && (system.runs[run].phase.Cleared? ==> to <= system.runs[run].phase.at + timing.slack)
         && (system.runs[run].phase.InFlight? ==> to <= system.runs[run].phase.since + timing.call)
  }

  predicate Enabled(timing: Timing, system: System, step: Step) {
    match step
    case Tick(to) => MayPass(timing, system, to)
    case Start(run) => run !in system.runs
    case Claim(run) => PhaseOf(system, run) == Some(Started)
    case Recheck(run, _) => PhaseOf(system, run) == Some(Claimed)
    case Clear(run) => PhaseOf(system, run) == Some(Rechecked)
    case Dispatch(run) => run in system.runs && system.runs[run].phase.Cleared?
    case Return(run) => run in system.runs && system.runs[run].phase.InFlight?
    case Complete(run) => PhaseOf(system, run) == Some(Closing)
    case Finish(run) => run in system.runs && system.runs[run].phase.Completed?
  }

  predicate MayClaim(timing: Timing, row: Stored, started: real) {
    row.lastChecked.None? || row.lastChecked.value <= started - timing.lease
  }

  function Move(system: System, run: RunId, phase: Phase): System
    requires run in system.runs
  {
    system.(runs := system.runs[run := system.runs[run].(phase := phase)])
  }

  function Apply(timing: Timing, system: System, step: Step): System
    requires Enabled(timing, system, step)
  {
    match step
    case Tick(to) => system.(now := to)
    case Start(run) => system.(runs := system.runs[run := Run(system.now, Started)])
    case Claim(run) =>
      var started := system.runs[run].started;
      if MayClaim(timing, system.row, started)
        then Move(system, run, Claimed).(row := Stored(Pending(run), Some(started)), latest := Some(run))
        else Move(system, run, Rejected)
    case Recheck(run, intact) =>
      if intact && system.row.message == Pending(run) && system.now < system.runs[run].started + timing.deadline
        then Move(system, run, Rechecked) else Move(system, run, Closing)
    case Clear(run) =>
      if system.now < system.runs[run].started + timing.deadline
        then Move(system, run, Cleared(system.now)) else Move(system, run, Closing)
    case Dispatch(run) => Move(system, run, InFlight(system.now))
    case Return(run) => Move(system, run, Closing)
    case Complete(run) => Move(system, run, Completed(system.now))
    case Finish(run) =>
      if system.row.message == Pending(run)
        then Move(system, run, Recorded).(row := Stored(Outcome(run), Some(system.runs[run].phase.at)))
        else Move(system, run, Superseded)
  }

  /** The state after some steps, if each of them was possible. */
  ghost function Exec(timing: Timing, start: System, steps: seq<Step>): Option<System> {
    if steps == [] then Some(start)
    else
      var before := Exec(timing, start, steps[..|steps| - 1]);
      if before.Some? && Enabled(timing, before.value, steps[|steps| - 1])
        then Some(Apply(timing, before.value, steps[|steps| - 1])) else None
  }

  /** Before any run: whatever the row says was left by none of them. */
  predicate Idle(system: System) {
    system.runs == map[] && system.latest.None? && system.row.message == Other
  }

  // ----- What every state keeps -----

  ghost predicate RunInOrder(timing: Timing, system: System, run: Run) {
    && run.started <= system.now
    && (run.phase.Cleared? ==>
          && run.started <= run.phase.at < run.started + timing.deadline
          && run.phase.at <= system.now <= run.phase.at + timing.slack)
    && (run.phase.InFlight? ==>
          && run.started <= run.phase.since < run.started + timing.deadline + timing.slack
          && run.phase.since <= system.now <= run.phase.since + timing.call)
    && (run.phase.Completed? ==> run.started <= run.phase.at <= system.now)
  }

  /** Claims are a lease apart, and the row is at least as young as each of them. */
  ghost predicate ClaimsApart(timing: Timing, system: System) {
    && (forall a, b | a in system.runs && b in system.runs && a != b
                      && system.runs[a].HasClaimed() && system.runs[b].HasClaimed() ::
          Apart(timing, system.runs[a].started, system.runs[b].started))
    && (forall run | run in system.runs && system.runs[run].HasClaimed() ::
          system.row.lastChecked.Some? && system.runs[run].started <= system.row.lastChecked.value)
  }

  predicate Apart(timing: Timing, a: real, b: real) {
    a + timing.lease <= b || b + timing.lease <= a
  }

  /** The row speaks of the latest claim, and that is the youngest one. */
  ghost predicate RowIsLatest(system: System) {
    && (system.latest.None? ==> system.row.message == Other)
    && (system.latest.Some? ==>
          && (system.row.message == Pending(system.latest.value) || system.row.message == Outcome(system.latest.value))
          && system.latest.value in system.runs && system.runs[system.latest.value].HasClaimed()
          && forall run | run in system.runs && system.runs[run].HasClaimed() ::
               system.runs[run].started <= system.runs[system.latest.value].started)
  }

  ghost predicate Inv(timing: Timing, system: System) {
    && (forall run | run in system.runs :: RunInOrder(timing, system, system.runs[run]))
    && ClaimsApart(timing, system)
    && RowIsLatest(system)
    && (forall run | run in system.runs && system.runs[run].HasClaimed() :: system.latest.Some?)
    && (system.row.message.Outcome? ==> PhaseOf(system, system.row.message.run) == Some(Recorded))
  }

  lemma ClaimKeepsInv(timing: Timing, system: System, run: RunId)
    requires timing.Valid() && Inv(timing, system) && Enabled(timing, system, Claim(run))
    ensures Inv(timing, Apply(timing, system, Claim(run)))
  {
    var after := Apply(timing, system, Claim(run));
    if MayClaim(timing, system.row, system.runs[run].started) {
      forall other | other in system.runs && other != run && system.runs[other].HasClaimed()
        ensures system.runs[other].started + timing.lease <= system.runs[run].started
      {
      }
    }
  }

  /** A claimed run that moves on keeps the row and all claims as they are. */
  lemma MoveKeepsInv(timing: Timing, system: System, run: RunId, phase: Phase)
    requires Inv(timing, system) && run in system.runs && system.runs[run].HasClaimed()
    requires system.runs[run].phase != Recorded
    requires Run(system.runs[run].started, phase).HasClaimed()
    requires RunInOrder(timing, system, Run(system.runs[run].started, phase))
    ensures Inv(timing, Move(system, run, phase))
  {
    hide RunInOrder, Apart;
    var after := Move(system, run, phase);
    forall other | other in after.runs
      ensures RunInOrder(timing, after, after.runs[other])
    {
      var moved := Run(system.runs[run].started, phase);
      SameOrder(timing, system, after, if other == run then moved else system.runs[other]);
    }
  }

  lemma SameOrder(timing: Timing, before: System, after: System, run: Run)
    requires before.now == after.now && RunInOrder(timing, before, run)
    ensures RunInOrder(timing, after, run)
  {
  }

  lemma FinishKeepsInv(timing: Timing, system: System, run: RunId)
    requires Inv(timing, system) && Enabled(timing, system, Finish(run))
    ensures Inv(timing, Apply(timing, system, Finish(run)))
  {
    if system.row.message == Pending(run) {
      MoveKeepsInv(timing, system, run, Recorded);
    } else {
      MoveKeepsInv(timing, system, run, Superseded);
    }
  }

  lemma TickKeepsInv(timing: Timing, system: System, to: real)
    requires Inv(timing, system) && MayPass(timing, system, to)
    ensures Inv(timing, system.(now := to))
  {
    hide Apart;
  }

  lemma StartKeepsInv(timing: Timing, system: System, run: RunId)
    requires Inv(timing, system) && run !in system.runs
    ensures Inv(timing, Apply(timing, system, Start(run)))
  {
    hide Apart;
  }

  lemma StepKeepsInv(timing: Timing, system: System, step: Step)
    requires timing.Valid() && Inv(timing, system) && Enabled(timing, system, step)
    ensures Inv(timing, Apply(timing, system, step))
  {
    hide ClaimsApart, RowIsLatest, MayPass;
    match step
    case Tick(to) => TickKeepsInv(timing, system, to);
    case Start(run) => StartKeepsInv(timing, system, run);
    case Claim(run) => ClaimKeepsInv(timing, system, run);
    case Finish(run) => FinishKeepsInv(timing, system, run);
    case _ =>
      MoveKeepsInv(timing, system, step.run, Apply(timing, system, step).runs[step.run].phase);
  }

  lemma {:induction false} ReachableKeepsInv(timing: Timing, start: System, steps: seq<Step>)
    requires timing.Valid() && Idle(start) && Exec(timing, start, steps).Some?
    ensures Inv(timing, Exec(timing, start, steps).value)
  {
    hide Inv;
    if steps == [] {
      IdleIsInv(timing, start);
    } else {
      ReachableKeepsInv(timing, start, steps[..|steps| - 1]);
      StepKeepsInv(timing, Exec(timing, start, steps[..|steps| - 1]).value, steps[|steps| - 1]);
    }
  }

  lemma IdleIsInv(timing: Timing, start: System)
    requires Idle(start)
    ensures Inv(timing, start)
  {
  }

  /** A stored result or marker is always that of the latest claim: a superseded run overwrites nothing newer. */
  lemma RowBelongsToLatestClaim(timing: Timing, start: System, steps: seq<Step>)
    requires timing.Valid() && Idle(start) && Exec(timing, start, steps).Some?
    ensures var system := Exec(timing, start, steps).value;
            system.row.message != Other ==>
              && system.row.message.run in system.runs && system.runs[system.row.message.run].HasClaimed()
              && forall run | run in system.runs && system.runs[run].HasClaimed() ::
                   system.runs[run].started <= system.runs[system.row.message.run].started
  {
    ReachableKeepsInv(timing, start, steps);
  }

  /** A run loses the row only to a claim that is at least a lease younger. */
  lemma OnlyNewerClaimSupersedes(timing: Timing, system: System, run: RunId)
    requires timing.Valid() && Inv(timing, system)
    requires run in system.runs && system.runs[run].HasClaimed() && system.runs[run].phase != Recorded
    requires system.row.message != Pending(run)
    ensures system.latest.Some? && system.latest.value in system.runs
            && system.runs[run].started + timing.lease <= system.runs[system.latest.value].started
  {
    assert system.latest.value != run;
  }

  // ----- One call at a time -----

  ghost predicate OneCall(system: System) {
    forall a, b | a in system.runs && b in system.runs && system.runs[a].phase.InFlight? && system.runs[b].phase.InFlight? :: a == b
  }

  ghost predicate AlwaysOneCall(timing: Timing, start: System) {
    forall steps | Exec(timing, start, steps).Some? :: OneCall(Exec(timing, start, steps).value)
  }

  lemma SafeTimingKeepsOneCall(timing: Timing, system: System)
    requires timing.Valid() && timing.Safe() && Inv(timing, system)
    ensures OneCall(system)
  {
  }

  // ----- When the timing is too tight -----

  ghost predicate Leads(timing: Timing, start: System, steps: seq<Step>, system: System) {
    Exec(timing, start, steps) == Some(system)
  }

  lemma OneMore(timing: Timing, start: System, steps: seq<Step>, system: System, step: Step)
    requires Leads(timing, start, steps, system) && Enabled(timing, system, step)
    ensures Leads(timing, start, steps + [step], Apply(timing, system, step))
  {
    assert (steps + [step])[..|steps|] == steps;
  }

  /** Takes a run that may claim from its start to the point where it may be cleared. */
  lemma ReachRechecked(timing: Timing, start: System, steps: seq<Step>, system: System, run: RunId)
    returns (more: seq<Step>, after: System)
    requires timing.Valid() && Leads(timing, start, steps, system)
    requires run !in system.runs && MayClaim(timing, system.row, system.now)
    ensures Leads(timing, start, more, after)
    ensures after == System(system.now, Stored(Pending(run), Some(system.now)),
                            system.runs[run := Run(system.now, Rechecked)], Some(run))
  {
    more, after := steps, system;
    OneMore(timing, start, more, after, Start(run));
    more, after := more + [Start(run)], Apply(timing, after, Start(run));
    OneMore(timing, start, more, after, Claim(run));
    more, after := more + [Claim(run)], Apply(timing, after, Claim(run));
    OneMore(timing, start, more, after, Recheck(run, true));
    more, after := more + [Recheck(run, true)], Apply(timing, after, Recheck(run, true));
    assert after.runs == system.runs[run := Run(system.now, Rechecked)];
  }

  lemma Pass(timing: Timing, start: System, steps: seq<Step>, system: System, to: real)
    requires Leads(timing, start, steps, system) && MayPass(timing, system, to)
    ensures Leads(timing, start, steps + [Tick(to)], system.(now := to))
  {
    OneMore(timing, start, steps, system, Tick(to));
  }

  /** Clears a run at once and begins its call after a delay within the slack. */
  lemma BeginCall(timing: Timing, start: System, steps: seq<Step>, system: System, run: RunId, delay: real)
    returns (more: seq<Step>, after: System)
    requires timing.Valid() && Leads(timing, start, steps, system) && 0.0 <= delay <= timing.slack
    requires run in system.runs && system.runs[run].phase == Rechecked
    requires system.now < system.runs[run].started + timing.deadline
    requires forall other | other in system.runs && other != run ::
               && !system.runs[other].phase.Cleared?
               && (system.runs[other].phase.InFlight? ==> system.now + delay <= system.runs[other].phase.since + timing.call)
    ensures Leads(timing, start, more, after)
    ensures after == system.(now := system.now + delay,
                             runs := system.runs[run := Run(system.runs[run].started, InFlight(system.now + delay))])
  {
    OneMore(timing, start, steps, system, Clear(run));
    more, after := steps + [Clear(run)], Apply(timing, system, Clear(run));
    Pass(timing, start, more, after, system.now + delay);
    more, after := more + [Tick(system.now + delay)], after.(now := system.now + delay);
    OneMore(timing, start, more, after, Dispatch(run));
    more, after := more + [Dispatch(run)], Apply(timing, after, Dispatch(run));
    assert after.runs == system.runs[run := Run(system.runs[run].started, InFlight(system.now + delay))];
  }

  /** If the bounds together exceed the lease, two runs can be made to call at the same moment. */
  lemma TightTimingAllowsTwoCalls(timing: Timing, start: System)
    requires timing.Valid() && !timing.Safe() && Idle(start)
    ensures !AlwaysOneCall(timing, start)
  {
    var first, second := 0, 1;
    // The first call begins so late that it still runs when the lease ends.
    var begin := if timing.lease <= timing.call then 0.0 else timing.lease - timing.call;
    var room := timing.deadline + timing.slack - begin;
    var check := if begin < timing.deadline then begin
                 else timing.deadline - (if room < timing.deadline then room else timing.deadline);
    var free := match start.row.lastChecked case None => start.now case Some(last) => last + timing.lease;
    var origin := if free >= start.now then free else start.now;

    var steps: seq<Step>, system := [], start;
    Pass(timing, start, steps, system, origin);
    steps, system := steps + [Tick(origin)], system.(now := origin);
    steps, system := ReachRechecked(timing, start, steps, system, first);
    Pass(timing, start, steps, system, origin + check);
    steps, system := steps + [Tick(origin + check)], system.(now := origin + check);
    steps, system := BeginCall(timing, start, steps, system, first, begin - check);
    Pass(timing, start, steps, system, origin + timing.lease);
    steps, system := steps + [Tick(origin + timing.lease)], system.(now := origin + timing.lease);
    steps, system := ReachRechecked(timing, start, steps, system, second);
    steps, system := BeginCall(timing, start, steps, system, second, 0.0);
    assert Exec(timing, start, steps) == Some(system);
    assert first in system.runs && second in system.runs && !OneCall(system);
  }

  /** No two calls ever run together exactly when deadline, slack and call fit into the lease. */
  lemma OneCallExactlyWhenSafe(timing: Timing, start: System)
    requires timing.Valid() && Idle(start)
    ensures AlwaysOneCall(timing, start) <==> timing.Safe()
  {
    if timing.Safe() {
      forall steps | Exec(timing, start, steps).Some?
        ensures OneCall(Exec(timing, start, steps).value)
      {
        ReachableKeepsInv(timing, start, steps);
        SafeTimingKeepsOneCall(timing, Exec(timing, start, steps).value);
      }
    } else {
      TightTimingAllowsTwoCalls(timing, start);
    }
  }

  /** The service's own constants leave three seconds for a cleared dispatch to begin. */
  lemma ServiceTimingIsSafe(slack: real, start: System)
    requires slack >= 0.0 && Idle(start)
    ensures AlwaysOneCall(Timing(60.0, 45.0, slack, 12.0), start) <==> slack <= 3.0
  {
    OneCallExactlyWhenSafe(Timing(60.0, 45.0, slack, 12.0), start);
  }
}
