/**
  Applying an installation plan: each change is journalled, written only over its recorded baseline,
  and read back. Others may write at any time, and the process may die at any step.
 */
module InstallationApply {
  import opened Wrappers

  /** What a target holds; every write gives a target an entity tag that was never used before. */
  datatype Held = Held(content: string, etag: nat)

  /** A planned change: over a recorded baseline, or (without one) the creation of a target. */
  datatype Change = Change(path: string, etag: Option<nat>, original: Option<string>, candidate: string)

  datatype Event = Attempt(change: Change) | ResponseUnavailable(path: string) | Verified(path: string)
  datatype Outcome = Applied | DigestChanged | JournalExists | BaselineChanged | WriteRefused | ReadbackDiffers | Crashed
  datatype PutResult = Accepted | Refused | NoResponse

  /** A write of the installer and what it replaced. */
  datatype Overwrite = Overwrite(change: Change, before: Option<string>)
  datatype Reading = Reading(path: string, content: string)

  /** The targets, the journal file if it exists, and what the installer has written and read back. */
  datatype World = World(store: map<string, Held>, next: nat, journal: Option<seq<Event>>,
                         writes: seq<Overwrite>, readings: seq<Reading>)

  function Content(world: World, path: string): Option<string> {
    if path in world.store then Some(world.store[path].content) else None
  }

  /** The condition of the write: the recorded entity tag, or that there is no target yet. */
  predicate MayWrite(world: World, change: Change) {
    if change.etag.Some? then change.path in world.store && world.store[change.path].etag == change.etag.value
    else change.path !in world.store
  }

  /** The plan recorded the content that its entity tag stood for. */
  predicate Recorded(world: World, change: Change) {
    && (change.etag.Some? <==> change.original.Some?)
    && (change.etag.Some? ==>
          && change.etag.value < world.next
          && (MayWrite(world, change) ==> Content(world, change.path) == change.original))
  }

  predicate DistinctPaths(changes: seq<Change>) {
    forall i, j | 0 <= i < j < |changes| :: changes[i].path != changes[j].path
  }

  predicate FromPlan(world: World, changes: seq<Change>) {
    DistinctPaths(changes) && forall change | change in changes :: Recorded(world, change)
  }

  function Attempts(events: seq<Event>): seq<Change> {
    if events == [] then []
    else
      var last := events[|events| - 1];
      Attempts(events[..|events| - 1]) + if last.Attempt? then [last.change] else []
  }

  function Confirmed(events: seq<Event>): seq<string> {
    if events == [] then []
    else
      var last := events[|events| - 1];
      Confirmed(events[..|events| - 1]) + if last.Verified? then [last.path] else []
  }

  function Paths(changes: seq<Change>): seq<string> {
    seq(|changes|, i requires 0 <= i < |changes| => changes[i].path)
  }

  /** Time has passed: new entity tags are new, and a target with an old one is as it was. */
  predicate Evolves(before: World, after: World) {
    && before.next <= after.next
    && forall path | path in after.store && after.store[path].etag < before.next ::
         path in before.store && before.store[path] == after.store[path]
  }

  lemma RecordedSurvives(before: World, after: World, change: Change)
    requires Recorded(before, change) && Evolves(before, after)
    ensures Recorded(after, change)
  {
  }

  // ----- What the journal and the targets say at any moment -----

  /** The journal holds attempts and verifications of a first part of the plan, at most one attempt ahead. */
  predicate Journalled(world: World, changes: seq<Change>, attempted: nat, verified: nat) {
    && verified <= attempted <= verified + 1 && attempted <= |changes|
    && world.journal.Some?
    && Attempts(world.journal.value) == changes[..attempted]
    && Confirmed(world.journal.value) == Paths(changes[..verified])
  }

  /** Every write of the installer was journalled before, made once, and replaced the recorded baseline. */
  ghost predicate OnlyBaselines(start: World, world: World, changes: seq<Change>, written: nat)
    requires written <= |changes|
  {
    && |start.writes| <= |world.writes| && world.writes[..|start.writes|] == start.writes
    && (forall i | |start.writes| <= i < |world.writes| ::
          world.writes[i].change in changes[..written] && world.writes[i].before == world.writes[i].change.original)
    && (forall i, j | |start.writes| <= i < j < |world.writes| :: world.writes[i].change.path != world.writes[j].change.path)
  }

  /** What was read back from a verified target is the candidate, up to what the comparison ignores. */
  ghost predicate ReadBack(component: string -> string, world: World, change: Change) {
    exists reading | reading in world.readings :: Confirms(component, change, reading)
  }

  predicate Confirms(component: string -> string, change: Change, reading: Reading) {
    reading.path == change.path && component(reading.content) == component(change.candidate)
  }

  predicate Same(start: World, world: World, path: string) {
    (path in start.store <==> path in world.store) && (path in start.store ==> start.store[path] == world.store[path])
  }

  /** The target holds something that the comparison takes for the candidate. */
  predicate Holds(component: string -> string, world: World, change: Change) {
    change.path in world.store && component(world.store[change.path].content) == component(change.candidate)
  }

  /**
    With no other writer: an attempted target holds the candidate or what it held before, a verified one
    compares equal to the candidate, and all others are untouched.
   */
  ghost predicate Placed(component: string -> string, start: World, world: World, changes: seq<Change>, written: nat, verified: nat)
    requires verified <= written <= |changes|
  {
    && (forall i | 0 <= i < verified :: Holds(component, world, changes[i]))
    && (forall i | 0 <= i < written ::
          Content(world, changes[i].path) == Some(changes[i].candidate) || Same(start, world, changes[i].path))
    && (forall path | path !in Paths(changes[..written]) :: Same(start, world, path))
  }

  /** How far an application has come: attempts in the journal, writes that may have landed, and verifications. */
  datatype Reached = Reached(attempted: nat, written: nat, verified: nat)

  ghost predicate Progress(component: string -> string, exclusive: bool, start: World, world: World, changes: seq<Change>,
                           reached: Reached)
  {
    && reached.verified <= reached.written <= reached.attempted <= |changes|
    && Journalled(world, changes, reached.attempted, reached.verified)
    && OnlyBaselines(start, world, changes, reached.written)
    && (forall i | 0 <= i < reached.verified :: ReadBack(component, world, changes[i]))
    && (exclusive ==> Placed(component, start, world, changes, reached.written, reached.verified))
    && FromPlan(world, changes) && Evolves(start, world)
  }

  // ----- Every step keeps it -----

  /** Others wrote, or nobody did; the installer's own records are as they were. */
  predicate Interfered(exclusive: bool, before: World, after: World) {
    && after == before.(store := after.store, next := after.next) && Evolves(before, after)
    && (exclusive ==> after == before)
  }

  lemma EvolutionComposes(a: World, b: World, c: World)
    requires Evolves(a, b) && Evolves(b, c)
    ensures Evolves(a, c)
  {
  }

  lemma PlanSurvives(before: World, after: World, changes: seq<Change>)
    requires FromPlan(before, changes) && Evolves(before, after)
    ensures FromPlan(after, changes)
  {
    forall change | change in changes
      ensures Recorded(after, change)
    {
      RecordedSurvives(before, after, change);
    }
  }

  lemma InterferenceKeepsProgress(component: string -> string, exclusive: bool, start: World, before: World, after: World,
                                  changes: seq<Change>, reached: Reached)
    requires Progress(component, exclusive, start, before, changes, reached) && Interfered(exclusive, before, after)
    ensures Progress(component, exclusive, start, after, changes, reached)
  {
    hide Recorded, Evolves, Placed;
    EvolutionComposes(start, before, after);
    PlanSurvives(before, after, changes);
  }

  function Logged(world: World, event: Event): World {
    world.(journal := Some(world.journal.GetOr([]) + [event]))
  }

  lemma LogOf(events: seq<Event>, event: Event)
    ensures Attempts(events + [event]) == Attempts(events) + if event.Attempt? then [event.change] else []
    ensures Confirmed(events + [event]) == Confirmed(events) + if event.Verified? then [event.path] else []
  {
    assert (events + [event])[..|events|] == events;
  }

  lemma LogKeepsProgress(component: string -> string, exclusive: bool, start: World, world: World, changes: seq<Change>,
                         reached: Reached, event: Event)
    requires Progress(component, exclusive, start, world, changes, reached)
    requires var k := reached.verified;
             match event
             case Attempt(change) => reached.attempted == k < |changes| && change == changes[k]
             case ResponseUnavailable(_) => true
             case Verified(path) => k < reached.written && path == changes[k].path
                                    && ReadBack(component, world, changes[k])
                                    && (exclusive ==> Holds(component, world, changes[k]))
    ensures Progress(component, exclusive, start, Logged(world, event), changes,
              match event
              case Attempt(_) => reached.(attempted := reached.verified + 1)
              case ResponseUnavailable(_) => reached
              case Verified(_) => reached.(verified := reached.verified + 1))
  {
    hide Recorded, Journalled, OnlyBaselines, Placed, Evolves, FromPlan, Holds;
    var after, k := Logged(world, event), reached.verified;
    LogKeepsJournalled(world, changes, reached, event);
    LogChangesNothingElse(component, start, world, event, changes, reached);
    if event.Verified? {
      if exclusive {
        OneMoreHeld(component, start, after, changes, reached);
      }
    }
  }

  lemma LogKeepsJournalled(world: World, changes: seq<Change>, reached: Reached, event: Event)
    requires reached.verified <= reached.attempted && Journalled(world, changes, reached.attempted, reached.verified)
    ensures event.ResponseUnavailable? ==> Journalled(Logged(world, event), changes, reached.attempted, reached.verified)
    ensures event.Attempt? && reached.attempted == reached.verified < |changes| && event.change == changes[reached.verified] ==>
              Journalled(Logged(world, event), changes, reached.verified + 1, reached.verified)
    ensures event.Verified? && reached.verified < reached.attempted && event.path == changes[reached.verified].path ==>
              Journalled(Logged(world, event), changes, reached.attempted, reached.verified + 1)
  {
    hide Attempts, Confirmed;
    var k := reached.verified;
    LogOf(world.journal.value, event);
    if k < |changes| {
      assert changes[..k+1] == changes[..k] + [changes[k]];
      assert Paths(changes[..k+1]) == Paths(changes[..k]) + [changes[k].path];
    }
  }

  lemma LogChangesNothingElse(component: string -> string, start: World, world: World, event: Event, changes: seq<Change>, reached: Reached)
    requires reached.verified <= reached.written <= |changes|
    ensures var after := Logged(world, event);
            && (OnlyBaselines(start, world, changes, reached.written) ==> OnlyBaselines(start, after, changes, reached.written))
            && (Placed(component, start, world, changes, reached.written, reached.verified) ==>
                  Placed(component, start, after, changes, reached.written, reached.verified))
            && (Evolves(start, world) ==> Evolves(start, after))
            && (FromPlan(world, changes) ==> FromPlan(after, changes))
            && (forall change :: Holds(component, world, change) ==> Holds(component, after, change))
  {
    if FromPlan(world, changes) {
      PlanSurvives(world, Logged(world, event), changes);
    }
  }

  lemma OneMoreHeld(component: string -> string, start: World, world: World, changes: seq<Change>, reached: Reached)
    requires reached.verified < reached.written <= |changes|
    requires Placed(component, start, world, changes, reached.written, reached.verified)
    requires Holds(component, world, changes[reached.verified])
    ensures Placed(component, start, world, changes, reached.written, reached.verified + 1)
  {
    hide Holds, Same;
  }

  function Landed(world: World, change: Change): World {
    world.(store := world.store[change.path := Held(change.candidate, world.next)], next := world.next + 1,
           writes := world.writes + [Overwrite(change, Content(world, change.path))])
  }

  lemma OthersInPlan(changes: seq<Change>, k: nat, path: string)
    requires DistinctPaths(changes) && k < |changes|
    ensures path in Paths(changes[..k+1]) <==> path in Paths(changes[..k]) || path == changes[k].path
    ensures changes[k].path !in Paths(changes[..k])
    ensures forall change | change in changes[..k] :: change.path != changes[k].path
  {
    assert Paths(changes[..k+1]) == Paths(changes[..k]) + [changes[k].path];
  }

  lemma LandingEvolves(world: World, change: Change)
    requires MayWrite(world, change)
    ensures Evolves(world, Landed(world, change))
  {
  }

  lemma LandingKeepsBaselines(start: World, world: World, changes: seq<Change>, k: nat)
    requires k < |changes| && DistinctPaths(changes) && Recorded(world, changes[k]) && MayWrite(world, changes[k])
    requires OnlyBaselines(start, world, changes, k)
    ensures OnlyBaselines(start, Landed(world, changes[k]), changes, k + 1)
  {
    OthersInPlan(changes, k, changes[k].path);
    assert changes[..k+1] == changes[..k] + [changes[k]];
    assert Content(world, changes[k].path) == changes[k].original;
  }

  lemma LandingKeepsPlaced(component: string -> string, start: World, world: World, changes: seq<Change>, k: nat)
    requires k < |changes| && DistinctPaths(changes) && Placed(component, start, world, changes, k, k)
    ensures Placed(component, start, Landed(world, changes[k]), changes, k + 1, k)
    ensures Placed(component, start, world, changes, k + 1, k)
  {
    forall path
      ensures path in Paths(changes[..k+1]) <==> path in Paths(changes[..k]) || path == changes[k].path
    {
      OthersInPlan(changes, k, path);
    }
    OthersInPlan(changes, k, changes[k].path);
    var after := Landed(world, changes[k]);
    forall i | 0 <= i < k
      ensures changes[i].path != changes[k].path
    {
      assert changes[i] in changes[..k];
    }
    forall path | path !in Paths(changes[..k+1])
      ensures Same(start, after, path)
    {
      assert Same(start, world, path);
    }
    assert Paths(changes[..k])== Paths(changes[..k+1])[..k];
  }

  /** A conditional write replaces nothing but the recorded baseline. */
  lemma LandingKeepsProgress(component: string -> string, exclusive: bool, start: World, world: World, changes: seq<Change>, k: nat)
    requires k < |changes| && Progress(component, exclusive, start, world, changes, Reached(k + 1, k, k))
    ensures MayWrite(world, changes[k]) ==>
              Progress(component, exclusive, start, Landed(world, changes[k]), changes, Reached(k + 1, k + 1, k))
    ensures Progress(component, exclusive, start, world, changes, Reached(k + 1, k + 1, k))
  {
    hide Recorded, Placed, OnlyBaselines, Evolves;
    var change := changes[k];
    if exclusive {
      LandingKeepsPlaced(component, start, world, changes, k);
    }
    MoreAllowed(start, world, changes, k);
    if MayWrite(world, change) {
      LandingEvolves(world, change);
      EvolutionComposes(start, world, Landed(world, change));
      PlanSurvives(world, Landed(world, change), changes);
      LandingKeepsBaselines(start, world, changes, k);
    }
  }

  lemma MoreAllowed(start: World, world: World, changes: seq<Change>, k: nat)
    requires k < |changes| && OnlyBaselines(start, world, changes, k)
    ensures OnlyBaselines(start, world, changes, k + 1)
  {
    assert changes[..k+1] == changes[..k] + [changes[k]];
  }

  function Read(world: World, path: string): World
    requires path in world.store
  {
    world.(readings := world.readings + [Reading(path, world.store[path].content)])
  }

  lemma ReadKeepsProgress(component: string -> string, exclusive: bool, start: World, world: World, changes: seq<Change>,
                          reached: Reached, path: string)
    requires Progress(component, exclusive, start, world, changes, reached) && path in world.store
    ensures Progress(component, exclusive, start, Read(world, path), changes, reached)
    ensures Reading(path, world.store[path].content) in Read(world, path).readings
  {
    hide Placed, OnlyBaselines, Recorded;
    PlanSurvives(world, Read(world, path), changes);
    SameRecords(component, start, world, Read(world, path), changes, reached);
    forall i | 0 <= i < reached.verified
      ensures ReadBack(component, Read(world, path), changes[i])
    {
      assert ReadBack(component, world, changes[i]);
      var reading :| reading in world.readings && Confirms(component, changes[i], reading);
      assert reading in Read(world, path).readings;
    }
  }

  lemma SameRecords(component: string -> string, start: World, before: World, after: World, changes: seq<Change>, reached: Reached)
    requires after == before.(readings := after.readings)
    requires reached.verified <= reached.written <= |changes|
    ensures OnlyBaselines(start, before, changes, reached.written) ==> OnlyBaselines(start, after, changes, reached.written)
    ensures Placed(component, start, before, changes, reached.written, reached.verified)
            ==> Placed(component, start, after, changes, reached.written, reached.verified)
  {
  }
}
