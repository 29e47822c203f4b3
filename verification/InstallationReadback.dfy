/** What the readback of an installed target tells, and what it cannot tell. */
module InstallationReadback {
  import opened Wrappers
  import opened InstallationApply

  /** A plan as it was just made: nothing was applied, and every target is as recorded. */
  ghost predicate Ready(start: World, changes: seq<Change>) {
    FromPlan(start, changes) && start.journal.None? && forall change | change in changes :: MayWrite(start, change)
  }

  /** The comparison tells the candidate from what the target holds, or there is nothing to tell apart. */
  predicate Telling(component: string -> string, change: Change) {
    change.original.None? || change.original.value == change.candidate
    || component(change.original.value) != component(change.candidate)
  }

  // ----- Steps of an application that nobody else disturbs -----

  /** Attempted, landed, read back and verified. */
  function Done(world: World, change: Change): World {
    Logged(Read(Landed(Logged(world, Attempt(change)), change), change.path), Verified(change.path))
  }

  /** Attempted, never landed because the request was lost, and yet read back as equal and verified. */
  function Missed(world: World, change: Change): World
    requires change.path in world.store
  {
    Logged(Read(Logged(Logged(world, Attempt(change)), ResponseUnavailable(change.path)), change.path), Verified(change.path))
  }

  function DoneAll(start: World, changes: seq<Change>): World {
    if changes == [] then start.(journal := Some([]))
    else Done(DoneAll(start, changes[..|changes| - 1]), changes[|changes| - 1])
  }

  lemma ReadingConfirms(component: string -> string, world: World, change: Change)
    requires change.path in world.store && component(world.store[change.path].content) == component(change.candidate)
    ensures ReadBack(component, Read(world, change.path), change) && Holds(component, Read(world, change.path), change)
  {
    var reading := Reading(change.path, world.store[change.path].content);
    assert reading in Read(world, change.path).readings && Confirms(component, change, reading);
  }

  lemma StillUntouched(component: string -> string, start: World, world: World, changes: seq<Change>, k: nat)
    requires k < |changes| && Ready(start, changes) && Progress(component, true, start, world, changes, Reached(k, k, k))
    ensures Same(start, world, changes[k].path) && MayWrite(world, changes[k])
    ensures Content(world, changes[k].path) == changes[k].original
  {
    OthersInPlan(changes, k, changes[k].path);
    assert MayWrite(start, changes[k]) && Recorded(start, changes[k]);
  }

  lemma DoneKeepsProgress(component: string -> string, start: World, world: World, changes: seq<Change>, k: nat)
    requires k < |changes| && Ready(start, changes) && Progress(component, true, start, world, changes, Reached(k, k, k))
    ensures Progress(component, true, start, Done(world, changes[k]), changes, Reached(k + 1, k + 1, k + 1))
  {
    hide Progress, ReadBack, Ready, Recorded;
    var change := changes[k];
    StillUntouched(component, start, world, changes, k);
    LogKeepsProgress(component, true, start, world, changes, Reached(k, k, k), Attempt(change));
    var attempted := Logged(world, Attempt(change));
    LandingKeepsProgress(component, true, start, attempted, changes, k);
    var landed := Landed(attempted, change);
    ReadKeepsProgress(component, true, start, landed, changes, Reached(k + 1, k + 1, k), change.path);
    ReadingConfirms(component, landed, change);
    LogKeepsProgress(component, true, start, Read(landed, change.path), changes, Reached(k + 1, k + 1, k), Verified(change.path));
  }

  lemma MissedKeepsProgress(component: string -> string, start: World, world: World, changes: seq<Change>, k: nat)
    requires k < |changes| && Ready(start, changes) && Progress(component, true, start, world, changes, Reached(k, k, k))
    requires changes[k].original.Some? && component(changes[k].original.value) == component(changes[k].candidate)
    ensures changes[k].path in world.store
    ensures Progress(component, true, start, Missed(world, changes[k]), changes, Reached(k + 1, k + 1, k + 1))
    ensures Content(Missed(world, changes[k]), changes[k].path) == changes[k].original
  {
    hide Progress, ReadBack, Ready, Recorded;
    var change := changes[k];
    StillUntouched(component, start, world, changes, k);
    LogKeepsProgress(component, true, start, world, changes, Reached(k, k, k), Attempt(change));
    var attempted := Logged(world, Attempt(change));
    LandingKeepsProgress(component, true, start, attempted, changes, k);
    LogKeepsProgress(component, true, start, attempted, changes, Reached(k + 1, k + 1, k), ResponseUnavailable(change.path));
    var lost := Logged(attempted, ResponseUnavailable(change.path));
    ReadKeepsProgress(component, true, start, lost, changes, Reached(k + 1, k + 1, k), change.path);
    ReadingConfirms(component, lost, change);
    LogKeepsProgress(component, true, start, Read(lost, change.path), changes, Reached(k + 1, k + 1, k), Verified(change.path));
  }

  lemma BeginningIsProgress(component: string -> string, start: World, changes: seq<Change>)
    requires Ready(start, changes)
    ensures Progress(component, true, start, start.(journal := Some([])), changes, Reached(0, 0, 0))
  {
  }

  lemma {:induction false} DoneAllIsProgress(component: string -> string, start: World, changes: seq<Change>, k: nat)
    requires k <= |changes| && Ready(start, changes)
    ensures Progress(component, true, start, DoneAll(start, changes[..k]), changes, Reached(k, k, k))
  {
    hide Progress, Ready, Done;
    if k == 0 {
      BeginningIsProgress(component, start, changes);
    } else {
      assert changes[..k][..k - 1] == changes[..k - 1];
      DoneAllIsProgress(component, start, changes, k - 1);
      DoneKeepsProgress(component, start, DoneAll(start, changes[..k - 1]), changes, k - 1);
    }
  }

  // ----- What a verification means -----

  /** In every world that an undisturbed application may reach, the target holds the candidate once verified. */
  ghost predicate CertainOnceVerified(component: string -> string, start: World, changes: seq<Change>, i: nat)
    requires i < |changes|
  {
    forall world, reached | Progress(component, true, start, world, changes, reached) && i < reached.verified ::
      Content(world, changes[i].path) == Some(changes[i].candidate)
  }

  lemma TellingIsCertain(component: string -> string, start: World, changes: seq<Change>, i: nat, world: World, reached: Reached)
    requires i < |changes| && Ready(start, changes) && Telling(component, changes[i])
    requires Progress(component, true, start, world, changes, reached) && i < reached.verified
    ensures Content(world, changes[i].path) == Some(changes[i].candidate)
  {
    hide OnlyBaselines, Journalled, ReadBack;
    assert MayWrite(start, changes[i]) && Recorded(start, changes[i]);
    assert Holds(component, world, changes[i]);
  }

  /**
    A verified target is certain to hold the candidate exactly if the target was absent, held the candidate
    already, or held something that the comparison tells from it. Otherwise a lost request goes unnoticed.
   */
  lemma VerifiedIsCertainIffTelling(component: string -> string, start: World, changes: seq<Change>, i: nat)
    requires i < |changes| && Ready(start, changes)
    ensures CertainOnceVerified(component, start, changes, i) <==> Telling(component, changes[i])
  {
    hide Progress, Ready;
    if Telling(component, changes[i]) {
      forall world, reached | Progress(component, true, start, world, changes, reached) && i < reached.verified
        ensures Content(world, changes[i].path) == Some(changes[i].candidate)
      {
        TellingIsCertain(component, start, changes, i, world, reached);
      }
    } else {
      var before := DoneAll(start, changes[..i]);
      DoneAllIsProgress(component, start, changes, i);
      MissedKeepsProgress(component, start, before, changes, i);
      var after := Missed(before, changes[i]);
      assert Progress(component, true, start, after, changes, Reached(i + 1, i + 1, i + 1));
    }
  }

  lemma MissedRecords(world: World, change: Change)
    requires change.path in world.store && world.journal == Some([])
    ensures Missed(world, change).writes == world.writes
    ensures Missed(world, change).journal == Some([Attempt(change), ResponseUnavailable(change.path), Verified(change.path)])
  {
    var a, u, v := Attempt(change), ResponseUnavailable(change.path), Verified(change.path);
    assert [] + [a] + [u] + [v] == [a, u, v];
  }

  /** A comparison that ignores case, one target, and a plan that only changes the case of its text. */
  lemma OriginalMayBeVerified() returns (component: string -> string, start: World, changes: seq<Change>, after: World)
    ensures |changes| == 1 && Ready(start, changes) && Progress(component, true, start, after, changes, Reached(1, 1, 1))
    ensures changes[0].candidate != changes[0].original.GetOr("") && Content(after, changes[0].path) == changes[0].original
    ensures after.writes == [] && after.journal == Some([Attempt(changes[0]), ResponseUnavailable("p"), Verified("p")])
  {
    component := text => if text == "A" then "a" else text;
    var change := Change("p", Some(0), Some("A"), "a");
    changes := [change];
    start := World(map["p" := Held("A", 0)], 1, None, [], []);
    assert changes[..0] == [];
    DoneAllIsProgress(component, start, changes, 0);
    MissedKeepsProgress(component, start, DoneAll(start, []), changes, 0);
    after := Missed(DoneAll(start, []), change);
    MissedRecords(DoneAll(start, []), change);
  }
}
