/** One application of a plan, among other writers and with the chance to die at every step. */
module InstallationRuns {
  import opened Wrappers
  import opened InstallationApply

  class Installer {
    /** The comparison of policies ignores some differences of their texts. */
    const component: string -> string
    /** Nobody else writes. */
    const exclusive: bool
    /** The process does not die and every response arrives. */
    const reliable: bool
    var world: World

    constructor (component: string -> string, exclusive: bool, reliable: bool, world: World)
      ensures this.component == component && this.exclusive == exclusive && this.reliable == reliable && this.world == world
    {
      this.component := component;
      this.exclusive := exclusive;
      this.reliable := reliable;
      this.world := world;
    }

    method Dies() returns (dies: bool)
      ensures dies ==> !reliable
    {
      dies := *;
      if reliable {
        dies := false;
      }
    }

    method Others()
      modifies this`world
      ensures Interfered(exclusive, old(world), world)
    {
      var count: nat := *;
      while count > 0 && !exclusive
        invariant Interfered(exclusive, old(world), world)
      {
        var path: string := *;
        var content: Option<string> := *;
        world := match content
          case Some(text) => world.(store := world.store[path := Held(text, world.next)], next := world.next + 1)
          case None => world.(store := world.store - {path});
        count := count - 1;
      }
    }

    /** The change's target is still what the plan recorded. */
    method CheckBaseline(change: Change) returns (intact: bool)
      requires Recorded(world, change)
      modifies this`world
      ensures Interfered(exclusive, old(world), world)
      ensures intact <==> MayWrite(world, change)
    {
      Others();
      RecordedSurvives(old(world), world, change);
      if change.original.Some? {
        intact := change.path in world.store && change.etag == Some(world.store[change.path].etag)
                  && world.store[change.path].content == change.original.value;
      } else {
        intact := change.path !in world.store;
      }
    }

    /** The conditional write. A lost response leaves open whether it landed. */
    method Put(change: Change) returns (result: PutResult)
      modifies this`world
      ensures result == Accepted ==> MayWrite(old(world), change) && world == Landed(old(world), change)
      ensures result == Refused ==> !MayWrite(old(world), change) && world == old(world)
      ensures result == NoResponse ==>
                !reliable && (world == old(world) || (MayWrite(old(world), change) && world == Landed(old(world), change)))
    {
      var lost := Dies();
      var reaches: bool := *;
      if (!lost || reaches) && MayWrite(world, change) {
        world := Landed(world, change);
        result := if lost then NoResponse else Accepted;
      } else {
        result := if lost then NoResponse else Refused;
      }
    }

    method ReadTarget(change: Change) returns (matches: bool)
      modifies this`world
      ensures change.path !in old(world).store ==> !matches && world == old(world)
      ensures change.path in old(world).store ==> world == Read(old(world), change.path)
      ensures matches <==> change.path in old(world).store
                           && component(old(world).store[change.path].content) == component(change.candidate)
    {
      if change.path !in world.store {
        return false;
      }
      matches := component(world.store[change.path].content) == component(change.candidate);
      world := Read(world, change.path);
    }

    method LogAttempt(changes: seq<Change>, k: nat, ghost start: World)
      requires k < |changes| && Progress(component, exclusive, start, world, changes, Reached(k, k, k))
      modifies this`world
      ensures Progress(component, exclusive, start, world, changes, Reached(k + 1, k, k))
      ensures world == Logged(old(world), Attempt(changes[k]))
    {
      LogKeepsProgress(component, exclusive, start, world, changes, Reached(k, k, k), Attempt(changes[k]));
      world := Logged(world, Attempt(changes[k]));
    }

    method Interfere(changes: seq<Change>, ghost start: World, ghost reached: Reached)
      requires Progress(component, exclusive, start, world, changes, reached)
      modifies this`world
      ensures Progress(component, exclusive, start, world, changes, reached) && (exclusive ==> world == old(world))
      ensures world.journal == old(world).journal
    {
      Others();
      InterferenceKeepsProgress(component, exclusive, start, old(world), world, changes, reached);
    }

    /** Sends the write of an attempted change; a refusal ends the run. */
    method Write(changes: seq<Change>, k: nat, ghost start: World) returns (result: PutResult)
      requires k < |changes| && Progress(component, exclusive, start, world, changes, Reached(k + 1, k, k))
      modifies this`world
      ensures Progress(component, exclusive, start, world, changes, Reached(k + 1, k + 1, k))
      ensures reliable && exclusive && MayWrite(old(world), changes[k]) ==>
                result == Accepted && Content(world, changes[k].path) == Some(changes[k].candidate)
      ensures world.journal == if result == NoResponse then Some(old(world).journal.value + [ResponseUnavailable(changes[k].path)])
                               else old(world).journal
      ensures result == NoResponse ==> !reliable
      ensures result == Refused ==> !MayWrite(world, changes[k])
    {
      assert world.journal.Some?;
      hide Progress;
      Interfere(changes, start, Reached(k + 1, k, k));
      LandingKeepsProgress(component, exclusive, start, world, changes, k);
      result := Put(changes[k]);
      if result == NoResponse {
        LogKeepsProgress(component, exclusive, start, world, changes, Reached(k + 1, k + 1, k), ResponseUnavailable(changes[k].path));
        world := Logged(world, ResponseUnavailable(changes[k].path));
      }
    }

    /** Reads the target back and, if it matches, journals that it is verified. */
    method Verify(changes: seq<Change>, k: nat, ghost start: World) returns (matches: bool)
      requires k < |changes| && Progress(component, exclusive, start, world, changes, Reached(k + 1, k + 1, k))
      modifies this`world
      ensures Progress(component, exclusive, start, world, changes, Reached(k + 1, k + 1, if matches then k + 1 else k))
      ensures exclusive && Content(old(world), changes[k].path) == Some(changes[k].candidate) ==> matches
      ensures !matches ==> !Holds(component, world, changes[k])
    {
      hide Progress, ReadBack;
      Interfere(changes, start, Reached(k + 1, k + 1, k));
      ghost var before := world;
      matches := ReadTarget(changes[k]);
      if changes[k].path in before.store {
        ReadKeepsProgress(component, exclusive, start, before, changes, Reached(k + 1, k + 1, k), changes[k].path);
      }
      if matches {
        ReadingConfirms(changes, k, before);
        LogKeepsProgress(component, exclusive, start, world, changes, Reached(k + 1, k + 1, k), Verified(changes[k].path));
        world := Logged(world, Verified(changes[k].path));
      }
    }

    lemma ReadingConfirms(changes: seq<Change>, k: nat, before: World)
      requires k < |changes| && changes[k].path in before.store && Read(before, changes[k].path) == world
      requires component(before.store[changes[k].path].content) == component(changes[k].candidate)
      ensures ReadBack(component, world, changes[k]) && Holds(component, world, changes[k])
    {
      var reading := Reading(changes[k].path, before.store[changes[k].path].content);
      assert reading in world.readings && Confirms(component, changes[k], reading);
    }

    lemma NextIsUntouched(changes: seq<Change>, k: nat, start: World)
      requires k < |changes| && Progress(component, exclusive, start, world, changes, Reached(k, k, k)) && exclusive
      requires forall change | change in changes :: MayWrite(start, change)
      ensures MayWrite(world, changes[k])
    {
      OthersInPlan(changes, k, changes[k].path);
      assert Same(start, world, changes[k].path);
      assert MayWrite(start, changes[k]);
    }

    /** What a run that ends in this way has met, at the change that it was about. */
    predicate EndsFor(outcome: Outcome, changes: seq<Change>, reached: Reached)
      reads this`world
    {
      var k := reached.verified;
      match outcome
      case Applied => reached == Reached(|changes|, |changes|, |changes|)
      case BaselineChanged => k < |changes| && reached == Reached(k, k, k) && !MayWrite(world, changes[k])
      case WriteRefused => k < |changes| && reached == Reached(k + 1, k + 1, k) && !MayWrite(world, changes[k])
      case ReadbackDiffers => k < |changes| && reached == Reached(k + 1, k + 1, k) && !Holds(component, world, changes[k])
      case Crashed => !reliable
      case _ => true
    }

    /** One change of the plan; `None` goes on with the next. */
    method ApplyChange(changes: seq<Change>, k: nat, ghost start: World) returns (stop: Option<Outcome>, ghost reached: Reached)
      requires k < |changes| && Progress(component, exclusive, start, world, changes, Reached(k, k, k))
      modifies this`world
      ensures Progress(component, exclusive, start, world, changes, reached)
      ensures stop.None? ==> reached == Reached(k + 1, k + 1, k + 1)
      ensures stop.Some? ==> stop.value != Applied && stop.value != DigestChanged && stop.value != JournalExists
      ensures stop.Some? ==> EndsFor(stop.value, changes, reached)
      ensures reliable && exclusive && (forall change | change in changes :: MayWrite(start, change)) ==> stop.None?
    {
      hide Progress, MayWrite;
      reached := Reached(k, k, k);
      if exclusive && forall change | change in changes :: MayWrite(start, change) {
        NextIsUntouched(changes, k, start);
      }
      NextIsRecorded(changes, k, start);
      ghost var before := world;
      var intact := CheckBaseline(changes[k]);
      InterferenceKeepsProgress(component, exclusive, start, before, world, changes, reached);
      if !intact {
        return Some(BaselineChanged), reached;
      }
      var dies := Dies();
      if dies {
        return Some(Crashed), reached;
      }
      Interfere(changes, start, reached);
      stop, reached := AttemptChange(changes, k, start);
    }

    lemma NextIsRecorded(changes: seq<Change>, k: nat, start: World)
      requires k < |changes| && Progress(component, exclusive, start, world, changes, Reached(k, k, k))
      ensures Recorded(world, changes[k])
    {
    }

    lemma LoggingKeepsCondition(before: World, after: World, change: Change)
      requires after == Logged(before, Attempt(change))
      ensures MayWrite(after, change) <==> MayWrite(before, change)
    {
    }

    method AttemptChange(changes: seq<Change>, k: nat, ghost start: World) returns (stop: Option<Outcome>, ghost reached: Reached)
      requires k < |changes| && Progress(component, exclusive, start, world, changes, Reached(k, k, k))
      modifies this`world
      ensures Progress(component, exclusive, start, world, changes, reached)
      ensures stop.None? ==> reached == Reached(k + 1, k + 1, k + 1)
      ensures stop.Some? ==> stop.value != Applied && stop.value != DigestChanged && stop.value != JournalExists
      ensures stop.Some? ==> EndsFor(stop.value, changes, reached)
      ensures reliable && exclusive && MayWrite(old(world), changes[k]) ==> stop.None?
    {
      hide Progress, MayWrite;
      LogAttempt(changes, k, start);
      LoggingKeepsCondition(old(world), world, changes[k]);
      reached := Reached(k + 1, k, k);
      var dies := Dies();
      if dies {
        return Some(Crashed), reached;
      }
      var result := Write(changes, k, start);
      reached := Reached(k + 1, k + 1, k);
      if result == Refused {
        return Some(WriteRefused), reached;
      }
      dies := Dies();
      if dies {
        return Some(Crashed), reached;
      }
      var matches := Verify(changes, k, start);
      if !matches {
        return Some(ReadbackDiffers), reached;
      }
      return None, Reached(k + 1, k + 1, k + 1);
    }

    /**
      Applies the changes if they are the expected ones and the journal is new. Whatever the outcome, and
      wherever the process dies, what was reached is recorded truthfully and only baselines were replaced.
     */
    method Apply(changes: seq<Change>, expected: seq<Change>) returns (outcome: Outcome, ghost reached: Reached)
      requires FromPlan(world, changes)
      modifies this`world
      ensures outcome == DigestChanged <==> changes != expected
      ensures outcome == JournalExists <==> changes == expected && old(world).journal.Some?
      ensures outcome == DigestChanged || outcome == JournalExists ==> world == old(world)
      ensures outcome != DigestChanged && outcome != JournalExists ==>
                Progress(component, exclusive, old(world), world, changes, reached)
      ensures EndsFor(outcome, changes, reached)
      ensures (reliable && exclusive && (forall change | change in changes :: MayWrite(old(world), change))
               && changes == expected && old(world).journal.None?) ==> outcome == Applied
    {
      hide Progress, MayWrite, FromPlan;
      reached := Reached(0, 0, 0);
      if changes != expected {
        return DigestChanged, reached;
      }
      if world.journal.Some? {
        return JournalExists, reached;
      }
      BeginningIsProgress(changes);
      world := world.(journal := Some([]));
      for k := 0 to |changes|
        invariant Progress(component, exclusive, old(world), world, changes, Reached(k, k, k))
      {
        var dies := Dies();
        if dies {
          return Crashed, Reached(k, k, k);
        }
        var stop;
        stop, reached := ApplyChange(changes, k, old(world));
        if stop.Some? {
          return stop.value, reached;
        }
      }
      return Applied, Reached(|changes|, |changes|, |changes|);
    }

    lemma BeginningIsProgress(changes: seq<Change>)
      requires FromPlan(world, changes)
      ensures Progress(component, exclusive, world, world.(journal := Some([])), changes, Reached(0, 0, 0))
    {
    }
  }
}
