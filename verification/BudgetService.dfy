/** The budget service on its table: every sequence of calls keeps the hierarchy consistent. */
module BudgetService {
  import opened Wrappers
  import opened BudgetTable
  import opened BudgetHierarchy
  import opened BudgetBulk

  datatype Call =
    | Save(scope: Scope, write: Write)
    | BulkSave(bulk: BulkWrite)
    | Remove(target: Scope)
  {
    /** What request validation guarantees. */
    predicate Valid() {
      match this
      case Save(_, write) => write.limit >= 1
      case BulkSave(bulk) => bulk.allocation.Fixed? ==> bulk.allocation.limit >= 1
      case Remove(_) => true
    }
  }

  datatype Settings = Settings(catalog: Catalog, atomicReady: bool, models: set<int>)

  ghost function Answer(settings: Settings, budgets: Budgets, call: Call): Result<Budgets, Problem> {
    match call
    case Save(scope, write) => Saved(settings.catalog, settings.atomicReady, budgets, scope, write)
    case BulkSave(bulk) => Bulked(settings.catalog, settings.atomicReady, settings.models, budgets, bulk)
    case Remove(scope) => Removed(settings.catalog, budgets, scope)
  }

  ghost function AfterCall(settings: Settings, budgets: Budgets, call: Call): Budgets {
    var answer := Answer(settings, budgets, call);
    if answer.Ok? then answer.value else budgets
  }

  ghost function AfterCalls(settings: Settings, budgets: Budgets, calls: seq<Call>): Budgets {
    if calls == [] then budgets
    else AfterCall(settings, AfterCalls(settings, budgets, calls[..|calls| - 1]), calls[|calls| - 1])
  }

  lemma CallKeepsConsistent(settings: Settings, budgets: Budgets, call: Call)
    requires settings.catalog.Valid() && Consistent(settings.catalog, budgets) && call.Valid()
    ensures Consistent(settings.catalog, AfterCall(settings, budgets, call))
  {
    hide Consistent, Bulked, Find, AllCapped;
    match call
    case Save(scope, write) =>
      if Saved(settings.catalog, settings.atomicReady, budgets, scope, write).Ok? {
        SaveAcceptsExactlyConsistent(settings.catalog, settings.atomicReady, budgets, scope, write);
      }
    case BulkSave(bulk) =>
      if Bulked(settings.catalog, settings.atomicReady, settings.models, budgets, bulk).Ok? {
        BulkKeepsConsistent(settings.catalog, settings.atomicReady, settings.models, budgets, bulk);
      }
    case Remove(scope) =>
      if Removed(settings.catalog, budgets, scope).Ok? {
        RemoveAcceptsExactlyConsistent(settings.catalog, budgets, scope);
      }
  }

  /** Every sequence of saves, bulk saves and removals keeps the hierarchy consistent. */
  lemma {:induction false} EverySequenceKeepsConsistent(settings: Settings, budgets: Budgets, calls: seq<Call>)
    requires settings.catalog.Valid() && Consistent(settings.catalog, budgets)
    requires forall call | call in calls :: call.Valid()
    ensures Consistent(settings.catalog, AfterCalls(settings, budgets, calls))
  {
    hide Consistent, AfterCall;
    if calls != [] {
      EverySequenceKeepsConsistent(settings, budgets, calls[..|calls| - 1]);
      CallKeepsConsistent(settings, AfterCalls(settings, budgets, calls[..|calls| - 1]), calls[|calls| - 1]);
    }
  }

  // ----- Calls that overlap -----

  /**
    Between the service's check and the table's transaction another call may run. If it removes the parent,
    which a consistent hierarchy allows, the transaction still commits: the caps hold, and the row has no parent.
   */
  lemma RemovalDuringSaveLeavesOrphan(settings: Settings, budgets: Budgets, scope: Scope, write: Write, parent: Scope)
    requires settings.catalog.Valid() && Consistent(settings.catalog, budgets) && write.limit >= 1
    requires SaveProblem(settings.catalog, settings.atomicReady, budgets, scope, write).None?
    requires ParentScope(scope.level, RowFor(settings.catalog, scope, write).parent) == Some(parent)
    requires Removed(settings.catalog, budgets, parent).Ok?
    ensures var transaction := Upsert(scope, RowFor(settings.catalog, scope, write));
            var between := Removed(settings.catalog, budgets, parent).value;
            && TransactionViolation(between, transaction).None?
            && AllCapped(After(between, transaction))
            && !Rooted(After(between, transaction))
  {
    hide Find, Allocated, SumOfLimits, ParentProblem, ChildProblem, Capped;
    var row := RowFor(settings.catalog, scope, write);
    var between := Removed(settings.catalog, budgets, parent).value;
    RemoveAcceptsExactlyConsistent(settings.catalog, budgets, parent);
    assert scope !in budgets by {
      SaveKeepsParent(settings.catalog, budgets, scope, write);
    }
    assert Children(between, parent) == {} && Children(between, scope) == {};
    assert UpsertViolation(between, scope, row).None?;
    TransactionKeepsCaps(between, Upsert(scope, row));
    assert scope in After(between, Upsert(scope, row));
  }

  lemma SaveKeepsParent(catalog: Catalog, budgets: Budgets, scope: Scope, write: Write)
    requires Catalogued(catalog, budgets)
    ensures scope in budgets ==> budgets[scope].parent == RowFor(catalog, scope, write).parent
  {
  }

  /**
    Whatever calls run between a save's check and its transaction, the hierarchy stays consistent exactly
    if the transaction is refused or still finds its parent allocated.
   */
  lemma OverlappedSaveIsSafeIffParentRemains(settings: Settings, budgets: Budgets, between: seq<Call>, scope: Scope, write: Write)
    requires settings.catalog.Valid() && Consistent(settings.catalog, budgets) && write.limit >= 1
    requires forall call | call in between :: call.Valid()
    requires SaveProblem(settings.catalog, settings.atomicReady, budgets, scope, write).None?
    ensures var now := AfterCalls(settings, budgets, between);
            var row := RowFor(settings.catalog, scope, write);
            Consistent(settings.catalog, After(now, Upsert(scope, row)))
            <==> UpsertViolation(now, scope, row).Some? || ParentAllocated(now, scope, row)
  {
    hide Find, ParentProblem, ChildProblem, UpsertViolation, AllCapped, Rooted, ParentAllocated, AfterCalls;
    var now := AfterCalls(settings, budgets, between);
    var row := RowFor(settings.catalog, scope, write);
    EverySequenceKeepsConsistent(settings, budgets, between);
    StaysRooted(now, scope, row);
    RowIsCatalogued(settings.catalog, now, scope, write);
    TransactionKeepsCaps(now, Upsert(scope, row));
  }

  /** Of all transactions only an upsert whose parent is gone can leave a row without its parent. */
  lemma OnlyUpsertMayOrphan(budgets: Budgets, transaction: Transaction)
    requires Rooted(budgets)
    ensures Rooted(After(budgets, transaction))
            <==> TransactionViolation(budgets, transaction).Some?
                 || (transaction.Upsert? ==> ParentAllocated(budgets, transaction.scope, transaction.row))
  {
    hide UpsertViolation, Total, SameMode, ParentAllocated;
    match transaction
    case Upsert(scope, row) => StaysRooted(budgets, scope, row);
    case Delete(scope) => RemovalStaysRooted(budgets, scope);
    case BulkUpsert(department, mode, warning, people, entries) =>
      BulkRowsHaveParent(department, mode, warning, entries);
      if entries == [] {
        NothingWritten(budgets, department, mode, warning);
      }
  }

  lemma {:induction false} BulkRowsHaveParent(department: string, mode: Mode, warning: nat, entries: seq<(string, int)>)
    ensures var rows := BulkRows(department, mode, warning, entries);
            forall scope | scope in rows :: ParentScope(scope.level, rows[scope].parent) == Some(Scope(Department, department))
  {
    if entries != [] {
      BulkRowsHaveParent(department, mode, warning, entries[..|entries| - 1]);
    }
  }

  lemma SuchAnOverlapExists()
    ensures var department := Entity("d", "Department", Some("o"));
            var settings := Settings(Catalog([Entity("o", "Organization", None)], [department],
                                             [Entity("p", "Person", Some("d"))]), true, {});
            var budgets: Budgets := map[Scope(Organization, "o") := Row(None, Tokens, 10, 80),
                                        Scope(Department, "d") := Row(Some("o"), Tokens, 10, 80)];
            && settings.catalog.Valid() && Consistent(settings.catalog, budgets)
            && SaveProblem(settings.catalog, settings.atomicReady, budgets, Scope(Person, "p"), Write(Tokens, 5, 80)).None?
            && Removed(settings.catalog, budgets, Scope(Department, "d")).Ok?
  {
    hide Find;
    var organizations := [Entity("o", "Organization", None)];
    var departments := [Entity("d", "Department", Some("o"))];
    var people := [Entity("p", "Person", Some("d"))];
    var catalog := Catalog(organizations, departments, people);
    FindsItself(organizations, 0);
    FindsItself(departments, 0);
    FindsItself(people, 0);
    var top, parent, scope := Scope(Organization, "o"), Scope(Department, "d"), Scope(Person, "p");
    var budgets: Budgets := map[top := Row(None, Tokens, 10, 80), parent := Row(Some("o"), Tokens, 10, 80)];
    assert Children(budgets, top) == {parent} && Children(budgets, parent) == {};
    TotalWithout(budgets, {parent}, parent);
    assert {parent} - {parent} == {};
    assert people[..0] == [];
    assert Allocated(budgets, Person, people, "d", {}) == [];
    assert Allocated(budgets, Person, people, "d", {"p"}) == [];
  }

  // ----- The service and its table -----

  class TokenBudgetService {
    const settings: Settings
    var budgets: Budgets

    ghost predicate Valid()
      reads this
    {
      settings.catalog.Valid() && Consistent(settings.catalog, budgets)
    }

    /** A period starts without budgets. */
    constructor (settings: Settings)
      requires settings.catalog.Valid()
      ensures Valid() && this.settings == settings && budgets == map[]
    {
      this.settings := settings;
      budgets := map[];
    }

    method UpsertTokenBudget(scope: Scope, row: Row) returns (violation: Option<Violation>)
      modifies this`budgets
      ensures violation == UpsertViolation(old(budgets), scope, row)
      ensures budgets == After(old(budgets), Upsert(scope, row))
    {
      hide Total, Children;
      var parent := ParentScope(scope.level, row.parent);
      if parent.Some? {
        if parent.value in budgets && budgets[parent.value].mode != row.mode {
          return Some(ParentMode);
        }
        var siblings := Children(budgets, parent.value) - {scope};
        if !SameMode(budgets, siblings, row.mode) {
          return Some(SiblingMode);
        }
        var taken := Sum(budgets, siblings);
        if parent.value in budgets && taken + row.limit > budgets[parent.value].limit {
          return Some(ExceedsParent);
        }
      }
      if !SameMode(budgets, Children(budgets, scope), row.mode) {
        return Some(ChildMode);
      }
      var taken := Sum(budgets, Children(budgets, scope));
      if taken > row.limit {
        return Some(BelowChildren);
      }
      if !(scope in budgets && budgets[scope] == row) {
        budgets := budgets[scope := row];
      }
      return None;
    }

    method BulkUpsertUserBudgets(department: string, mode: Mode, warning: nat, people: set<string>,
                                 entries: seq<(string, int)>) returns (violation: Option<Violation>)
      modifies this`budgets
      ensures var transaction := BulkUpsert(department, mode, warning, people, entries);
              violation == TransactionViolation(old(budgets), transaction) && budgets == After(old(budgets), transaction)
    {
      hide Total, Children, ScopesOf;
      var parent := Scope(Department, department);
      if entries == [] {
        NothingWritten(budgets, department, mode, warning);
        return None;
      }
      if parent !in budgets {
        return Some(ParentMissing);
      }
      if budgets[parent].mode != mode {
        return Some(ParentMode);
      }
      var unselected := Children(budgets, parent) - ScopesOf(Person, people);
      if !SameMode(budgets, unselected, mode) {
        return Some(ChildMode);
      }
      var taken := Sum(budgets, unselected);
      if taken + SumOf(entries) > budgets[parent].limit {
        return Some(ExceedsParent);
      }
      for i := 0 to |entries|
        invariant budgets == old(budgets) + BulkRows(department, mode, warning, entries[..i])
      {
        var row := Row(Some(department), mode, entries[i].1, warning);
        var scope := Scope(Person, entries[i].0);
        assert entries[..i+1][..i] == entries[..i];
        if !(scope in budgets && budgets[scope] == row) {
          budgets := budgets[scope := row];
        }
      }
      assert entries[..|entries|] == entries;
      return None;
    }

    method DeleteTokenBudget(scope: Scope) returns (deleted: Result<bool, Violation>)
      modifies this`budgets
      ensures deleted == if Children(old(budgets), scope) != {} then Err(HasChildren) else Ok(scope in old(budgets))
      ensures budgets == After(old(budgets), Delete(scope))
    {
      if Children(budgets, scope) != {} {
        return Err(HasChildren);
      }
      deleted := Ok(scope in budgets);
      budgets := budgets - {scope};
    }

    /** `None` is a save that went through. */
    method Save(scope: Scope, write: Write) returns (problem: Option<Problem>)
      requires Valid() && write.limit >= 1
      modifies this`budgets
      ensures Valid()
      ensures var answer := Saved(settings.catalog, settings.atomicReady, old(budgets), scope, write);
              && problem == (if answer.Ok? then None else Some(answer.error))
              && budgets == if answer.Ok? then answer.value else old(budgets)
    {
      hide Consistent, UpsertViolation, SaveProblem, RowFor;
      CallKeepsConsistent(settings, budgets, Call.Save(scope, write));
      problem := SaveProblem(settings.catalog, settings.atomicReady, budgets, scope, write);
      if problem.None? {
        var violation := UpsertTokenBudget(scope, RowFor(settings.catalog, scope, write));
        if violation.Some? {
          return Some(Refused(violation.value));
        }
      }
    }

    /** The amount given to each person, if the write went through; `None` inside `Ok` leaves budgets alone. */
    method BulkSavePeople(bulk: BulkWrite) returns (r: Result<Option<int>, Problem>)
      requires Valid() && (bulk.allocation.Fixed? ==> bulk.allocation.limit >= 1)
      modifies this`budgets
      ensures Valid()
      ensures var answer := Bulked(settings.catalog, settings.atomicReady, settings.models, old(budgets), bulk);
              && (r.Ok? <==> answer.Ok?)
              && (r.Err? ==> r.error == answer.error)
              && (r.Ok? ==> r.value == Decide(settings.catalog, settings.atomicReady, settings.models, old(budgets), bulk).value.limit)
              && budgets == if answer.Ok? then answer.value else old(budgets)
    {
      hide Consistent, TransactionViolation, Written, Decide;
      CallKeepsConsistent(settings, budgets, BulkSave(bulk));
      var decision := Decide(settings.catalog, settings.atomicReady, settings.models, budgets, bulk);
      if decision.Err? {
        return Err(decision.error);
      }
      var plan := decision.value;
      var violation := BulkUpsertUserBudgets(bulk.department, bulk.mode, bulk.warning, IdSet(plan.selected), Entries(plan));
      if violation.Some? {
        return Err(Refused(violation.value));
      }
      return Ok(plan.limit);
    }

    method RemoveBudget(scope: Scope) returns (problem: Option<Problem>)
      requires Valid()
      modifies this`budgets
      ensures Valid()
      ensures var answer := Removed(settings.catalog, old(budgets), scope);
              && problem == (if answer.Ok? then None else Some(answer.error))
              && budgets == if answer.Ok? then answer.value else old(budgets)
    {
      hide Consistent, RemoveProblem, Children;
      CallKeepsConsistent(settings, budgets, Remove(scope));
      problem := RemoveProblem(settings.catalog, budgets, scope);
      if problem.None? {
        var deleted := DeleteTokenBudget(scope);
        if deleted.Err? {
          return Some(Refused(deleted.error));
        }
        if !deleted.value {
          assert budgets == old(budgets);
          return Some(NotAssigned);
        }
      }
    }
  }
}
