/** What each call of the budget service answers and stores, in terms of the catalog, the rows and their children alone. */
module BudgetAnswers {
  import opened Wrappers
  import opened BudgetTable
  import opened BudgetHierarchy
  import opened BudgetBulk

  // ----- Members of the catalog -----

  predicate IsEntity(catalog: Catalog, level: Level, id: string, entity: Entity) {
    entity in catalog.Entities(level) && entity.id == id
  }

  ghost predicate Known(catalog: Catalog, scope: Scope) {
    exists entity :: IsEntity(catalog, scope.level, scope.id, entity)
  }

  lemma FindIsEntity(catalog: Catalog, level: Level, id: string)
    ensures Find(catalog.Entities(level), id).Some? <==> Known(catalog, Scope(level, id))
    ensures Find(catalog.Entities(level), id).Some? ==> IsEntity(catalog, level, id, Find(catalog.Entities(level), id).value)
  {
    var found := Find(catalog.Entities(level), id);
    if found.Some? {
      assert IsEntity(catalog, level, id, found.value);
    }
  }

  /** The scope above, where there is one to name. */
  function Above(scope: Scope, parent: Option<string>): Option<Scope> {
    match (scope.level, parent)
    case (Department, Some(id)) => Some(Scope(Organization, id))
    case (Person, Some(id)) => Some(Scope(Department, id))
    case _ => None
  }

  /** The allocated scopes directly below one. */
  function Below(budgets: Budgets, above: Scope): set<Scope> {
    set child | child in budgets && Above(child, budgets[child].parent) == Some(above) :: child
  }

  lemma BelowAreChildren(budgets: Budgets, above: Scope)
    ensures Below(budgets, above) == Children(budgets, above)
    ensures forall scope: Scope, parent :: Above(scope, parent) == ParentScope(scope.level, parent)
  {
  }

  ghost predicate SomeOther(budgets: Budgets, scopes: set<Scope>, mode: Mode)
    requires scopes <= budgets.Keys
  {
    exists scope :: scope in scopes && budgets[scope].mode != mode
  }

  // ----- What a row would break -----

  /** The rules about a row and the row above it, or its siblings. */
  ghost predicate BreaksAbove(budgets: Budgets, scope: Scope, row: Row, violation: Violation) {
    var above := Above(scope, row.parent);
    match violation
    case ParentMode => above.Some? && above.value in budgets && budgets[above.value].mode != row.mode
    case SiblingMode => above.Some? && SomeOther(budgets, Below(budgets, above.value) - {scope}, row.mode)
    case ExceedsParent =>
      above.Some? && above.value in budgets
      && Total(budgets, Below(budgets, above.value) - {scope}) + row.limit > budgets[above.value].limit
    case _ => false
  }

  /** The rules about a row and the rows below it. */
  ghost predicate BreaksBelow(budgets: Budgets, scope: Scope, row: Row, violation: Violation) {
    match violation
    case ChildMode => SomeOther(budgets, Below(budgets, scope), row.mode)
    case BelowChildren => Total(budgets, Below(budgets, scope)) > row.limit
    case _ => false
  }

  /** The table's transaction names a rule that the row breaks, the first of these in their order, or commits. */
  lemma UpsertAnswer(budgets: Budgets, scope: Scope, row: Row)
    ensures UpsertViolation(budgets, scope, row)
            == if BreaksAbove(budgets, scope, row, ParentMode) then Some(ParentMode)
               else if BreaksAbove(budgets, scope, row, SiblingMode) then Some(SiblingMode)
               else if BreaksAbove(budgets, scope, row, ExceedsParent) then Some(ExceedsParent)
               else if BreaksBelow(budgets, scope, row, ChildMode) then Some(ChildMode)
               else if BreaksBelow(budgets, scope, row, BelowChildren) then Some(BelowChildren)
               else None
  {
    hide Total;
    BelowAreChildren(budgets, scope);
    var above := Above(scope, row.parent);
    if above.Some? {
      BelowAreChildren(budgets, above.value);
    }
  }

  // ----- Saving -----

  ghost predicate NeedsAtomic(budgets: Budgets, scope: Scope, write: Write) {
    write.mode == Usd || (scope in budgets && budgets[scope].mode == Usd)
  }

  ghost predicate SwitchesUnit(budgets: Budgets, scope: Scope, write: Write) {
    scope.level == Organization && scope in budgets && budgets[scope].mode != write.mode
  }

  ghost predicate LacksParent(budgets: Budgets, scope: Scope, row: Row) {
    scope.level != Organization && (Above(scope, row.parent).None? || Above(scope, row.parent).value !in budgets)
  }

  /** The row that a save writes: what was asked for, below the entity's own parent. */
  ghost predicate Writes(catalog: Catalog, scope: Scope, write: Write, row: Row) {
    && row.mode == write.mode && row.limit == write.limit && row.warning == write.warning
    && exists entity :: IsEntity(catalog, scope.level, scope.id, entity) && row.parent == entity.parent
  }

  lemma RowIsWritten(catalog: Catalog, scope: Scope, write: Write)
    requires Known(catalog, scope)
    ensures Writes(catalog, scope, write, RowFor(catalog, scope, write))
  {
    FindIsEntity(catalog, scope.level, scope.id);
  }

  /** On a consistent hierarchy a save stores exactly the row asked for, or names the first rule in its order that is broken. */
  lemma SaveAnswer(catalog: Catalog, atomicReady: bool, budgets: Budgets, scope: Scope, write: Write) returns (row: Row)
    requires catalog.Valid() && Consistent(catalog, budgets) && write.limit >= 1
    ensures Known(catalog, scope) ==> Writes(catalog, scope, write, row)
    ensures Saved(catalog, atomicReady, budgets, scope, write)
            == if !Known(catalog, scope) then Err(UnknownScope)
               else if !atomicReady && NeedsAtomic(budgets, scope, write) then Err(AtomicBudgetRequired)
               else if SwitchesUnit(budgets, scope, write) then Err(UnitSwitch)
               else if LacksParent(budgets, scope, row) then Err(Conflict(ParentMissing))
               else if BreaksAbove(budgets, scope, row, ParentMode) then Err(Conflict(ParentMode))
               else if BreaksAbove(budgets, scope, row, SiblingMode) then Err(Conflict(SiblingMode))
               else if BreaksAbove(budgets, scope, row, ExceedsParent) then Err(Conflict(ExceedsParent))
               else if BreaksBelow(budgets, scope, row, ChildMode) then Err(Conflict(ChildMode))
               else if BreaksBelow(budgets, scope, row, BelowChildren) then Err(Conflict(BelowChildren))
               else Ok(budgets[scope := row])
  {
    hide Find, Total, Consistent, ParentProblem, ChildProblem, UpsertViolation, BreaksAbove, BreaksBelow, LacksParent, RowFor, Writes;
    row := RowFor(catalog, scope, write);
    FindIsEntity(catalog, scope.level, scope.id);
    if Known(catalog, scope) {
      RowIsWritten(catalog, scope, write);
      ParentAnswer(catalog, budgets, scope, write);
      ChildAnswer(catalog, budgets, scope, write);
      UpsertAnswer(budgets, scope, row);
    }
  }

  lemma ParentAnswer(catalog: Catalog, budgets: Budgets, scope: Scope, write: Write)
    requires catalog.Valid() && Consistent(catalog, budgets) && Find(catalog.Entities(scope.level), scope.id).Some?
    ensures var row := RowFor(catalog, scope, write);
            ParentProblem(catalog, budgets, scope, Find(catalog.Entities(scope.level), scope.id).value.parent, write)
            == if LacksParent(budgets, scope, row) then Some(Conflict(ParentMissing))
               else if BreaksAbove(budgets, scope, row, ParentMode) then Some(Conflict(ParentMode))
               else if BreaksAbove(budgets, scope, row, SiblingMode) then Some(Conflict(SiblingMode))
               else if BreaksAbove(budgets, scope, row, ExceedsParent) then Some(Conflict(ExceedsParent))
               else None
  {
    hide Find, Total, SumOfLimits, Allocated, AllCapped, Rooted, Catalogued;
    var row := RowFor(catalog, scope, write);
    var above := Above(scope, row.parent);
    BelowAreChildren(budgets, scope);
    if above.Some? {
      BelowAreChildren(budgets, above.value);
      assert ScopesOf(scope.level, {scope.id}) == {scope};
      AllocatedAreChildren(catalog, budgets, scope.level, above.value, {scope.id});
    }
  }

  lemma ChildAnswer(catalog: Catalog, budgets: Budgets, scope: Scope, write: Write)
    requires catalog.Valid() && Consistent(catalog, budgets) && write.limit >= 1
    ensures var row := RowFor(catalog, scope, write);
            ChildProblem(catalog, budgets, scope, write)
            == if BreaksBelow(budgets, scope, row, ChildMode) then Some(Conflict(ChildMode))
               else if BreaksBelow(budgets, scope, row, BelowChildren) then Some(Conflict(BelowChildren))
               else None
  {
    hide Find, SumOfLimits, Allocated, AllCapped, Rooted, Catalogued;
    BelowAreChildren(budgets, scope);
    if ChildLevel(scope.level).Some? {
      assert Children(budgets, scope) - ScopesOf(ChildLevel(scope.level).value, {}) == Children(budgets, scope);
      AllocatedAreChildren(catalog, budgets, ChildLevel(scope.level).value, scope, {});
    } else {
      assert Children(budgets, scope) == {};
    }
  }

  // ----- Removing -----

  /** On a consistent hierarchy a removal takes away exactly one row, which nothing is allocated below. */
  lemma RemoveAnswer(catalog: Catalog, budgets: Budgets, scope: Scope)
    requires catalog.Valid() && Consistent(catalog, budgets)
    ensures Removed(catalog, budgets, scope)
            == if !Known(catalog, scope) then Err(UnknownScope)
               else if Below(budgets, scope) != {} then Err(Conflict(HasChildren))
               else if scope !in budgets then Err(NotAssigned)
               else Ok(budgets - {scope})
  {
    hide Find, SumOfLimits, Allocated, AllCapped, Rooted, Catalogued, Total;
    FindIsEntity(catalog, scope.level, scope.id);
    BelowAreChildren(budgets, scope);
    if ChildLevel(scope.level).Some? {
      var level := ChildLevel(scope.level).value;
      var found := Allocated(budgets, level, catalog.Entities(level), scope.id, {});
      assert Children(budgets, scope) - ScopesOf(level, {}) == Children(budgets, scope);
      AllocatedAreChildren(catalog, budgets, level, scope, {});
      if found != [] {
        assert found[0] in AsSet(found);
      }
    } else {
      assert Children(budgets, scope) == {};
    }
  }

  // ----- Bulk writes -----

  /** The people of a department among some ids. */
  function Members(catalog: Catalog, department: string, ids: set<string>): set<string> {
    set entity | entity in catalog.people && entity.parent == Some(department) && entity.id in ids :: entity.id
  }

  lemma SelectedAreMembers(catalog: Catalog, department: string, ids: set<string>)
    requires catalog.Valid()
    ensures var selected := Selected(catalog.people, department, ids);
            && Distinct(selected) && IdSet(selected) == Members(catalog, department, ids) <= ids
            && |selected| == |Members(catalog, department, ids)| <= |ids|
            && (selected == [] <==> Members(catalog, department, ids) == {})
            && (|selected| == |ids| <==> Members(catalog, department, ids) == ids)
  {
    var selected := Selected(catalog.people, department, ids);
    SelectedMembers(catalog.people, department, ids);
    DistinctCount(selected);
    forall id
      ensures id in IdSet(selected) <==> id in Members(catalog, department, ids)
    {
      assert id in IdSet(selected) <==> id in selected;
    }
    assert IdSet(selected) == Members(catalog, department, ids);
    Smaller(Members(catalog, department, ids), ids);
    if |selected| == |ids| {
      SubsetOfSameSize(Members(catalog, department, ids), ids);
    }
    if selected != [] {
      assert selected[0] in IdSet(selected);
    }
  }

  /** What is left of a department's limit beside those who are not selected. */
  ghost function Left(budgets: Budgets, department: string, members: set<string>): int
    requires Scope(Department, department) in budgets
  {
    budgets[Scope(Department, department)].limit
    - Total(budgets, Below(budgets, Scope(Department, department)) - ScopesOf(Person, members))
  }

  /** Every member has the given row, and nothing else changed. */
  ghost predicate GivesEach(before: Budgets, after: Budgets, members: set<string>, row: Row) {
    forall scope: Scope ::
      if scope.level == Person && scope.id in members then scope in after && after[scope] == row
      else (scope in after <==> scope in before) && (scope in before ==> after[scope] == before[scope])
  }

  /** Why a bulk write is refused before any amount is looked at. */
  ghost function BulkRefusal(catalog: Catalog, atomicReady: bool, models: set<int>, write: BulkWrite): Option<Problem> {
    var members := Members(catalog, write.department, write.selection.ids);
    if !Known(catalog, Scope(Department, write.department)) then Some(UnknownScope)
    else if write.selection.ByIds? && members != write.selection.ids then Some(NotInDepartment)
    else if members == {} then Some(NoSelection)
    else if write.allocation.Preserve? && write.models.None? then Some(NothingToDo)
    else if write.models.Some? && exists model :: model in write.models.value && model !in models then Some(ModelUnavailable)
    else if !write.allocation.Preserve? && write.mode == Usd && !atomicReady then Some(AtomicBudgetRequired)
    else None
  }

  /** Why no amount can be given to the members of a department. */
  ghost function LimitRefusal(budgets: Budgets, write: BulkWrite, members: set<string>): Option<Problem> {
    var department := Scope(Department, write.department);
    if department !in budgets then Some(Conflict(ParentMissing))
    else if budgets[department].mode != write.mode then Some(Conflict(ParentMode))
    else if SomeOther(budgets, Below(budgets, department) - ScopesOf(Person, members), write.mode) then Some(IncompleteLimit)
    else None
  }

  lemma LimitAnswer(catalog: Catalog, budgets: Budgets, write: BulkWrite)
    requires catalog.Valid() && Consistent(catalog, budgets)
    ensures var selected := Selected(catalog.people, write.department, write.selection.ids);
            var members := Members(catalog, write.department, write.selection.ids);
            && LimitProblem(catalog, budgets, write, selected) == LimitRefusal(budgets, write, members)
            && (Scope(Department, write.department) in budgets ==>
                  Available(catalog, budgets, write, selected) == Left(budgets, write.department, members))
  {
    hide Find, SumOfLimits, Allocated, AllCapped, Rooted, Catalogued, Total, Selected;
    var selected := Selected(catalog.people, write.department, write.selection.ids);
    var department := Scope(Department, write.department);
    SelectedAreMembers(catalog, write.department, write.selection.ids);
    BelowAreChildren(budgets, department);
    AllocatedAreChildren(catalog, budgets, Person, department, IdSet(selected));
  }

  lemma DecisionRefuses(catalog: Catalog, atomicReady: bool, models: set<int>, budgets: Budgets, write: BulkWrite)
    requires catalog.Valid() && BulkRefusal(catalog, atomicReady, models, write).Some?
    ensures Decide(catalog, atomicReady, models, budgets, write) == Err(BulkRefusal(catalog, atomicReady, models, write).value)
  {
    hide Find, Selected, LimitProblem, Available, Members, Known;
    SelectedAreMembers(catalog, write.department, write.selection.ids);
    FindIsEntity(catalog, Department, write.department);
    if write.models.Some? {
      SomeUnavailable(write.models.value, models);
    }
  }

  lemma SomeUnavailable(wanted: set<int>, models: set<int>)
    ensures wanted <= models <==> !exists model :: model in wanted && model !in models
  {
    if forall model | model in wanted :: model in models {
      assert wanted <= models;
    }
  }

  /** Whatever amounts are at stake, these reasons come first; and a write that keeps the budgets changes none. */
  lemma BulkRefused(catalog: Catalog, atomicReady: bool, models: set<int>, budgets: Budgets, write: BulkWrite)
    requires catalog.Valid()
    ensures var refusal := BulkRefusal(catalog, atomicReady, models, write);
            && (refusal.Some? ==> Bulked(catalog, atomicReady, models, budgets, write) == Err(refusal.value))
            && (refusal.None? && write.allocation.Preserve? ==>
                  && Bulked(catalog, atomicReady, models, budgets, write) == Ok(budgets)
                  && Decide(catalog, atomicReady, models, budgets, write).value.limit == None)
  {
    hide Find, Selected, LimitProblem, Available;
    SelectedAreMembers(catalog, write.department, write.selection.ids);
    FindIsEntity(catalog, Department, write.department);
    if BulkRefusal(catalog, atomicReady, models, write).Some? {
      DecisionRefuses(catalog, atomicReady, models, budgets, write);
    } else if write.allocation.Preserve? {
      SomeUnavailable(write.models.value, models);
      NothingWritten(budgets, write.department, write.mode, write.warning);
    }
  }

  /** The share of each: as much as fits, and one more would not. */
  ghost predicate LargestShare(amount: int, left: int, people: nat) {
    amount * people <= left < (amount + 1) * people
  }

  /** A fixed amount is given to each member if that fits, an equal one if at least one unit each does. */
  lemma BulkAnswer(catalog: Catalog, atomicReady: bool, models: set<int>, budgets: Budgets, write: BulkWrite) returns (amount: int)
    requires catalog.Valid() && Consistent(catalog, budgets) && !write.allocation.Preserve?
    requires BulkRefusal(catalog, atomicReady, models, write).None?
    requires write.allocation.Fixed? ==> write.allocation.limit >= 1
    ensures var members := Members(catalog, write.department, write.selection.ids);
            var refusal := LimitRefusal(budgets, write, members);
            var bulked := Bulked(catalog, atomicReady, models, budgets, write);
            if refusal.Some? then bulked == Err(refusal.value)
            else
              var left := Left(budgets, write.department, members);
              && (write.allocation.Fixed? ==> amount == write.allocation.limit)
              && (write.allocation.EqualRemaining? && left >= |members| ==> LargestShare(amount, left, |members|))
              && if write.allocation.EqualRemaining? && left < |members| then bulked == Err(NothingLeft)
                 else if amount * |members| > left then bulked == Err(Conflict(ExceedsParent))
                 else && bulked.Ok? && GivesEach(budgets, bulked.value, members,
                                                 Row(Some(write.department), write.mode, amount, write.warning))
                      && Decide(catalog, atomicReady, models, budgets, write).value.limit == Some(amount)
  {
    hide Find, Selected, LimitProblem, Available, Total, AllCapped, Rooted, Catalogued, GivesEach, Written, AsTransaction,
      TransactionViolation, Share;
    var selected := Selected(catalog.people, write.department, write.selection.ids);
    var members := Members(catalog, write.department, write.selection.ids);
    SelectedAreMembers(catalog, write.department, write.selection.ids);
    FindIsEntity(catalog, Department, write.department);
    LimitAnswer(catalog, budgets, write);
    if write.models.Some? {
      SomeUnavailable(write.models.value, models);
    }
    amount := 0;
    if LimitRefusal(budgets, write, members).None? {
      var left := Left(budgets, write.department, members);
      amount := if write.allocation.Fixed? then write.allocation.limit else Share(write.mode, left, |members|);
      ShareIsLargest(write.mode, left, |members|);
      BulkChecksAgree(catalog, budgets, write, amount);
      WrittenGivesEach(catalog, budgets, write, amount);
    }
  }

  lemma WrittenGivesEach(catalog: Catalog, budgets: Budgets, write: BulkWrite, amount: int)
    requires catalog.Valid()
    ensures var selected := Selected(catalog.people, write.department, write.selection.ids);
            GivesEach(budgets, Written(budgets, AsTransaction(write, Plan(selected, Some(amount)))),
                      Members(catalog, write.department, write.selection.ids),
                      Row(Some(write.department), write.mode, amount, write.warning))
  {
    hide Selected, BulkRows, Members;
    var selected := Selected(catalog.people, write.department, write.selection.ids);
    SelectedAreMembers(catalog, write.department, write.selection.ids);
    var plan := Plan(selected, Some(amount));
    EntriesOfPlan(catalog, write, plan);
    EachRow(write.department, write.mode, write.warning, Entries(plan), amount);
  }

  lemma {:induction false} EachRow(department: string, mode: Mode, warning: nat, entries: seq<(string, int)>, amount: int)
    requires forall entry | entry in entries :: entry.1 == amount
    ensures var rows := BulkRows(department, mode, warning, entries);
            && (forall scope: Scope :: scope in rows <==> scope.level == Person && scope.id in Ids(entries))
            && (forall scope | scope in rows :: rows[scope] == Row(Some(department), mode, amount, warning))
  {
    if entries != [] {
      var rest, last := entries[..|entries| - 1], entries[|entries| - 1];
      assert entries == rest + [last];
      EachRow(department, mode, warning, rest, amount);
      assert forall id :: id in Ids(entries) <==> id in Ids(rest) || id == last.0;
    }
  }
}
