/**
  The budget service over a fixed catalog of organizations, departments and people:
  its checks, what they decide, and the hierarchy they keep.
 */
module BudgetHierarchy {
  import opened Wrappers
  import opened BudgetTable

  datatype Entity = Entity(id: string, name: string, parent: Option<string>)

  predicate DistinctIds(entities: seq<Entity>) {
    forall i, j | 0 <= i < j < |entities| :: entities[i].id != entities[j].id
  }

  datatype Catalog = Catalog(organizations: seq<Entity>, departments: seq<Entity>, people: seq<Entity>) {
    function Entities(level: Level): seq<Entity> {
      match level
      case Organization => organizations
      case Department => departments
      case Person => people
    }

    predicate Valid() {
      DistinctIds(organizations) && DistinctIds(departments) && DistinctIds(people)
    }
  }

  datatype Problem =
    | UnknownScope | AtomicBudgetRequired | UnitSwitch | NotAssigned
    | NotInDepartment | NoSelection | NothingToDo | ModelUnavailable | IncompleteLimit | NothingLeft
    | Conflict(violation: Violation)   // found by the service's own checks
    | Refused(violation: Violation)    // raised by the table's transaction

  function Find(entities: seq<Entity>, id: string): (found: Option<Entity>)
    ensures found.Some? ==> found.value in entities && found.value.id == id
    ensures found.None? ==> forall entity | entity in entities :: entity.id != id
  {
    if entities == [] then None
    else if entities[0].id == id then Some(entities[0])
    else Find(entities[1..], id)
  }

  predicate IsAllocated(budgets: Budgets, level: Level, entity: Entity, parent: string, without: set<string>) {
    entity.parent == Some(parent) && entity.id !in without && Scope(level, entity.id) in budgets
  }

  /** The allocated entities under a parent, without some, in catalog order. */
  function Allocated(budgets: Budgets, level: Level, entities: seq<Entity>, parent: string, without: set<string>): (found: seq<Scope>)
    ensures forall scope | scope in found :: scope in budgets
  {
    if entities == [] then []
    else
      var last := entities[|entities| - 1];
      Allocated(budgets, level, entities[..|entities| - 1], parent, without)
      + if IsAllocated(budgets, level, last, parent, without)
        then [Scope(level, last.id)] else []
  }

  function SumOfLimits(budgets: Budgets, scopes: seq<Scope>): int
    requires forall scope | scope in scopes :: scope in budgets
  {
    if scopes == [] then 0 else SumOfLimits(budgets, scopes[..|scopes| - 1]) + budgets[scopes[|scopes| - 1]].limit
  }

  predicate OneMode(budgets: Budgets, scopes: seq<Scope>, mode: Mode)
    requires forall scope | scope in scopes :: scope in budgets
  {
    forall scope | scope in scopes :: budgets[scope].mode == mode
  }

  // ----- Saving one budget -----

  datatype Write = Write(mode: Mode, limit: int, warning: nat)

  function ChildLevel(level: Level): Option<Level> {
    match level
    case Organization => Some(Department)
    case Department => Some(Person)
    case Person => None
  }

  function ParentProblem(catalog: Catalog, budgets: Budgets, scope: Scope, parentId: Option<string>, write: Write): Option<Problem> {
    if ParentLevel(scope.level).None? then None
    else
      var parent := ParentScope(scope.level, parentId);
      if parent.None? || parent.value !in budgets then Some(Conflict(ParentMissing))
      else if budgets[parent.value].mode != write.mode then Some(Conflict(ParentMode))
      else
        var siblings := Allocated(budgets, scope.level, catalog.Entities(scope.level), parentId.value, {scope.id});
        if !OneMode(budgets, siblings, write.mode) then Some(Conflict(SiblingMode))
        else if write.limit + SumOfLimits(budgets, siblings) > budgets[parent.value].limit then Some(Conflict(ExceedsParent))
        else None
  }

  function ChildProblem(catalog: Catalog, budgets: Budgets, scope: Scope, write: Write): Option<Problem> {
    match ChildLevel(scope.level)
    case None => None
    case Some(level) =>
      var children := Allocated(budgets, level, catalog.Entities(level), scope.id, {});
      if !OneMode(budgets, children, write.mode) then Some(Conflict(ChildMode))
      else if SumOfLimits(budgets, children) > write.limit then Some(Conflict(BelowChildren))
      else None
  }

  function SaveProblem(catalog: Catalog, atomicReady: bool, budgets: Budgets, scope: Scope, write: Write): Option<Problem> {
    match Find(catalog.Entities(scope.level), scope.id)
    case None => Some(UnknownScope)
    case Some(entity) =>
      if !atomicReady && (write.mode == Usd || (scope in budgets && budgets[scope].mode == Usd)) then Some(AtomicBudgetRequired)
      else if scope.level == Organization && scope in budgets && budgets[scope].mode != write.mode then Some(UnitSwitch)
      else
        var above := ParentProblem(catalog, budgets, scope, entity.parent, write);
        if above.Some? then above else ChildProblem(catalog, budgets, scope, write)
  }

  function RowFor(catalog: Catalog, scope: Scope, write: Write): Row {
    var entity := Find(catalog.Entities(scope.level), scope.id);
    Row(if entity.Some? then entity.value.parent else None, write.mode, write.limit, write.warning)
  }

  ghost function Saved(catalog: Catalog, atomicReady: bool, budgets: Budgets, scope: Scope, write: Write): Result<Budgets, Problem> {
    var problem := SaveProblem(catalog, atomicReady, budgets, scope, write);
    if problem.Some? then Err(problem.value)
    else
      var violation := UpsertViolation(budgets, scope, RowFor(catalog, scope, write));
      if violation.Some? then Err(Refused(violation.value)) else Ok(budgets[scope := RowFor(catalog, scope, write)])
  }

  // ----- Removing one budget -----

  function RemoveProblem(catalog: Catalog, budgets: Budgets, scope: Scope): Option<Problem> {
    if Find(catalog.Entities(scope.level), scope.id).None? then Some(UnknownScope)
    else
      match ChildLevel(scope.level)
      case None => None
      case Some(level) =>
        if Allocated(budgets, level, catalog.Entities(level), scope.id, {}) != [] then Some(Conflict(HasChildren)) else None
  }

  function Removed(catalog: Catalog, budgets: Budgets, scope: Scope): Result<Budgets, Problem> {
    var problem := RemoveProblem(catalog, budgets, scope);
    if problem.Some? then Err(problem.value)
    else if Children(budgets, scope) != {} then Err(Refused(HasChildren))
    else if scope !in budgets then Err(NotAssigned)
    else Ok(budgets - {scope})
  }

  // ----- The hierarchy -----

  /** Every row belongs to a catalog entity and names that entity's parent. */
  predicate Catalogued(catalog: Catalog, budgets: Budgets) {
    forall scope | scope in budgets ::
      && Find(catalog.Entities(scope.level), scope.id).Some?
      && budgets[scope].parent == Find(catalog.Entities(scope.level), scope.id).value.parent
  }

  ghost predicate Consistent(catalog: Catalog, budgets: Budgets) {
    Catalogued(catalog, budgets) && AllCapped(budgets) && Rooted(budgets)
  }

  // ----- The catalog view and the table view agree -----

  lemma {:induction false} FindsItself(entities: seq<Entity>, i: nat)
    requires DistinctIds(entities) && i < |entities|
    ensures Find(entities, entities[i].id) == Some(entities[i])
  {
    if i > 0 {
      FindsItself(entities[1..], i - 1);
    }
  }

  lemma {:induction false} AllocatedMembers(budgets: Budgets, level: Level, entities: seq<Entity>, parent: string, without: set<string>)
    ensures forall scope | scope in Allocated(budgets, level, entities, parent, without) ::
              exists entity :: entity in entities && IsAllocated(budgets, level, entity, parent, without)
                               && scope == Scope(level, entity.id)
    ensures forall entity | entity in entities && IsAllocated(budgets, level, entity, parent, without) ::
              Scope(level, entity.id) in Allocated(budgets, level, entities, parent, without)
  {
    hide IsAllocated;
    if entities != [] {
      assert entities == entities[..|entities| - 1] + [entities[|entities| - 1]];
      AllocatedMembers(budgets, level, entities[..|entities| - 1], parent, without);
    }
  }

  function AsSet(scopes: seq<Scope>): set<Scope> {
    set scope | scope in scopes
  }

  lemma SumOfMore(budgets: Budgets, scopes: seq<Scope>, scope: Scope)
    requires (forall other | other in scopes :: other in budgets) && scope in budgets && scope !in scopes
    requires SumOfLimits(budgets, scopes) == Total(budgets, AsSet(scopes))
    ensures SumOfLimits(budgets, scopes + [scope]) == Total(budgets, AsSet(scopes + [scope]))
  {
    var more := scopes + [scope];
    assert more[..|more| - 1] == scopes;
    assert AsSet(more) - {scope} == AsSet(scopes);
    TotalWithout(budgets, AsSet(more), scope);
  }

  lemma {:induction false} AllocatedSum(budgets: Budgets, level: Level, entities: seq<Entity>, parent: string, without: set<string>)
    requires DistinctIds(entities)
    ensures var found := Allocated(budgets, level, entities, parent, without);
            SumOfLimits(budgets, found) == Total(budgets, AsSet(found))
  {
    hide IsAllocated, Total, SumOfLimits;
    if entities == [] {
      EmptySum(budgets);
    } else {
      var rest, last := entities[..|entities| - 1], entities[|entities| - 1];
      var before := Allocated(budgets, level, rest, parent, without);
      AllocatedSum(budgets, level, rest, parent, without);
      AllocatedMembers(budgets, level, rest, parent, without);
      if IsAllocated(budgets, level, last, parent, without) {
        InBudgets(budgets, level, last, parent, without);
        SumOfMore(budgets, before, Scope(level, last.id));
      } else {
        assert Allocated(budgets, level, entities, parent, without) == before;
      }
    }
  }

  lemma EmptySum(budgets: Budgets)
    ensures SumOfLimits(budgets, []) == Total(budgets, AsSet([]))
  {
  }

  lemma InBudgets(budgets: Budgets, level: Level, entity: Entity, parent: string, without: set<string>)
    requires IsAllocated(budgets, level, entity, parent, without)
    ensures Scope(level, entity.id) in budgets
  {
  }

  lemma AllocatedIsChild(catalog: Catalog, budgets: Budgets, level: Level, parent: Scope, without: set<string>, scope: Scope)
    requires catalog.Valid() && Catalogued(catalog, budgets) && ParentLevel(level) == Some(parent.level)
    requires scope in Allocated(budgets, level, catalog.Entities(level), parent.id, without)
    ensures scope in Children(budgets, parent) - ScopesOf(level, without)
  {
    hide Allocated, Find;
    var entities := catalog.Entities(level);
    AllocatedMembers(budgets, level, entities, parent.id, without);
    var i :| 0 <= i < |entities| && IsAllocated(budgets, level, entities[i], parent.id, without)
             && scope == Scope(level, entities[i].id);
    FindsItself(entities, i);
  }

  lemma ChildIsAllocated(catalog: Catalog, budgets: Budgets, level: Level, parent: Scope, without: set<string>, scope: Scope)
    requires Catalogued(catalog, budgets) && ParentLevel(level) == Some(parent.level)
    requires scope in Children(budgets, parent) - ScopesOf(level, without)
    ensures scope in Allocated(budgets, level, catalog.Entities(level), parent.id, without)
  {
    hide Allocated, Find;
    var entities := catalog.Entities(level);
    AllocatedMembers(budgets, level, entities, parent.id, without);
    assert IsAllocated(budgets, level, Find(entities, scope.id).value, parent.id, without);
  }

  lemma AllocatedAreChildren(catalog: Catalog, budgets: Budgets, level: Level, parent: Scope, without: set<string>)
    requires catalog.Valid() && Catalogued(catalog, budgets) && ParentLevel(level) == Some(parent.level)
    ensures var found := Allocated(budgets, level, catalog.Entities(level), parent.id, without);
            var expected := Children(budgets, parent) - ScopesOf(level, without);
            AsSet(found) == expected && SumOfLimits(budgets, found) == Total(budgets, expected)
  {
    hide Allocated, Total, SumOfLimits, Find, Catalogued, Children, ScopesOf;
    var entities := catalog.Entities(level);
    var found := Allocated(budgets, level, entities, parent.id, without);
    var expected := Children(budgets, parent) - ScopesOf(level, without);
    AllocatedSum(budgets, level, entities, parent.id, without);
    forall scope | scope in found
      ensures scope in expected
    {
      AllocatedIsChild(catalog, budgets, level, parent, without, scope);
    }
    forall scope | scope in expected
      ensures scope in found
    {
      ChildIsAllocated(catalog, budgets, level, parent, without, scope);
    }
  }

  // ----- What the service decides -----

  lemma ParentCheckAgrees(catalog: Catalog, budgets: Budgets, scope: Scope, write: Write)
    requires catalog.Valid() && Consistent(catalog, budgets)
    requires Find(catalog.Entities(scope.level), scope.id).Some?
    ensures var row := RowFor(catalog, scope, write);
            var parent := ParentScope(scope.level, row.parent);
            ParentProblem(catalog, budgets, scope, row.parent, write).None?
            <==> ParentLevel(scope.level).None?
                 || (parent.Some? && parent.value in budgets
                     && budgets[parent.value].mode == write.mode
                     && SameMode(budgets, Children(budgets, parent.value) - {scope}, write.mode)
                     && Total(budgets, Children(budgets, parent.value) - {scope}) + write.limit <= budgets[parent.value].limit)
  {
    hide Total, SumOfLimits, Allocated, Children, Find, AllCapped, Catalogued;
    var row := RowFor(catalog, scope, write);
    var parent := ParentScope(scope.level, row.parent);
    if parent.Some? {
      assert ScopesOf(scope.level, {scope.id}) == {scope};
      AllocatedAreChildren(catalog, budgets, scope.level, parent.value, {scope.id});
    }
  }

  lemma ChildCheckAgrees(catalog: Catalog, budgets: Budgets, scope: Scope, write: Write)
    requires catalog.Valid() && Consistent(catalog, budgets) && write.limit >= 0
    ensures ChildProblem(catalog, budgets, scope, write).None?
            <==> SameMode(budgets, Children(budgets, scope), write.mode)
                 && Total(budgets, Children(budgets, scope)) <= write.limit
  {
    hide SumOfLimits, Allocated, Find, AllCapped, Catalogued;
    if ChildLevel(scope.level).Some? {
      assert Children(budgets, scope) - ScopesOf(ChildLevel(scope.level).value, {}) == Children(budgets, scope);
      AllocatedAreChildren(catalog, budgets, ChildLevel(scope.level).value, scope, {});
    } else {
      assert Children(budgets, scope) == {};
    }
  }

  lemma RowIsCatalogued(catalog: Catalog, budgets: Budgets, scope: Scope, write: Write)
    requires Catalogued(catalog, budgets) && Find(catalog.Entities(scope.level), scope.id).Some?
    ensures Catalogued(catalog, budgets[scope := RowFor(catalog, scope, write)])
  {
    hide Find;
  }

  /** The part of a save that does not depend on the hierarchy. */
  predicate MaySave(catalog: Catalog, atomicReady: bool, budgets: Budgets, scope: Scope, write: Write) {
    && Find(catalog.Entities(scope.level), scope.id).Some?
    && (atomicReady || (write.mode != Usd && (scope in budgets ==> budgets[scope].mode != Usd)))
    && !(scope.level == Organization && scope in budgets && budgets[scope].mode != write.mode)
  }

  predicate ParentAllocated(budgets: Budgets, scope: Scope, row: Row) {
    var parent := ParentScope(scope.level, row.parent);
    ParentLevel(scope.level).None? || (parent.Some? && parent.value in budgets)
  }

  lemma StaysRooted(budgets: Budgets, scope: Scope, row: Row)
    requires Rooted(budgets)
    ensures Rooted(budgets[scope := row]) <==> ParentAllocated(budgets, scope, row)
  {
    var after := budgets[scope := row];
    if ParentAllocated(budgets, scope, row) {
      forall other | other in after && ParentLevel(other.level).Some?
        ensures ParentScope(other.level, after[other].parent).Some?
                && ParentScope(other.level, after[other].parent).value in after
      {
        if other != scope {
          assert other in budgets;
        }
      }
    } else {
      assert scope in after;
    }
  }

  /** Where a parent is allocated and caps its children, siblings already share its unit. */
  lemma SiblingsFollowParent(budgets: Budgets, scope: Scope, row: Row)
    requires AllCapped(budgets[scope := row]) && ParentAllocated(budgets, scope, row)
    ensures SiblingsShareMode(budgets, scope, row)
  {
    hide Total;
    var after := budgets[scope := row];
    var parent := ParentScope(scope.level, row.parent);
    if parent.Some? {
      assert Capped(after, parent.value) && scope in Children(after, parent.value);
      forall sibling | sibling in Children(budgets, parent.value) - {scope}
        ensures budgets[sibling].mode == row.mode
      {
        assert sibling in Children(after, parent.value);
      }
    }
  }

  lemma ServiceAndTableAgree(catalog: Catalog, atomicReady: bool, budgets: Budgets, scope: Scope, write: Write)
    requires catalog.Valid() && Consistent(catalog, budgets) && write.limit >= 1
    requires MaySave(catalog, atomicReady, budgets, scope, write)
    ensures var row := RowFor(catalog, scope, write);
            SaveProblem(catalog, atomicReady, budgets, scope, write).None?
            <==> UpsertViolation(budgets, scope, row).None? && ParentAllocated(budgets, scope, row)
  {
    hide Total, Children, Find, AllCapped, Catalogued, ParentProblem, ChildProblem, SameMode, Rooted;
    ParentCheckAgrees(catalog, budgets, scope, write);
    ChildCheckAgrees(catalog, budgets, scope, write);
  }

  /** A save is accepted exactly when the hierarchy that results is consistent. */
  lemma SaveAcceptsExactlyConsistent(catalog: Catalog, atomicReady: bool, budgets: Budgets, scope: Scope, write: Write)
    requires catalog.Valid() && Consistent(catalog, budgets) && write.limit >= 1
    requires MaySave(catalog, atomicReady, budgets, scope, write)
    ensures var after := budgets[scope := RowFor(catalog, scope, write)];
            var saved := Saved(catalog, atomicReady, budgets, scope, write);
            if Consistent(catalog, after) then saved == Ok(after) else saved.Err? && !saved.error.Refused?
  {
    hide Total, Children, Find, AllCapped, Catalogued, ParentProblem, ChildProblem, UpsertViolation, SameMode,
         Rooted, SiblingsShareMode, ParentAllocated, MaySave;
    var row := RowFor(catalog, scope, write);
    ServiceAndTableAgree(catalog, atomicReady, budgets, scope, write);
    KnownScope(catalog, atomicReady, budgets, scope, write);
    RowIsCatalogued(catalog, budgets, scope, write);
    UpsertIsExact(budgets, scope, row);
    StaysRooted(budgets, scope, row);
    if AllCapped(budgets[scope := row]) && ParentAllocated(budgets, scope, row) {
      SiblingsFollowParent(budgets, scope, row);
    }
    ServiceErrors(catalog, atomicReady, budgets, scope, write);
  }

  lemma KnownScope(catalog: Catalog, atomicReady: bool, budgets: Budgets, scope: Scope, write: Write)
    requires MaySave(catalog, atomicReady, budgets, scope, write)
    ensures Find(catalog.Entities(scope.level), scope.id).Some?
  {
  }

  lemma ServiceErrors(catalog: Catalog, atomicReady: bool, budgets: Budgets, scope: Scope, write: Write)
    ensures var problem := SaveProblem(catalog, atomicReady, budgets, scope, write);
            problem.Some? ==> !problem.value.Refused?
  {
  }

  lemma RemovalStaysRooted(budgets: Budgets, scope: Scope)
    requires Rooted(budgets)
    ensures Rooted(budgets - {scope}) <==> Children(budgets, scope) == {}
  {
    if Children(budgets, scope) != {} {
      var child :| child in Children(budgets, scope);
      assert child in budgets - {scope};
    }
  }

  /** A removal is accepted exactly when the scope is allocated and what remains is consistent. */
  lemma RemoveAcceptsExactlyConsistent(catalog: Catalog, budgets: Budgets, scope: Scope)
    requires catalog.Valid() && Consistent(catalog, budgets) && Find(catalog.Entities(scope.level), scope.id).Some?
    ensures var removed := Removed(catalog, budgets, scope);
            if scope in budgets && Consistent(catalog, budgets - {scope}) then removed == Ok(budgets - {scope})
            else removed.Err? && !removed.error.Refused?
  {
    hide Total, Find, Allocated, AllCapped, TransactionViolation;
    RemovalStaysRooted(budgets, scope);
    if Children(budgets, scope) == {} {
      DeletedStaysCapped(budgets, scope);
    }
    if ChildLevel(scope.level).Some? {
      assert Children(budgets, scope) - ScopesOf(ChildLevel(scope.level).value, {}) == Children(budgets, scope);
      AllocatedAreChildren(catalog, budgets, ChildLevel(scope.level).value, scope, {});
      var found := Allocated(budgets, ChildLevel(scope.level).value, catalog.Entities(ChildLevel(scope.level).value), scope.id, {});
      assert found != [] ==> found[0] in AsSet(found);
    } else {
      assert Children(budgets, scope) == {};
    }
  }

  lemma DeletedStaysCapped(budgets: Budgets, scope: Scope)
    requires AllCapped(budgets) && Children(budgets, scope) == {}
    ensures AllCapped(budgets - {scope})
  {
    TransactionKeepsCaps(budgets, Delete(scope));
  }
}
