/** Giving the selected people of one department the same budget. */
module BudgetBulk {
  import opened Wrappers
  import opened BudgetTable
  import opened BudgetHierarchy

  /** The people named by the caller, or those that match a filter (the filter itself is an input). */
  datatype Selection = ByIds(ids: set<string>) | Matching(ids: set<string>)
  datatype Allocation = Fixed(limit: int) | EqualRemaining | Preserve
  datatype BulkWrite = BulkWrite(department: string, selection: Selection, allocation: Allocation, mode: Mode,
                                 warning: nat, models: Option<set<int>>)

  /** Who was selected, and what each of them is given; `None` leaves their budgets alone. */
  datatype Plan = Plan(selected: seq<string>, limit: Option<int>)

  function Selected(people: seq<Entity>, department: string, ids: set<string>): seq<string> {
    if people == [] then []
    else
      var last := people[|people| - 1];
      Selected(people[..|people| - 1], department, ids)
      + if last.parent == Some(department) && last.id in ids then [last.id] else []
  }

  function IdSet(ids: seq<string>): set<string> {
    set id | id in ids
  }

  /** Whole tokens round down; cents round toward zero. */
  function Share(mode: Mode, available: int, people: nat): int
    requires people > 0
  {
    if mode == Tokens || available >= 0 then available / people else -(-available / people)
  }

  function Available(catalog: Catalog, budgets: Budgets, write: BulkWrite, selected: seq<string>): int
    requires Scope(Department, write.department) in budgets
  {
    budgets[Scope(Department, write.department)].limit
    - SumOfLimits(budgets, Allocated(budgets, Person, catalog.people, write.department, IdSet(selected)))
  }

  function LimitProblem(catalog: Catalog, budgets: Budgets, write: BulkWrite, selected: seq<string>): Option<Problem> {
    var department := Scope(Department, write.department);
    if department !in budgets then Some(Conflict(ParentMissing))
    else if budgets[department].mode != write.mode then Some(Conflict(ParentMode))
    else if !OneMode(budgets, Allocated(budgets, Person, catalog.people, write.department, IdSet(selected)), write.mode)
      then Some(IncompleteLimit)
    else None
  }

  function Decide(catalog: Catalog, atomicReady: bool, models: set<int>, budgets: Budgets, write: BulkWrite): Result<Plan, Problem> {
    var selected := Selected(catalog.people, write.department, write.selection.ids);
    if Find(catalog.departments, write.department).None? then Err(UnknownScope)
    else if write.selection.ByIds? && |selected| != |write.selection.ids| then Err(NotInDepartment)
    else if selected == [] then Err(NoSelection)
    else if write.allocation.Preserve? && write.models.None? then Err(NothingToDo)
    else if write.models.Some? && !(write.models.value <= models) then Err(ModelUnavailable)
    else if write.allocation.Preserve? then Ok(Plan(selected, None))
    else if write.mode == Usd && !atomicReady then Err(AtomicBudgetRequired)
    else
      var problem := LimitProblem(catalog, budgets, write, selected);
      if problem.Some? then Err(problem.value)
      else
        var available := Available(catalog, budgets, write, selected);
        var limit := if write.allocation.Fixed? then write.allocation.limit else Share(write.mode, available, |selected|);
        if write.allocation.EqualRemaining? && limit < 1 then Err(NothingLeft)
        else if limit * |selected| > available then Err(Conflict(ExceedsParent))
        else Ok(Plan(selected, Some(limit)))
  }

  function Entries(plan: Plan): seq<(string, int)> {
    if plan.limit.None? then []
    else seq(|plan.selected|, i requires 0 <= i < |plan.selected| => (plan.selected[i], plan.limit.value))
  }

  function AsTransaction(write: BulkWrite, plan: Plan): Transaction {
    BulkUpsert(write.department, write.mode, write.warning, IdSet(plan.selected), Entries(plan))
  }

  ghost function Bulked(catalog: Catalog, atomicReady: bool, models: set<int>, budgets: Budgets, write: BulkWrite)
    : Result<Budgets, Problem>
  {
    var decision := Decide(catalog, atomicReady, models, budgets, write);
    if decision.Err? then Err(decision.error)
    else
      var transaction := AsTransaction(write, decision.value);
      var violation := TransactionViolation(budgets, transaction);
      if violation.Some? then Err(Refused(violation.value)) else Ok(Written(budgets, transaction))
  }

  // ----- Selections -----

  predicate Distinct(ids: seq<string>) {
    forall i, j | 0 <= i < j < |ids| :: ids[i] != ids[j]
  }

  lemma {:induction false} SelectedMembers(people: seq<Entity>, department: string, ids: set<string>)
    requires DistinctIds(people)
    ensures Distinct(Selected(people, department, ids))
    ensures forall id :: id in Selected(people, department, ids)
                         <==> id in ids && exists entity :: entity in people && entity.id == id && entity.parent == Some(department)
  {
    if people != [] {
      var rest, last := people[..|people| - 1], people[|people| - 1];
      assert people == rest + [last];
      SelectedMembers(rest, department, ids);
    }
  }

  lemma {:induction false} DistinctCount(ids: seq<string>)
    requires Distinct(ids)
    ensures |IdSet(ids)| == |ids|
  {
    if ids != [] {
      var rest, last := ids[..|ids| - 1], ids[|ids| - 1];
      assert ids == rest + [last];
      DistinctCount(rest);
      assert IdSet(ids) == IdSet(rest) + {last};
    }
  }

  lemma SubsetOfSameSize(part: set<string>, whole: set<string>)
    requires part <= whole && |part| == |whole|
    ensures part == whole
  {
    forall id | id in whole
      ensures id in part
    {
      if id !in part {
        Smaller(part, whole - {id});
      }
    }
  }

  lemma {:induction false} Smaller(part: set<string>, whole: set<string>)
    requires part <= whole
    ensures |part| <= |whole|
    decreases part
  {
    if part != {} {
      var id :| id in part;
      Smaller(part - {id}, whole - {id});
    }
  }

  lemma SomeoneMissing(part: set<string>, whole: set<string>)
    requires part <= whole && part != whole
    ensures exists id :: id in whole && id !in part
  {
    assert !(whole <= part);
  }

  /** Naming people is all or nothing: everybody named must belong to the department. */
  lemma NamedPeopleBelong(catalog: Catalog, atomicReady: bool, models: set<int>, budgets: Budgets, write: BulkWrite)
    requires catalog.Valid() && write.selection.ByIds?
    ensures var decision := Decide(catalog, atomicReady, models, budgets, write);
            && (decision.Ok? ==> IdSet(decision.value.selected) == write.selection.ids)
            && (decision == Err(NotInDepartment) ==>
                  exists id :: id in write.selection.ids
                    && forall entity | entity in catalog.people && entity.id == id :: entity.parent != Some(write.department))
  {
    var selected := Selected(catalog.people, write.department, write.selection.ids);
    SelectedMembers(catalog.people, write.department, write.selection.ids);
    DistinctCount(selected);
    assert IdSet(selected) <= write.selection.ids;
    if |selected| == |write.selection.ids| {
      SubsetOfSameSize(IdSet(selected), write.selection.ids);
    } else {
      SomeoneMissing(IdSet(selected), write.selection.ids);
    }
  }

  // ----- Totals -----

  lemma {:induction false} SumOfEqual(entries: seq<(string, int)>, limit: int)
    requires forall entry | entry in entries :: entry.1 == limit
    ensures SumOf(entries) == limit * |entries|
  {
    if entries != [] {
      SumOfEqual(entries[..|entries| - 1], limit);
    }
  }

  predicate DistinctEntries(entries: seq<(string, int)>) {
    forall i, j | 0 <= i < j < |entries| :: entries[i].0 != entries[j].0
  }

  lemma {:induction false} TotalOfRows(department: string, mode: Mode, warning: nat, entries: seq<(string, int)>)
    requires DistinctEntries(entries)
    ensures var rows := BulkRows(department, mode, warning, entries);
            rows.Keys == ScopesOf(Person, Ids(entries)) && Total(rows, rows.Keys) == SumOf(entries)
  {
    hide Total;
    if entries == [] {
      TotalOfNone(BulkRows(department, mode, warning, entries));
      assert BulkRows(department, mode, warning, entries).Keys == {};
    } else {
      var rest, last := entries[..|entries| - 1], entries[|entries| - 1];
      var before := BulkRows(department, mode, warning, rest);
      var rows := BulkRows(department, mode, warning, entries);
      assert entries == rest + [last];
      TotalOfRows(department, mode, warning, rest);
      assert rows.Keys - {Scope(Person, last.0)} == before.Keys;
      TotalWithout(rows, rows.Keys, Scope(Person, last.0));
      TotalOfAgreeing(before, rows, before.Keys);
    }
  }

  lemma TotalOfNone(budgets: Budgets)
    ensures Total(budgets, {}) == 0
  {
  }

  /** What a bulk write of distinct people makes of the department's children. */
  lemma ChildrenAfterBulk(budgets: Budgets, department: string, mode: Mode, warning: nat, entries: seq<(string, int)>)
    requires DistinctEntries(entries)
    ensures var parent := Scope(Department, department);
            var rows := BulkRows(department, mode, warning, entries);
            var after := budgets + rows;
            var kept := Children(budgets, parent) - ScopesOf(Person, Ids(entries));
            && Children(after, parent) == kept + rows.Keys && kept !! rows.Keys
            && Total(after, Children(after, parent)) == Total(budgets, kept) + SumOf(entries)
  {
    hide Total, SumOf, Ids, ScopesOf;
    var parent := Scope(Department, department);
    var rows := BulkRows(department, mode, warning, entries);
    var after := budgets + rows;
    TotalOfRows(department, mode, warning, entries);
    RowsNameTheDepartment(department, mode, warning, entries);
    var kept := Children(budgets, parent) - rows.Keys;
    assert Children(after, parent) == kept + rows.Keys;
    TotalOfUnion(after, kept, rows.Keys);
    TotalOfAgreeing(rows, after, rows.Keys);
    TotalOfAgreeing(budgets, after, kept);
  }

  lemma {:induction false} RowsNameTheDepartment(department: string, mode: Mode, warning: nat, entries: seq<(string, int)>)
    ensures var rows := BulkRows(department, mode, warning, entries);
            forall scope | scope in rows :: scope.level == Person && rows[scope].parent == Some(department) && rows[scope].mode == mode
  {
    if entries != [] {
      RowsNameTheDepartment(department, mode, warning, entries[..|entries| - 1]);
    }
  }

  // ----- What a bulk write decides -----

  lemma EntriesOfPlan(catalog: Catalog, write: BulkWrite, plan: Plan)
    requires catalog.Valid() && plan.limit.Some?
    requires plan.selected == Selected(catalog.people, write.department, write.selection.ids)
    ensures DistinctEntries(Entries(plan)) && Ids(Entries(plan)) == IdSet(plan.selected)
    ensures |Entries(plan)| == |plan.selected| && SumOf(Entries(plan)) == plan.limit.value * |plan.selected|
  {
    hide SumOf;
    SelectedMembers(catalog.people, write.department, write.selection.ids);
    var entries := Entries(plan);
    SumOfEqual(entries, plan.limit.value);
    forall id | id in IdSet(plan.selected)
      ensures id in Ids(entries)
    {
      var i :| 0 <= i < |plan.selected| && plan.selected[i] == id;
      assert entries[i].0 == id;
    }
  }

  /** Everything but the limit: the write names a department, selects people and may be made. */
  predicate MayAllocate(catalog: Catalog, atomicReady: bool, models: set<int>, write: BulkWrite) {
    var selected := Selected(catalog.people, write.department, write.selection.ids);
    && Find(catalog.departments, write.department).Some?
    && (write.selection.ByIds? ==> |selected| == |write.selection.ids|)
    && selected != []
    && (write.models.Some? ==> write.models.value <= models)
    && (write.mode == Usd ==> atomicReady)
  }

  ghost function AfterFixed(catalog: Catalog, budgets: Budgets, write: BulkWrite, limit: int): Budgets {
    Written(budgets, AsTransaction(write, Plan(Selected(catalog.people, write.department, write.selection.ids), Some(limit))))
  }

  /** The service's checks and the table's check of a bulk write agree. */
  lemma BulkChecksAgree(catalog: Catalog, budgets: Budgets, write: BulkWrite, limit: int)
    requires catalog.Valid() && Consistent(catalog, budgets)
    requires Selected(catalog.people, write.department, write.selection.ids) != []
    ensures var selected := Selected(catalog.people, write.department, write.selection.ids);
            TransactionViolation(budgets, AsTransaction(write, Plan(selected, Some(limit)))).None?
            <==> LimitProblem(catalog, budgets, write, selected).None?
                 && limit * |selected| <= Available(catalog, budgets, write, selected)
  {
    hide Total, SumOf, SumOfLimits, Allocated, Selected, AllCapped, Catalogued, Entries, Ids, Children, Find;
    var selected := Selected(catalog.people, write.department, write.selection.ids);
    var plan := Plan(selected, Some(limit));
    EntriesOfPlan(catalog, write, plan);
    AllocatedAreChildren(catalog, budgets, Person, Scope(Department, write.department), IdSet(selected));
  }

  lemma BulkStaysCatalogued(catalog: Catalog, budgets: Budgets, write: BulkWrite, limit: int)
    requires catalog.Valid() && Catalogued(catalog, budgets)
    ensures Catalogued(catalog, AfterFixed(catalog, budgets, write, limit))
  {
    hide Find, Total, SumOf, BulkRows;
    var selected := Selected(catalog.people, write.department, write.selection.ids);
    var plan := Plan(selected, Some(limit));
    var rows := BulkRows(write.department, write.mode, write.warning, Entries(plan));
    EntriesOfPlan(catalog, write, plan);
    TotalOfRows(write.department, write.mode, write.warning, Entries(plan));
    RowsNameTheDepartment(write.department, write.mode, write.warning, Entries(plan));
    SelectedMembers(catalog.people, write.department, write.selection.ids);
    forall scope | scope in rows
      ensures Find(catalog.people, scope.id) .Some? && rows[scope].parent == Find(catalog.people, scope.id).value.parent
    {
      assert scope.id in selected;
      var i :| 0 <= i < |catalog.people| && catalog.people[i].id == scope.id && catalog.people[i].parent == Some(write.department);
      FindsItself(catalog.people, i);
    }
  }

  lemma BulkStaysRooted(catalog: Catalog, budgets: Budgets, write: BulkWrite, limit: int)
    requires catalog.Valid() && Rooted(budgets)
    requires Selected(catalog.people, write.department, write.selection.ids) != []
    ensures Rooted(AfterFixed(catalog, budgets, write, limit)) <==> Scope(Department, write.department) in budgets
  {
    hide Find, Total, SumOf, BulkRows;
    var selected := Selected(catalog.people, write.department, write.selection.ids);
    var plan := Plan(selected, Some(limit));
    var rows := BulkRows(write.department, write.mode, write.warning, Entries(plan));
    EntriesOfPlan(catalog, write, plan);
    TotalOfRows(write.department, write.mode, write.warning, Entries(plan));
    RowsNameTheDepartment(write.department, write.mode, write.warning, Entries(plan));
    assert Scope(Person, selected[0]) in rows;
  }

  lemma BulkStaysCapped(catalog: Catalog, budgets: Budgets, write: BulkWrite, limit: int)
    requires catalog.Valid() && Consistent(catalog, budgets) && limit >= 1
    requires Selected(catalog.people, write.department, write.selection.ids) != []
    requires Scope(Department, write.department) in budgets
    ensures var selected := Selected(catalog.people, write.department, write.selection.ids);
            AllCapped(AfterFixed(catalog, budgets, write, limit))
            <==> TransactionViolation(budgets, AsTransaction(write, Plan(selected, Some(limit)))).None?
  {
    hide Total, SumOf, Selected, Catalogued, Children, Rooted;
    var selected := Selected(catalog.people, write.department, write.selection.ids);
    var plan := Plan(selected, Some(limit));
    var entries := Entries(plan);
    EntriesOfPlan(catalog, write, plan);
    if TransactionViolation(budgets, AsTransaction(write, plan)).None? {
      TransactionKeepsCaps(budgets, AsTransaction(write, plan));
    } else {
      CappedAllowsBulk(budgets, write.department, write.mode, write.warning, entries);
    }
  }

  lemma CappedAllowsBulk(budgets: Budgets, department: string, mode: Mode, warning: nat, entries: seq<(string, int)>)
    requires DistinctEntries(entries) && entries != [] && Scope(Department, department) in budgets
    ensures AllCapped(budgets + BulkRows(department, mode, warning, entries))
            ==> BulkViolation(budgets, department, mode, ScopesOf(Person, Ids(entries)), entries).None?
  {
    hide Total, SumOf;
    var parent := Scope(Department, department);
    var rows := BulkRows(department, mode, warning, entries);
    var after := budgets + rows;
    ChildrenAfterBulk(budgets, department, mode, warning, entries);
    TotalOfRows(department, mode, warning, entries);
    RowsNameTheDepartment(department, mode, warning, entries);
    assert Scope(Person, entries[0].0) in rows;
    if AllCapped(after) {
      assert Capped(after, parent);
    }
  }

  /** A fixed allocation is accepted exactly when the hierarchy that results is consistent. */
  lemma FixedAcceptsExactlyConsistent(catalog: Catalog, atomicReady: bool, models: set<int>, budgets: Budgets, write: BulkWrite)
    requires catalog.Valid() && Consistent(catalog, budgets)
    requires write.allocation.Fixed? && write.allocation.limit >= 1 && MayAllocate(catalog, atomicReady, models, write)
    ensures var after := AfterFixed(catalog, budgets, write, write.allocation.limit);
            var bulked := Bulked(catalog, atomicReady, models, budgets, write);
            if Consistent(catalog, after) then bulked == Ok(after) else bulked.Err? && !bulked.error.Refused?
  {
    hide Find, Total, SumOf, Selected, Available, AllCapped, Catalogued, Rooted, TransactionViolation, Written, AsTransaction;
    var limit := write.allocation.limit;
    BulkChecksAgree(catalog, budgets, write, limit);
    BulkStaysCatalogued(catalog, budgets, write, limit);
    BulkStaysRooted(catalog, budgets, write, limit);
    if Scope(Department, write.department) in budgets {
      BulkStaysCapped(catalog, budgets, write, limit);
    }
  }

  lemma Floor(available: int, people: nat)
    requires people > 0
    ensures available / people * people <= available < available / people * people + people
  {
  }

  lemma Multiples(share: int, people: nat)
    requires people > 0
    ensures share >= 1 ==> share * people >= people
    ensures share <= 0 ==> share * people <= 0
    ensures (share + 1) * people == share * people + people
  {
  }

  /** Equal shares leave less than one unit for each person, and a share of one needs one unit each. */
  lemma ShareIsLargest(mode: Mode, available: int, people: nat)
    requires people > 0
    ensures var share := Share(mode, available, people);
            && (share >= 1 <==> available >= people)
            && (share >= 1 ==> 0 <= available - share * people < people && (share + 1) * people > available)
  {
    var quotient := available / people;
    Floor(available, people);
    Multiples(quotient, people);
    if available < 0 {
      Floor(-available, people);
      Multiples(-available / people, people);
    }
  }

  /**
    Equal distribution gives each person the largest amount that a fixed allocation would accept:
    it is refused exactly when one unit each is refused, and otherwise one unit more would be.
   */
  lemma EqualGivesLargestFixed(catalog: Catalog, atomicReady: bool, models: set<int>, budgets: Budgets, write: BulkWrite)
    requires write.allocation.EqualRemaining?
    ensures var equal := Decide(catalog, atomicReady, models, budgets, write);
            && (equal.Ok? <==> Decide(catalog, atomicReady, models, budgets, write.(allocation := Fixed(1))).Ok?)
            && (equal.Ok? ==>
                  && equal.value.limit.Some? && equal.value.limit.value >= 1
                  && equal == Decide(catalog, atomicReady, models, budgets, write.(allocation := Fixed(equal.value.limit.value)))
                  && Decide(catalog, atomicReady, models, budgets, write.(allocation := Fixed(equal.value.limit.value + 1)))
                     == Err(Conflict(ExceedsParent)))
  {
    hide Find, Selected, Allocated, SumOfLimits, OneMode, Share;
    var selected := Selected(catalog.people, write.department, write.selection.ids);
    if selected != [] && Scope(Department, write.department) in budgets {
      ShareIsLargest(write.mode, Available(catalog, budgets, write, selected), |selected|);
    }
  }

  /** After equal distribution the department has less than one unit left for each person. */
  lemma EqualLeavesLessThanOneEach(catalog: Catalog, atomicReady: bool, models: set<int>, budgets: Budgets, write: BulkWrite)
    requires catalog.Valid() && Consistent(catalog, budgets) && write.allocation.EqualRemaining?
    requires Bulked(catalog, atomicReady, models, budgets, write).Ok?
    ensures var after := Bulked(catalog, atomicReady, models, budgets, write).value;
            var department := Scope(Department, write.department);
            && department in after
            && 0 <= after[department].limit - Total(after, Children(after, department))
                 < |Selected(catalog.people, write.department, write.selection.ids)|
  {
    hide Find, Selected, Allocated, SumOfLimits, OneMode, Share, Total, SumOf, Children, AllCapped, Catalogued, Rooted;
    var selected := Selected(catalog.people, write.department, write.selection.ids);
    var plan := Decide(catalog, atomicReady, models, budgets, write).value;
    ShareIsLargest(write.mode, Available(catalog, budgets, write, selected), |selected|);
    EntriesOfPlan(catalog, write, plan);
    ChildrenAfterBulk(budgets, write.department, write.mode, write.warning, Entries(plan));
    RowsNameTheDepartment(write.department, write.mode, write.warning, Entries(plan));
    AllocatedAreChildren(catalog, budgets, Person, Scope(Department, write.department), IdSet(selected));
  }

  lemma BulkKeepsConsistent(catalog: Catalog, atomicReady: bool, models: set<int>, budgets: Budgets, write: BulkWrite)
    requires catalog.Valid() && Consistent(catalog, budgets)
    requires write.allocation.Fixed? ==> write.allocation.limit >= 1
    requires Bulked(catalog, atomicReady, models, budgets, write).Ok?
    ensures Consistent(catalog, Bulked(catalog, atomicReady, models, budgets, write).value)
  {
    hide Find, Selected, Available, AllCapped, Catalogued, Rooted, TransactionViolation, Written, LimitProblem;
    var plan := Decide(catalog, atomicReady, models, budgets, write).value;
    if plan.limit.None? {
      NothingPlanned(budgets, write, plan);
    } else {
      var fixed := write.(allocation := Fixed(plan.limit.value));
      if write.allocation.EqualRemaining? {
        EqualGivesLargestFixed(catalog, atomicReady, models, budgets, write);
      }
      FixedAcceptsExactlyConsistent(catalog, atomicReady, models, budgets, fixed);
    }
  }

  lemma NothingPlanned(budgets: Budgets, write: BulkWrite, plan: Plan)
    requires plan.limit.None?
    ensures Written(budgets, AsTransaction(write, plan)) == budgets
  {
  }
}
