/**
  The budget table of one period and the transactions on it.
  A limit counts whole tokens or whole cents, in the unit of the row's mode.
 */
module BudgetTable {
  import opened Wrappers

  datatype Level = Organization | Department | Person
  datatype Scope = Scope(level: Level, id: string)
  datatype Mode = Tokens | Usd
  datatype Row = Row(parent: Option<string>, mode: Mode, limit: int, warning: nat)
  type Budgets = map<Scope, Row>

  datatype Violation =
    | ParentMode | SiblingMode | ExceedsParent
    | ChildMode | BelowChildren
    | ParentMissing | HasChildren

  function ParentLevel(level: Level): Option<Level> {
    match level
    case Organization => None
    case Department => Some(Organization)
    case Person => Some(Department)
  }

  function ParentScope(level: Level, parent: Option<string>): Option<Scope> {
    if ParentLevel(level).Some? && parent.Some? then Some(Scope(ParentLevel(level).value, parent.value)) else None
  }

  function Children(budgets: Budgets, parent: Scope): (children: set<Scope>)
    ensures children <= budgets.Keys
  {
    set child | child in budgets && ParentScope(child.level, budgets[child].parent) == Some(parent) :: child
  }

  // ----- Sums of limits -----

  ghost function Total(budgets: Budgets, scopes: set<Scope>): int
    requires scopes <= budgets.Keys
  {
    if scopes == {} then 0
    else
      var scope :| scope in scopes;
      budgets[scope].limit + Total(budgets, scopes - {scope})
  }

  /** The choice in the sum does not matter. */
  lemma {:induction false} TotalWithout(budgets: Budgets, scopes: set<Scope>, scope: Scope)
    requires scopes <= budgets.Keys && scope in scopes
    ensures Total(budgets, scopes) == budgets[scope].limit + Total(budgets, scopes - {scope})
    decreases scopes
  {
    var first :| first in scopes && Total(budgets, scopes) == budgets[first].limit + Total(budgets, scopes - {first});
    if first != scope {
      TotalWithout(budgets, scopes - {first}, scope);
      TotalWithout(budgets, scopes - {scope}, first);
      assert scopes - {first} - {scope} == scopes - {scope} - {first};
    }
  }

  lemma {:induction false} TotalOfAgreeing(before: Budgets, after: Budgets, scopes: set<Scope>)
    requires scopes <= before.Keys && scopes <= after.Keys
    requires forall scope | scope in scopes :: before[scope].limit == after[scope].limit
    ensures Total(before, scopes) == Total(after, scopes)
    decreases scopes
  {
    if scopes != {} {
      var scope :| scope in scopes;
      TotalWithout(before, scopes, scope);
      TotalWithout(after, scopes, scope);
      TotalOfAgreeing(before, after, scopes - {scope});
    }
  }

  lemma {:induction false} TotalOfPart(budgets: Budgets, part: set<Scope>, whole: set<Scope>)
    requires part <= whole <= budgets.Keys && PositiveLimits(budgets)
    ensures 0 <= Total(budgets, part) <= Total(budgets, whole)
    decreases whole
  {
    if whole != {} {
      var scope :| scope in whole;
      TotalWithout(budgets, whole, scope);
      TotalOfPart(budgets, part - {scope}, whole - {scope});
      if scope in part {
        TotalWithout(budgets, part, scope);
      } else {
        assert part - {scope} == part;
      }
    }
  }

  lemma {:induction false} TotalOfUnion(budgets: Budgets, left: set<Scope>, right: set<Scope>)
    requires left + right <= budgets.Keys && left !! right
    ensures Total(budgets, left + right) == Total(budgets, left) + Total(budgets, right)
    decreases left
  {
    if left == {} {
      assert left + right == right;
    } else {
      var scope :| scope in left;
      TotalWithout(budgets, left, scope);
      TotalWithout(budgets, left + right, scope);
      assert left + right - {scope} == (left - {scope}) + right;
      TotalOfUnion(budgets, left - {scope}, right);
    }
  }

  method Sum(budgets: Budgets, scopes: set<Scope>) returns (total: int)
    requires scopes <= budgets.Keys
    ensures total == Total(budgets, scopes)
  {
    total := 0;
    var todo := scopes;
    while todo != {}
      invariant todo <= scopes && total + Total(budgets, todo) == Total(budgets, scopes)
      decreases todo
    {
      var scope :| scope in todo;
      TotalWithout(budgets, todo, scope);
      total := total + budgets[scope].limit;
      todo := todo - {scope};
    }
  }

  // ----- What every transaction keeps -----

  predicate PositiveLimits(budgets: Budgets) {
    forall scope | scope in budgets :: budgets[scope].limit >= 1
  }

  predicate SameMode(budgets: Budgets, scopes: set<Scope>, mode: Mode)
    requires scopes <= budgets.Keys
  {
    forall scope | scope in scopes :: budgets[scope].mode == mode
  }

  /** One allocated scope caps its allocated children, in one unit. */
  ghost predicate Capped(budgets: Budgets, parent: Scope)
    requires parent in budgets
  {
    && SameMode(budgets, Children(budgets, parent), budgets[parent].mode)
    && Total(budgets, Children(budgets, parent)) <= budgets[parent].limit
  }

  ghost predicate AllCapped(budgets: Budgets) {
    && PositiveLimits(budgets)
    && forall parent | parent in budgets :: Capped(budgets, parent)
  }

  /** Every allocated scope below an organization has an allocated parent. */
  predicate Rooted(budgets: Budgets) {
    forall scope | scope in budgets && ParentLevel(scope.level).Some? ::
      && ParentScope(scope.level, budgets[scope].parent).Some?
      && ParentScope(scope.level, budgets[scope].parent).value in budgets
  }

  // ----- Transactions -----

  ghost function UpsertViolation(budgets: Budgets, scope: Scope, row: Row): Option<Violation> {
    var parent := ParentScope(scope.level, row.parent);
    var children := Children(budgets, scope);
    if parent.Some? && parent.value in budgets && budgets[parent.value].mode != row.mode then Some(ParentMode)
    else if parent.Some? && !SameMode(budgets, Children(budgets, parent.value) - {scope}, row.mode) then Some(SiblingMode)
    else if parent.Some? && parent.value in budgets
            && Total(budgets, Children(budgets, parent.value) - {scope}) + row.limit > budgets[parent.value].limit
      then Some(ExceedsParent)
    else if !SameMode(budgets, children, row.mode) then Some(ChildMode)
    else if Total(budgets, children) > row.limit then Some(BelowChildren)
    else None
  }

  /** The rows that a bulk write gives to the people of a department; a later entry wins. */
  function BulkRows(department: string, mode: Mode, warning: nat, entries: seq<(string, int)>): Budgets {
    if entries == [] then map[]
    else
      var last := entries[|entries| - 1];
      BulkRows(department, mode, warning, entries[..|entries| - 1])
        [Scope(Person, last.0) := Row(Some(department), mode, last.1, warning)]
  }

  function Ids(entries: seq<(string, int)>): set<string> {
    set entry | entry in entries :: entry.0
  }

  function SumOf(entries: seq<(string, int)>): int {
    if entries == [] then 0 else SumOf(entries[..|entries| - 1]) + entries[|entries| - 1].1
  }

  ghost function BulkViolation(budgets: Budgets, department: string, mode: Mode, people: set<Scope>,
                               entries: seq<(string, int)>): Option<Violation>
  {
    var parent := Scope(Department, department);
    var unselected := Children(budgets, parent) - people;
    if parent !in budgets then Some(ParentMissing)
    else if budgets[parent].mode != mode then Some(ParentMode)
    else if !SameMode(budgets, unselected, mode) then Some(ChildMode)
    else if Total(budgets, unselected) + SumOf(entries) > budgets[parent].limit then Some(ExceedsParent)
    else None
  }

  datatype Transaction =
    | Upsert(scope: Scope, row: Row)
    | BulkUpsert(department: string, mode: Mode, warning: nat, people: set<string>, entries: seq<(string, int)>)
    | Delete(scope: Scope)
  {
    /** What the callers of the table promise: positive limits, and an entry for exactly the selected people. */
    predicate Valid() {
      match this
      case Upsert(_, row) => row.limit >= 1
      case BulkUpsert(_, _, _, people, entries) =>
        && (forall entry | entry in entries :: entry.1 >= 1)
        && (entries != [] ==> people == Ids(entries))
      case Delete(_) => true
    }
  }

  function ScopesOf(level: Level, ids: set<string>): set<Scope> {
    set id | id in ids :: Scope(level, id)
  }

  ghost function TransactionViolation(budgets: Budgets, transaction: Transaction): Option<Violation> {
    match transaction
    case Upsert(scope, row) => UpsertViolation(budgets, scope, row)
    case BulkUpsert(department, mode, _, people, entries) =>
      if entries == [] then None
      else BulkViolation(budgets, department, mode, ScopesOf(Person, people), entries)
    case Delete(scope) => if Children(budgets, scope) != {} then Some(HasChildren) else None
  }

  function Written(budgets: Budgets, transaction: Transaction): Budgets {
    match transaction
    case Upsert(scope, row) => budgets[scope := row]
    case BulkUpsert(department, mode, warning, _, entries) => budgets + BulkRows(department, mode, warning, entries)
    case Delete(scope) => budgets - {scope}
  }

  /** A transaction either commits or changes nothing. */
  ghost function After(budgets: Budgets, transaction: Transaction): Budgets {
    if TransactionViolation(budgets, transaction).None? then Written(budgets, transaction) else budgets
  }

  ghost function AfterAll(budgets: Budgets, transactions: seq<Transaction>): Budgets {
    if transactions == [] then budgets
    else After(AfterAll(budgets, transactions[..|transactions| - 1]), transactions[|transactions| - 1])
  }

  // ----- The caps hold in every interleaving -----

  /** A change that gives a scope no new children and leaves its own row alone keeps its cap. */
  lemma FewerChildrenStayCapped(before: Budgets, after: Budgets, parent: Scope)
    requires PositiveLimits(before)
    requires parent in before && parent in after && before[parent] == after[parent] && Capped(before, parent)
    requires Children(after, parent) <= Children(before, parent)
    requires forall child | child in Children(after, parent) :: after[child] == before[child]
    ensures Capped(after, parent)
  {
    hide Children;
    TotalOfAgreeing(before, after, Children(after, parent));
    TotalOfPart(before, Children(after, parent), Children(before, parent));
  }

  lemma UpsertKeepsCap(budgets: Budgets, scope: Scope, row: Row, parent: Scope)
    requires AllCapped(budgets) && row.limit >= 1 && UpsertViolation(budgets, scope, row).None?
    requires parent in budgets[scope := row]
    ensures Capped(budgets[scope := row], parent)
  {
    hide Total;
    var after := budgets[scope := row];
    var children := Children(after, parent);
    if parent == scope {
      assert children == Children(budgets, scope);
      TotalOfAgreeing(budgets, after, children);
    } else if ParentScope(scope.level, row.parent) == Some(parent) {
      assert children - {scope} == Children(budgets, parent) - {scope};
      TotalWithout(after, children, scope);
      TotalOfAgreeing(budgets, after, children - {scope});
    } else {
      FewerChildrenStayCapped(budgets, after, parent);
    }
  }

  lemma UpsertKeepsCaps(budgets: Budgets, scope: Scope, row: Row)
    requires AllCapped(budgets) && row.limit >= 1 && UpsertViolation(budgets, scope, row).None?
    ensures AllCapped(budgets[scope := row])
  {
    hide Capped, UpsertViolation;
    var after := budgets[scope := row];
    forall parent | parent in after
      ensures Capped(after, parent)
    {
      UpsertKeepsCap(budgets, scope, row, parent);
    }
  }

  lemma {:induction false} BulkRowsAre(department: string, mode: Mode, warning: nat, entries: seq<(string, int)>)
    requires forall entry | entry in entries :: entry.1 >= 1
    ensures var rows := BulkRows(department, mode, warning, entries);
            && rows.Keys == ScopesOf(Person, Ids(entries))
            && PositiveLimits(rows)
            && (forall scope | scope in rows :: rows[scope] == Row(Some(department), mode, rows[scope].limit, warning))
            && Total(rows, rows.Keys) <= SumOf(entries)
  {
    if entries != [] {
      var last := entries[|entries| - 1];
      var scope := Scope(Person, last.0);
      var before := BulkRows(department, mode, warning, entries[..|entries| - 1]);
      var rows := BulkRows(department, mode, warning, entries);
      BulkRowsAre(department, mode, warning, entries[..|entries| - 1]);
      assert entries == entries[..|entries| - 1] + [last];
      TotalWithout(rows, rows.Keys, scope);
      TotalOfAgreeing(before, rows, rows.Keys - {scope});
      TotalOfPart(before, rows.Keys - {scope}, before.Keys);
    }
  }

  lemma BulkKeepsDepartmentCap(budgets: Budgets, department: string, mode: Mode, warning: nat, entries: seq<(string, int)>)
    requires AllCapped(budgets) && forall entry | entry in entries :: entry.1 >= 1
    requires BulkViolation(budgets, department, mode, ScopesOf(Person, Ids(entries)), entries).None?
    ensures Scope(Department, department) in budgets + BulkRows(department, mode, warning, entries)
    ensures Capped(budgets + BulkRows(department, mode, warning, entries), Scope(Department, department))
  {
    hide Total, BulkRows, SumOf, ScopesOf, Ids;
    var parent := Scope(Department, department);
    var rows := BulkRows(department, mode, warning, entries);
    var after := budgets + rows;
    BulkRowsAre(department, mode, warning, entries);
    AllPersons(Ids(entries));
    var kept := Children(budgets, parent) - rows.Keys;
    assert Children(after, parent) == kept + rows.Keys;
    TotalOfUnion(after, kept, rows.Keys);
    TotalOfAgreeing(rows, after, rows.Keys);
    TotalOfAgreeing(budgets, after, kept);
  }

  lemma AllPersons(people: set<string>)
    ensures forall scope | scope in ScopesOf(Person, people) :: scope.level == Person
  {
  }

  lemma BulkKeepsCaps(budgets: Budgets, department: string, mode: Mode, warning: nat, entries: seq<(string, int)>)
    requires AllCapped(budgets) && forall entry | entry in entries :: entry.1 >= 1
    requires BulkViolation(budgets, department, mode, ScopesOf(Person, Ids(entries)), entries).None?
    ensures AllCapped(budgets + BulkRows(department, mode, warning, entries))
  {
    hide Total, BulkRows, SumOf, BulkViolation, ScopesOf, Ids;
    var rows := BulkRows(department, mode, warning, entries);
    var after := budgets + rows;
    BulkRowsAre(department, mode, warning, entries);
    AllPersons(Ids(entries));
    BulkKeepsDepartmentCap(budgets, department, mode, warning, entries);
    forall parent | parent in after
      ensures Capped(after, parent)
    {
      if parent in rows {
        NoChildrenOfPerson(after, parent);
      } else if parent != Scope(Department, department) {
        FewerChildrenStayCapped(budgets, after, parent);
      }
    }
  }

  lemma NoChildrenOfPerson(budgets: Budgets, person: Scope)
    requires person in budgets && person.level == Person && budgets[person].limit >= 0
    ensures Children(budgets, person) == {} && Capped(budgets, person)
  {
  }

  /** The transactions alone keep every cap, whatever the callers read before and in whatever order they run. */
  lemma TransactionKeepsCaps(budgets: Budgets, transaction: Transaction)
    requires AllCapped(budgets) && transaction.Valid()
    ensures AllCapped(After(budgets, transaction))
  {
    hide UpsertViolation, BulkViolation, Total, BulkRows, Capped;
    if TransactionViolation(budgets, transaction).None? {
      match transaction
      case Upsert(scope, row) => UpsertKeepsCaps(budgets, scope, row);
      case BulkUpsert(department, mode, warning, people, entries) =>
        if entries == [] {
          NothingWritten(budgets, department, mode, warning);
        } else {
          BulkKeepsCaps(budgets, department, mode, warning, entries);
        }
      case Delete(scope) =>
        forall parent | parent in budgets - {scope}
          ensures Capped(budgets - {scope}, parent)
        {
          FewerChildrenStayCapped(budgets, budgets - {scope}, parent);
        }
    }
  }

  lemma NothingWritten(budgets: Budgets, department: string, mode: Mode, warning: nat)
    ensures budgets + BulkRows(department, mode, warning, []) == budgets
  {
  }

  lemma {:induction false} EveryInterleavingKeepsCaps(budgets: Budgets, transactions: seq<Transaction>)
    requires AllCapped(budgets) && forall transaction | transaction in transactions :: transaction.Valid()
    ensures AllCapped(AfterAll(budgets, transactions))
  {
    hide AllCapped, After;
    if transactions != [] {
      EveryInterleavingKeepsCaps(budgets, transactions[..|transactions| - 1]);
      TransactionKeepsCaps(AfterAll(budgets, transactions[..|transactions| - 1]), transactions[|transactions| - 1]);
    }
  }

  // ----- Nothing is refused without need -----

  predicate SiblingsShareMode(budgets: Budgets, scope: Scope, row: Row) {
    var parent := ParentScope(scope.level, row.parent);
    parent.Some? ==> SameMode(budgets, Children(budgets, parent.value) - {scope}, row.mode)
  }

  /** An upsert is refused exactly when it would break a cap or mix units among siblings. */
  lemma UpsertIsExact(budgets: Budgets, scope: Scope, row: Row)
    requires AllCapped(budgets) && row.limit >= 1
    ensures UpsertViolation(budgets, scope, row).None?
            <==> AllCapped(budgets[scope := row]) && SiblingsShareMode(budgets, scope, row)
  {
    hide Total;
    var after := budgets[scope := row];
    if UpsertViolation(budgets, scope, row).None? {
      UpsertKeepsCaps(budgets, scope, row);
    } else if AllCapped(after) && SiblingsShareMode(budgets, scope, row) {
      CappedAllowsOwnRow(budgets, scope, row);
      CappedAllowsUnderParent(budgets, scope, row);
      assert false;
    }
  }

  lemma CappedAllowsOwnRow(budgets: Budgets, scope: Scope, row: Row)
    requires AllCapped(budgets[scope := row])
    ensures SameMode(budgets, Children(budgets, scope), row.mode) && Total(budgets, Children(budgets, scope)) <= row.limit
  {
    hide Total;
    var after := budgets[scope := row];
    assert Capped(after, scope) && Children(after, scope) == Children(budgets, scope);
    TotalOfAgreeing(budgets, after, Children(budgets, scope));
  }

  lemma CappedAllowsUnderParent(budgets: Budgets, scope: Scope, row: Row)
    requires AllCapped(budgets[scope := row])
    ensures var parent := ParentScope(scope.level, row.parent);
            parent.Some? && parent.value in budgets ==>
              && budgets[parent.value].mode == row.mode
              && Total(budgets, Children(budgets, parent.value) - {scope}) + row.limit <= budgets[parent.value].limit
  {
    hide Total;
    var after := budgets[scope := row];
    var parent := ParentScope(scope.level, row.parent);
    if parent.Some? && parent.value in budgets {
      var children := Children(after, parent.value);
      assert Capped(after, parent.value) && scope in children;
      assert children - {scope} == Children(budgets, parent.value) - {scope};
      TotalWithout(after, children, scope);
      TotalOfAgreeing(budgets, after, children - {scope});
    }
  }
}
