/** What the rows and the risk list of an overview say, in terms of the budgets, the usage and the catalog alone. */
module BudgetRows {
  import opened Wrappers
  import opened Orders
  import opened Rounding
  import opened TextOrder
  import opened BudgetTable
  import opened BudgetHierarchy
  import opened BudgetOverview

  // ----- One row -----

  predicate InTenths(shown: real, exact: real, tenths: int) {
    shown == tenths as real / 10.0 && Nearest(tenths, exact * 10.0)
  }

  /** `shown` is `exact` to one decimal, a half going to the even digit. */
  ghost predicate OneDecimal(shown: real, exact: real) {
    exists tenths :: InTenths(shown, exact, tenths)
  }

  lemma PercentIsOneDecimal(part: real, limit: real)
    requires limit > 0.0
    ensures OneDecimal(Percent(part, limit), part * 100.0 / limit)
  {
    var x := part / limit * 100.0 * 10.0;
    HalfEvenIsNearest(x, RoundHalfEven(x));
    Rescaled(part, limit);
    assert InTenths(Percent(part, limit), part * 100.0 / limit, RoundHalfEven(x));
  }

  lemma Rescaled(part: real, limit: real)
    requires limit > 0.0
    ensures part / limit * 100.0 * 10.0 == part * 100.0 / limit * 10.0
  {
    var q := part / limit;
    assert q * limit == part;
    Divided(q * 100.0, limit, part * 100.0);
  }

  lemma Divided(quotient: real, divisor: real, product: real)
    requires divisor > 0.0 && quotient * divisor == product
    ensures product / divisor == quotient
  {
  }

  /** Amounts in dollars against a limit in cents. */
  lemma Cents(part: real, cents: int)
    requires cents > 0
    ensures part * 100.0 / (cents as real / 100.0) == part * 10000.0 / cents as real
    ensures part >= cents as real / 100.0 <==> part * 100.0 >= cents as real
  {
    var limit := cents as real / 100.0;
    assert limit * 100.0 == cents as real;
    var q := part * 100.0 / limit;
    assert q * limit == part * 100.0;
    assert q * (limit * 100.0) == (q * limit) * 100.0;
    Divided(q, cents as real, part * 10000.0);
  }

  /** What a budget in dollars says of its use: the limit is in cents. */
  lemma UsdRow(input: Input, inherited: Mode, scope: Scope, entity: Entity)
    requires input.Valid() && scope in input.budgets && input.budgets[scope].mode == Usd
    ensures var item := Evaluate(input.budgets, input.usages, input.clock, inherited, scope, entity);
            var row, used := input.budgets[scope], UsageOf(input.usages, scope).usd;
            && row.limit > 0 && item.usagePercent.Some? && item.forecastPercent.Some?
            && OneDecimal(item.usagePercent.value, used * 10000.0 / row.limit as real)
            && OneDecimal(item.forecastPercent.value, item.forecastUsd * 10000.0 / row.limit as real)
            && (item.status == Exceeded <==> used * 100.0 >= row.limit as real)
            && (item.status == Warning <==>
                  && used * 100.0 < row.limit as real
                  && (item.usagePercent.value >= row.warning as real || item.forecastPercent.value >= row.warning as real))
            && item.status != Unallocated
  {
    hide Percent, OneDecimal, ForecastUsd;
    var row, used := input.budgets[scope], UsageOf(input.usages, scope).usd;
    assert PositiveLimits(input.budgets);
    Cents(used, row.limit);
    Cents(ForecastUsd(used, input.clock), row.limit);
    PercentIsOneDecimal(used, row.limit as real / 100.0);
    PercentIsOneDecimal(ForecastUsd(used, input.clock), row.limit as real / 100.0);
  }

  lemma TokenRow(input: Input, inherited: Mode, scope: Scope, entity: Entity)
    requires input.Valid() && scope in input.budgets && input.budgets[scope].mode == Tokens
    ensures var item := Evaluate(input.budgets, input.usages, input.clock, inherited, scope, entity);
            var row, used := input.budgets[scope], UsageOf(input.usages, scope).tokens;
            && row.limit > 0 && item.usagePercent.Some? && item.forecastPercent.Some?
            && OneDecimal(item.usagePercent.value, used as real * 100.0 / row.limit as real)
            && OneDecimal(item.forecastPercent.value, item.forecastTokens as real * 100.0 / row.limit as real)
            && (item.status == Exceeded <==> used >= row.limit)
            && (item.status == Warning <==>
                  && used < row.limit
                  && (item.usagePercent.value >= row.warning as real || item.forecastPercent.value >= row.warning as real))
            && item.status != Unallocated
  {
    hide Percent, OneDecimal, ForecastTokens;
    var row, used := input.budgets[scope], UsageOf(input.usages, scope).tokens;
    assert PositiveLimits(input.budgets);
    PercentIsOneDecimal(used as real, row.limit as real);
    PercentIsOneDecimal(ForecastTokens(used, input.clock) as real, row.limit as real);
  }

  /** What a row says besides: a scope without a budget has the inherited unit, no limit and no percentages. */
  lemma PlainRow(input: Input, inherited: Mode, scope: Scope, entity: Entity)
    requires input.Valid()
    ensures var item := Evaluate(input.budgets, input.usages, input.clock, inherited, scope, entity);
            && item.scope == scope && item.name == entity.name && item.parent == entity.parent
            && (scope in input.usages ==> item.usage == input.usages[scope])
            && (scope !in input.usages ==> item.usage == Usage(0, 0.0, 0))
            && item.forecastTokens == ForecastTokens(item.usage.tokens, input.clock)
            && item.forecastUsd == ForecastUsd(item.usage.usd, input.clock)
            && (scope in input.budgets ==>
                  && item.mode == input.budgets[scope].mode && item.limit == Some(input.budgets[scope].limit)
                  && item.warning == input.budgets[scope].warning)
            && (scope !in input.budgets ==>
                  && item.mode == inherited && item.limit == None && item.warning == 80
                  && item.usagePercent == None && item.forecastPercent == None && item.status == Unallocated)
  {
    hide Percent, ForecastTokens, ForecastUsd;
  }

  // ----- Forecasts -----

  /** Use so far, spread over the days that have begun, and carried over all days of the period. */
  lemma TokenForecast(used: nat, clock: Clock)
    requires clock.Valid()
    ensures clock.Ended? ==> ForecastTokens(used, clock) == used
    ensures clock.NotStarted? ==> ForecastTokens(used, clock) == 0
    ensures clock.Running? ==> Nearest(ForecastTokens(used, clock), (used * clock.days) as real / clock.elapsed as real)
  {
    if clock.Running? {
      HalfEvenIsNearest((used * clock.days) as real / clock.elapsed as real, ForecastTokens(used, clock));
    }
  }

  /** The nearest whole number of steps of a hundred-trillionth of a dollar, a half going up. */
  predicate InSteps(shown: real, exact: real, steps: int) {
    shown == steps as real / 100000000000000.0 && exact * 100000000000000.0 - 0.5 < steps as real <= exact * 100000000000000.0 + 0.5
  }

  ghost predicate ToTheStep(shown: real, exact: real) {
    exists steps :: InSteps(shown, exact, steps)
  }

  lemma RoundedIsInSteps(amount: real)
    ensures ToTheStep(RoundedUsd(amount), amount)
  {
    assert InSteps(RoundedUsd(amount), amount, RoundHalfUp(amount * 100000000000000.0)) by {
      RoundedBounds(amount);
    }
  }

  lemma RoundedBounds(amount: real)
    ensures InSteps(RoundedUsd(amount), amount, RoundHalfUp(amount * 100000000000000.0))
  {
    HalfUpIsNearest(amount * 100000000000000.0, RoundHalfUp(amount * 100000000000000.0));
  }

  lemma UsdForecast(used: real, clock: Clock) returns (exact: real)
    requires clock.Valid()
    ensures clock.Ended? ==> ForecastUsd(used, clock) == used
    ensures clock.NotStarted? ==> ForecastUsd(used, clock) == 0.0
    ensures clock.Running? ==>
              exact * clock.elapsed as real == used * clock.days as real && ToTheStep(ForecastUsd(used, clock), exact)
  {
    hide ToTheStep, RoundedUsd, Spread;
    exact := used;
    if clock.Running? {
      exact := Spread(used, clock.elapsed, clock.days);
      RoundedIsInSteps(exact);
      SpreadIs(used, clock.elapsed, clock.days);
    }
  }

  lemma SpreadIs(used: real, elapsed: nat, days: nat)
    requires elapsed > 0
    ensures Spread(used, elapsed, days) * elapsed as real == used * days as real
  {
  }

  /** While the period runs, and after it, the forecast is below use by less than a step. */
  lemma UsdForecastIsAtLeastUse(used: real, clock: Clock)
    requires clock.Valid() && !clock.NotStarted? && used >= 0.0
    ensures ForecastUsd(used, clock) > used - 1.0 / 100000000000000.0
  {
    hide ForecastUsd, ToTheStep;
    var exact := UsdForecast(used, clock);
    if clock.Running? {
      StepsAreClose(ForecastUsd(used, clock), exact);
      PaceGrows(used, exact, clock.elapsed, clock.days);
    }
  }

  lemma PaceGrows(used: real, exact: real, elapsed: nat, days: nat)
    requires 1 <= elapsed <= days && used >= 0.0 && exact * elapsed as real == used * days as real
    ensures exact >= used
  {
    assert used * (days as real - elapsed as real) >= 0.0;
    assert (exact - used) * elapsed as real >= 0.0;
  }

  lemma StepsAreClose(shown: real, exact: real)
    requires ToTheStep(shown, exact)
    ensures shown > exact - 1.0 / 100000000000000.0
  {
    var steps :| InSteps(shown, exact, steps);
  }

  // ----- All rows -----

  function InheritedByDepartment(input: Input, department: Entity): Mode {
    match department.parent
    case Some(id) =>
      if Find(input.catalog.organizations, id).Some? && Scope(Organization, id) in input.budgets
      then input.budgets[Scope(Organization, id)].mode else Tokens
    case None => Tokens
  }

  function InheritedByPerson(input: Input, person: Entity): Mode {
    match person.parent
    case Some(id) =>
      (match Find(input.catalog.departments, id)
       case Some(department) =>
         if Scope(Department, id) in input.budgets then input.budgets[Scope(Department, id)].mode
         else InheritedByDepartment(input, department)
       case None => Tokens)
    case None => Tokens
  }

  /** The unit of a scope without a budget: that of the nearest catalogued scope above it with a budget, or tokens. */
  function Inherited(input: Input, level: Level, entity: Entity): Mode {
    match level
    case Organization => Tokens
    case Department => InheritedByDepartment(input, entity)
    case Person => InheritedByPerson(input, entity)
  }

  function RowOf(input: Input, level: Level, entity: Entity): Item
    requires input.Valid()
  {
    Evaluate(input.budgets, input.usages, input.clock, Inherited(input, level, entity), Scope(level, entity.id), entity)
  }

  /** One row for each entity of a level, in catalog order. */
  function RowsOf(input: Input, level: Level, entities: seq<Entity>): (rows: seq<Item>)
    requires input.Valid()
    ensures |rows| == |entities|
  {
    seq(|entities|, i requires 0 <= i < |entities| => RowOf(input, level, entities[i]))
  }

  function AllRows(input: Input): seq<Item>
    requires input.Valid()
  {
    RowsOf(input, Organization, input.catalog.organizations) + RowsOf(input, Department, input.catalog.departments)
    + RowsOf(input, Person, input.catalog.people)
  }

  /** The rows that warn or are exceeded, as the risk list shows them. */
  function RisksOf(rows: seq<Item>): seq<Risk> {
    if rows == [] then []
    else
      var row := rows[|rows| - 1];
      RisksOf(rows[..|rows| - 1])
      + if row.status in {Warning, Exceeded}
        then [Risk(row.scope, row.name, row.status, row.usagePercent.GetOr(0.0), row.forecastPercent.GetOr(0.0))] else []
  }

  /** What is seen so far: the unit of every catalogued scope of the levels above. */
  ghost predicate SeesAbove(input: Input, level: Level, modes: map<Scope, Mode>) {
    forall entity: Entity :: Sees(input, level, modes, entity)
  }

  predicate Sees(input: Input, level: Level, modes: map<Scope, Mode>, entity: Entity) {
    InheritedMode(modes, level, entity) == Inherited(input, level, entity)
  }

  lemma VisitRow(input: Input, includeUsers: bool, level: Level, entity: Entity, found: Found)
    requires input.Valid() && Sees(input, level, found.modes, entity)
    ensures var row := RowOf(input, level, entity);
            && row.scope == Scope(level, entity.id)
            && Visit(input, includeUsers, level, entity, found)
               == Found(found.modes[row.scope := row.mode],
                        found.items + (if includeUsers || level != Person then [row] else []),
                        found.risks + RisksOf([row]))
  {
    hide Inherited, InheritedMode, Percent, ForecastTokens, ForecastUsd, OneDecimal;
    var row := RowOf(input, level, entity);
    PlainRow(input, Inherited(input, level, entity), Scope(level, entity.id), entity);
    hide Evaluate;
    assert [row][..0] == [];
    assert RisksOf([]) == [];
    if !AtRisk(row) {
      assert RisksOf([row]) == [];
    }
  }

  lemma SeesOn(input: Input, level: Level, modes: map<Scope, Mode>, id: string, mode: Mode)
    requires SeesAbove(input, level, modes)
    ensures SeesAbove(input, level, modes[Scope(level, id) := mode])
  {
    hide Inherited;
    var after := modes[Scope(level, id) := mode];
    forall entity: Entity
      ensures Sees(input, level, after, entity)
    {
      assert Sees(input, level, modes, entity);
    }
  }

  lemma {:induction false} VisitedRows(input: Input, includeUsers: bool, level: Level, entities: seq<Entity>, found: Found)
    requires input.Valid() && SeesAbove(input, level, found.modes)
    ensures var all := VisitAll(input, includeUsers, level, entities, found);
            && all.items == found.items + (if includeUsers || level != Person then RowsOf(input, level, entities) else [])
            && all.risks == found.risks + RisksOf(RowsOf(input, level, entities))
            && SeesAbove(input, level, all.modes)
  {
    hide Visit, RowOf, Sees, SeesAbove, RisksOf;
    if entities == [] {
      assert RowsOf(input, level, entities) == [];
      NoRisks();
    } else {
      var rest, last := entities[..|entities| - 1], entities[|entities| - 1];
      VisitedRows(input, includeUsers, level, rest, found);
      var before := VisitAll(input, includeUsers, level, rest, found);
      assert Sees(input, level, before.modes, last) by {
        AllSeen(input, level, before.modes, last);
      }
      VisitRow(input, includeUsers, level, last, before);
      SeesOn(input, level, before.modes, last.id, RowOf(input, level, last).mode);
      var rows := RowsOf(input, level, rest);
      assert RowsOf(input, level, entities) == rows + [RowOf(input, level, last)];
      RisksConcat(rows, [RowOf(input, level, last)]);
    }
  }

  lemma AllSeen(input: Input, level: Level, modes: map<Scope, Mode>, entity: Entity)
    requires SeesAbove(input, level, modes)
    ensures Sees(input, level, modes, entity)
  {
  }

  /** What a visited level adds to the units: exactly those of its entities. */
  ghost predicate Adds(input: Input, level: Level, entities: seq<Entity>, before: map<Scope, Mode>, after: map<Scope, Mode>)
    requires input.Valid()
  {
    && (forall id :: Scope(level, id) in after <==> HasId(entities, id))
    && (forall i | 0 <= i < |entities| ::
          Scope(level, entities[i].id) in after && after[Scope(level, entities[i].id)] == RowOf(input, level, entities[i]).mode)
    && (forall scope: Scope | scope.level != level ::
          (scope in after <==> scope in before) && (scope in after ==> after[scope] == before[scope]))
  }

  predicate HasId(entities: seq<Entity>, id: string) {
    exists i :: 0 <= i < |entities| && entities[i].id == id
  }

  lemma {:induction false} VisitedModes(input: Input, includeUsers: bool, level: Level, entities: seq<Entity>, found: Found)
    requires input.Valid() && SeesAbove(input, level, found.modes) && DistinctIds(entities)
    requires forall id :: Scope(level, id) !in found.modes
    ensures Adds(input, level, entities, found.modes, VisitAll(input, includeUsers, level, entities, found).modes)
  {
    hide Visit, RowOf, Sees, SeesAbove, Adds;
    if entities == [] {
      NothingAdded(input, level, found.modes);
    } else {
      var rest, last := entities[..|entities| - 1], entities[|entities| - 1];
      VisitedModes(input, includeUsers, level, rest, found);
      VisitedRows(input, includeUsers, level, rest, found);
      var before := VisitAll(input, includeUsers, level, rest, found);
      AllSeen(input, level, before.modes, last);
      VisitRow(input, includeUsers, level, last, before);
      assert entities == rest + [last];
      OneAdded(input, level, rest, last, found.modes, before.modes);
    }
  }

  lemma NothingAdded(input: Input, level: Level, modes: map<Scope, Mode>)
    requires input.Valid() && forall id :: Scope(level, id) !in modes
    ensures Adds(input, level, [], modes, modes)
  {
  }

  lemma OneAdded(input: Input, level: Level, rest: seq<Entity>, last: Entity, before: map<Scope, Mode>, after: map<Scope, Mode>)
    requires input.Valid() && DistinctIds(rest + [last]) && Adds(input, level, rest, before, after)
    ensures Adds(input, level, rest + [last], before, after[Scope(level, last.id) := RowOf(input, level, last).mode])
  {
    hide RowOf;
    var entities := rest + [last];
    assert forall i | 0 <= i < |rest| :: entities[i] == rest[i] && entities[i].id != entities[|rest|].id;
    forall id
      ensures HasId(entities, id) <==> HasId(rest, id) || id == last.id
    {
      if HasId(rest, id) {
        var i :| 0 <= i < |rest| && rest[i].id == id;
        assert entities[i].id == id;
      }
      assert entities[|rest|].id == last.id;
    }
  }

  lemma NothingAboveOrganizations(input: Input, modes: map<Scope, Mode>)
    ensures SeesAbove(input, Organization, modes)
  {
  }

  lemma FoundMember(entities: seq<Entity>, id: string)
    ensures Find(entities, id).Some? <==> HasId(entities, id)
    ensures Find(entities, id).Some? ==> exists i :: 0 <= i < |entities| && entities[i] == Find(entities, id).value
  {
    var found := Find(entities, id);
    if HasId(entities, id) {
      var i :| 0 <= i < |entities| && entities[i].id == id;
      assert entities[i] in entities;
    }
  }

  lemma SeesOrganizations(input: Input, before: map<Scope, Mode>, modes: map<Scope, Mode>, entity: Entity)
    requires input.Valid() && Adds(input, Organization, input.catalog.organizations, before, modes)
    ensures Sees(input, Department, modes, entity)
  {
    var entities := input.catalog.organizations;
    if entity.parent.Some? {
      var id := entity.parent.value;
      FoundMember(entities, id);
      if Find(entities, id).Some? {
        var i :| 0 <= i < |entities| && entities[i] == Find(entities, id).value;
        PlainRow(input, Tokens, Scope(Organization, id), entities[i]);
        hide Evaluate;
        assert RowOf(input, Organization, entities[i]).mode == modes[Scope(Organization, id)];
      }
    }
  }

  lemma SeesDepartments(input: Input, before: map<Scope, Mode>, modes: map<Scope, Mode>, entity: Entity)
    requires input.Valid() && Adds(input, Department, input.catalog.departments, before, modes)
    ensures Sees(input, Person, modes, entity)
  {
    hide InheritedByDepartment;
    var entities := input.catalog.departments;
    if entity.parent.Some? {
      var id := entity.parent.value;
      FoundMember(entities, id);
      if Find(entities, id).Some? {
        var i :| 0 <= i < |entities| && entities[i] == Find(entities, id).value;
        PlainRow(input, InheritedByDepartment(input, entities[i]), Scope(Department, id), entities[i]);
        hide Evaluate;
        assert RowOf(input, Department, entities[i]).mode == modes[Scope(Department, id)];
      }
    }
  }

  lemma OrganizationsSeen(input: Input, includeUsers: bool)
    requires input.Valid() && input.catalog.Valid()
    ensures SeesAbove(input, Department, FoundOn(input, includeUsers, 1).modes)
    ensures forall id :: Scope(Department, id) !in FoundOn(input, includeUsers, 1).modes
  {
    hide VisitAll, Sees, RowOf;
    var start := Found(map[], [], []);
    NothingAboveOrganizations(input, start.modes);
    VisitedModes(input, includeUsers, Organization, input.catalog.organizations, start);
    assert FoundOn(input, includeUsers, 0) == start;
    var modes := FoundOn(input, includeUsers, 1).modes;
    assert modes == VisitAll(input, includeUsers, Organization, input.catalog.organizations, start).modes;
    forall entity: Entity
      ensures Sees(input, Department, modes, entity)
    {
      SeesOrganizations(input, start.modes, modes, entity);
    }
  }

  lemma DepartmentsSeen(input: Input, includeUsers: bool)
    requires input.Valid() && input.catalog.Valid()
    ensures SeesAbove(input, Person, FoundOn(input, includeUsers, 2).modes)
  {
    hide VisitAll, Sees, RowOf;
    OrganizationsSeen(input, includeUsers);
    var start := FoundOn(input, includeUsers, 1);
    VisitedModes(input, includeUsers, Department, input.catalog.departments, start);
    var modes := FoundOn(input, includeUsers, 2).modes;
    assert modes == VisitAll(input, includeUsers, Department, input.catalog.departments, start).modes;
    forall entity: Entity
      ensures Sees(input, Person, modes, entity)
    {
      SeesDepartments(input, start.modes, modes, entity);
    }
  }

  lemma {:induction false} RisksConcat(a: seq<Item>, b: seq<Item>)
    ensures RisksOf(a + b) == RisksOf(a) + RisksOf(b)
  {
    if b == [] {
      assert a + b == a;
    } else {
      assert (a + b)[..|a + b| - 1] == a + b[..|b| - 1];
      RisksConcat(a, b[..|b| - 1]);
    }
  }

  lemma FullFound(input: Input)
    requires input.Valid() && input.catalog.Valid()
    ensures FoundOn(input, true, 3).items == AllRows(input) && FoundOn(input, true, 3).risks == RisksOf(AllRows(input))
  {
    hide VisitAll, RowsOf, RisksOf, SeesAbove;
    NothingAboveOrganizations(input, map[]);
    OrganizationsSeen(input, true);
    DepartmentsSeen(input, true);
    assert FoundOn(input, true, 0) == Found(map[], [], []);
    VisitedRows(input, true, Organization, input.catalog.organizations, FoundOn(input, true, 0));
    VisitedRows(input, true, Department, input.catalog.departments, FoundOn(input, true, 1));
    VisitedRows(input, true, Person, input.catalog.people, FoundOn(input, true, 2));
    var a := RowsOf(input, Organization, input.catalog.organizations);
    var b := RowsOf(input, Department, input.catalog.departments);
    RisksConcat(a, b);
    RisksConcat(a + b, RowsOf(input, Person, input.catalog.people));
    assert RisksOf([]) == [] by {
      NoRisks();
    }
  }

  lemma NoRisks()
    ensures RisksOf([]) == []
  {
  }

  // ----- The risk list -----

  /** Larger forecasts first, then larger use, then later names. */
  predicate Ranked(risks: seq<Risk>) {
    forall i, j | 0 <= i < j < |risks| ::
      && risks[i].forecastPercent >= risks[j].forecastPercent
      && (risks[i].forecastPercent == risks[j].forecastPercent ==>
            && risks[i].usagePercent >= risks[j].usagePercent
            && (risks[i].usagePercent == risks[j].usagePercent ==> AtMost(risks[j].name, risks[i].name)))
  }

  /** Risks of the same rank, in their order. */
  function SameRank(risks: seq<Risk>, risk: Risk): seq<Risk> {
    if risks == [] then []
    else
      var last := risks[|risks| - 1];
      SameRank(risks[..|risks| - 1], risk)
      + if last.forecastPercent == risk.forecastPercent && last.usagePercent == risk.usagePercent && last.name == risk.name
        then [last] else []
  }

  /** The list is ranked, holds each risk as often as the rows do, and keeps the order of rows within a rank. */
  ghost predicate RiskList(ordered: seq<Risk>, found: seq<Risk>) {
    Ranked(ordered) && multiset(ordered) == multiset(found) && forall risk :: SameRank(ordered, risk) == SameRank(found, risk)
  }

  lemma {:induction false} SameRankConcat(a: seq<Risk>, b: seq<Risk>, risk: Risk)
    ensures SameRank(a + b, risk) == SameRank(a, risk) + SameRank(b, risk)
  {
    if b == [] {
      assert a + b == a;
    } else {
      assert (a + b)[..|a + b| - 1] == a + b[..|b| - 1];
      SameRankConcat(a, b[..|b| - 1], risk);
    }
  }

  lemma {:induction false} PlaceIsStable(risks: seq<Risk>, item: Risk, risk: Risk)
    requires InOrder(Before, risks)
    ensures SameRank(Place(Before, risks, item), risk) == SameRank(risks + [item], risk)
  {
    hide AtMost;
    if risks == [] {
    } else if Before(risks[0], item) {
      PlaceIsStable(risks[1..], item, risk);
      SameRankConcat([risks[0]], Place(Before, risks[1..], item), risk);
      SameRankConcat([risks[0]], risks[1..] + [item], risk);
      assert risks + [item] == [risks[0]] + (risks[1..] + [item]);
    } else {
      SameRankConcat([item], risks, risk);
      SameRankConcat(risks, [item], risk);
      if SameRank([item], risk) == [item] {
        NoneOfRank(risks, item, risk);
      } else {
        assert SameRank([item], risk) == [];
      }
    }
  }

  /** Where an item has to stand before the first of some ordered risks, none of them has its rank. */
  lemma {:induction false} NoneOfRank(risks: seq<Risk>, item: Risk, risk: Risk)
    requires InOrder(Before, risks) && risks != [] && !Before(risks[0], item)
    requires SameRank([item], risk) == [item]
    ensures SameRank(risks, risk) == []
    decreases |risks|
  {
    hide AtMost;
    AtMostIsTotalOrder();
    var last := risks[|risks| - 1];
    assert item.forecastPercent == risk.forecastPercent && item.usagePercent == risk.usagePercent && item.name == risk.name by {
      assert [item][..0] == [];
    }
    BeforeIsOrder();
    assert !Before(last, item) by {
      assert |risks| > 1 ==> Before(risks[0], last);
    }
    if |risks| > 1 {
      NoneOfRank(risks[..|risks| - 1], item, risk);
    }
  }

  lemma {:induction false} SortIsStable(risks: seq<Risk>, risk: Risk)
    ensures SameRank(Sort(Before, risks), risk) == SameRank(risks, risk)
  {
    if risks != [] {
      var rest, last := risks[..|risks| - 1], risks[|risks| - 1];
      SortIsStable(rest, risk);
      RisksAreSorted(rest);
      var sorted := Sort(Before, rest);
      assert Sort(Before, risks) == Place(Before, sorted, last);
      hide AtMost, SameRank, Sort, Place;
      PlaceIsStable(sorted, last, risk);
      SameRankConcat(sorted, [last], risk);
      SameRankConcat(rest, [last], risk);
      assert risks == rest + [last];
    }
  }

  lemma SortGivesRiskList(found: seq<Risk>)
    ensures RiskList(Sort(Before, found), found)
  {
    hide AtMost, SameRank, Sort;
    RisksAreSorted(found);
    forall risk
      ensures SameRank(Sort(Before, found), risk) == SameRank(found, risk)
    {
      SortIsStable(found, risk);
    }
  }

  /**
    The overview has one row for each catalogued scope, people only on demand. It counts the scopes at risk,
    people always included, and shows the first twenty-five of them.
   */
  lemma OverviewIs(input: Input, includeUsers: bool) returns (ordered: seq<Risk>)
    requires input.Valid() && input.catalog.Valid()
    ensures var overview := OverviewOf(input, includeUsers);
            && overview.items == RowsOf(input, Organization, input.catalog.organizations)
               + RowsOf(input, Department, input.catalog.departments)
               + (if includeUsers then RowsOf(input, Person, input.catalog.people) else [])
            && overview.riskCount == |RisksOf(AllRows(input))|
            && RiskList(ordered, RisksOf(AllRows(input)))
            && overview.risks <= ordered && |overview.risks| == if |ordered| <= 25 then |ordered| else 25
  {
    hide RowsOf, FoundOn, RiskList, Sort, Units;
    FullFound(input);
    ordered := Sort(Before, RisksOf(AllRows(input)));
    SortGivesRiskList(RisksOf(AllRows(input)));
    if !includeUsers {
      CompactRefinesFull(input);
      UnitRows(input);
    }
  }

  lemma UnitRows(input: Input)
    requires input.Valid()
    ensures Units(AllRows(input))
            == RowsOf(input, Organization, input.catalog.organizations) + RowsOf(input, Department, input.catalog.departments)
  {
    hide Evaluate, Inherited, Units;
    var units := RowsOf(input, Organization, input.catalog.organizations) + RowsOf(input, Department, input.catalog.departments);
    var people := RowsOf(input, Person, input.catalog.people);
    RowsHaveLevel(input, Organization, input.catalog.organizations);
    RowsHaveLevel(input, Department, input.catalog.departments);
    RowsHaveLevel(input, Person, input.catalog.people);
    UnitsOfAll(units);
    UnitsOfPeople(units, people);
  }

  lemma RowsHaveLevel(input: Input, level: Level, entities: seq<Entity>)
    requires input.Valid()
    ensures forall row | row in RowsOf(input, level, entities) :: row.scope.level == level
  {
    hide Inherited;
    forall row | row in RowsOf(input, level, entities)
      ensures row.scope.level == level
    {
      var i :| 0 <= i < |entities| && RowOf(input, level, entities[i]) == row;
      PlainRow(input, Inherited(input, level, entities[i]), Scope(level, entities[i].id), entities[i]);
    }
  }

  lemma {:induction false} UnitsOfPeople(units: seq<Item>, people: seq<Item>)
    requires Units(units) == units && forall row | row in people :: row.scope.level == Person
    ensures Units(units + people) == units
  {
    if people == [] {
      assert units + people == units;
    } else {
      assert (units + people)[..|units + people| - 1] == units + people[..|people| - 1];
      UnitsOfPeople(units, people[..|people| - 1]);
    }
  }
}
