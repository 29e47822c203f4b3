/**
  The overview of one period: what each scope has used, what it is forecast to use, and who is at risk.
  The compact overview looks only at people who have a budget.
 */
module BudgetOverview {
  import opened Wrappers
  import opened Orders
  import opened Rounding
  import opened TextOrder
  import opened BudgetTable
  import opened BudgetHierarchy

  datatype Usage = Usage(tokens: nat, usd: real, unpriced: nat)
  type Usages = map<Scope, Usage>

  /** Where now lies in the period. */
  datatype Clock = NotStarted | Running(elapsed: nat, days: nat) | Ended {
    predicate Valid() {
      Running? ==> 1 <= elapsed <= days
    }
  }

  datatype Status = Unallocated | Healthy | Warning | Exceeded
  datatype Item = Item(scope: Scope, name: string, parent: Option<string>, mode: Mode, limit: Option<int>, warning: nat,
                       usage: Usage, usagePercent: Option<real>,
                       forecastTokens: int, forecastUsd: real, forecastPercent: Option<real>, status: Status)
  datatype Risk = Risk(scope: Scope, name: string, status: Status, usagePercent: real, forecastPercent: real)

  // ----- Forecasts -----

  function ForecastTokens(used: nat, clock: Clock): int
    requires clock.Valid()
  {
    match clock
    case Ended => used
    case NotStarted => 0
    case Running(elapsed, days) => RoundHalfEven((used * days) as real / elapsed as real)
  }

  const USD_SCALE := 100000000000000.0

  function RoundedUsd(amount: real): real {
    RoundHalfUp(amount * USD_SCALE) as real / USD_SCALE
  }

  /** Use so far at the same pace over all days. */
  function Spread(used: real, elapsed: nat, days: nat): real
    requires elapsed > 0
  {
    used * days as real / elapsed as real
  }

  function ForecastUsd(used: real, clock: Clock): real
    requires clock.Valid()
  {
    match clock
    case Ended => used
    case NotStarted => 0.0
    case Running(elapsed, days) => RoundedUsd(Spread(used, elapsed, days))
  }

  /** Percentages keep one decimal. */
  function Percent(part: real, limit: real): real
    requires limit > 0.0
  {
    RoundHalfEven(part / limit * 100.0 * 10.0) as real / 10.0
  }

  function Max(a: real, b: real): real {
    if a >= b then a else b
  }

  // ----- One scope -----

  function UsageOf(usages: Usages, scope: Scope): Usage {
    if scope in usages then usages[scope] else Usage(0, 0.0, 0)
  }

  function Evaluate(budgets: Budgets, usages: Usages, clock: Clock, inherited: Mode, scope: Scope, entity: Entity): Item
    requires PositiveLimits(budgets) && clock.Valid()
  {
    var usage := UsageOf(usages, scope);
    var tokens, usd := ForecastTokens(usage.tokens, clock), ForecastUsd(usage.usd, clock);
    if scope !in budgets then
      Item(scope, entity.name, entity.parent, inherited, None, 80, usage, None, tokens, usd, None, Unallocated)
    else
      var row := budgets[scope];
      var limit := if row.mode == Tokens then row.limit as real else row.limit as real / 100.0;
      var used := if row.mode == Tokens then usage.tokens as real else usage.usd;
      var usagePercent := Percent(used, limit);
      var forecastPercent := Percent(if row.mode == Tokens then tokens as real else usd, limit);
      var status := if used >= limit then Exceeded
                    else if Max(usagePercent, forecastPercent) >= row.warning as real then Warning
                    else Healthy;
      Item(scope, entity.name, entity.parent, row.mode, Some(row.limit), row.warning, usage,
           Some(usagePercent), tokens, usd, Some(forecastPercent), status)
  }

  function AsRisk(item: Item): Risk {
    Risk(item.scope, item.name, item.status, item.usagePercent.GetOr(0.0), item.forecastPercent.GetOr(0.0))
  }

  predicate AtRisk(item: Item) {
    item.status == Warning || item.status == Exceeded
  }

  // ----- All scopes -----

  datatype Found = Found(modes: map<Scope, Mode>, items: seq<Item>, risks: seq<Risk>)

  function InheritedMode(modes: map<Scope, Mode>, level: Level, entity: Entity): Mode {
    var parent := ParentScope(level, entity.parent);
    if parent.Some? && parent.value in modes then modes[parent.value] else Tokens
  }

  datatype Input = Input(catalog: Catalog, budgets: Budgets, usages: Usages, clock: Clock) {
    predicate Valid() {
      PositiveLimits(budgets) && clock.Valid()
    }
  }

  function Visit(input: Input, includeUsers: bool, level: Level, entity: Entity, found: Found): Found
    requires input.Valid()
  {
    var scope := Scope(level, entity.id);
    var item := Evaluate(input.budgets, input.usages, input.clock, InheritedMode(found.modes, level, entity), scope, entity);
    Found(found.modes[scope := item.mode],
          if includeUsers || level != Person then found.items + [item] else found.items,
          if AtRisk(item) then found.risks + [AsRisk(item)] else found.risks)
  }

  function VisitAll(input: Input, includeUsers: bool, level: Level, entities: seq<Entity>, found: Found): Found
    requires input.Valid()
  {
    if entities == [] then found
    else
      var before := VisitAll(input, includeUsers, level, entities[..|entities| - 1], found);
      Visit(input, includeUsers, level, entities[|entities| - 1], before)
  }

  function WithBudget(budgets: Budgets, people: seq<Entity>): seq<Entity> {
    if people == [] then []
    else
      var last := people[|people| - 1];
      WithBudget(budgets, people[..|people| - 1]) + if Scope(Person, last.id) in budgets then [last] else []
  }

  function Scoped(input: Input, includeUsers: bool, level: Level): seq<Entity> {
    if level == Person && !includeUsers then WithBudget(input.budgets, input.catalog.people) else input.catalog.Entities(level)
  }

  const LEVELS := [Organization, Department, Person]

  /** What is found on the first levels, each seeing the modes of those above. */
  function FoundOn(input: Input, includeUsers: bool, levels: nat): Found
    requires input.Valid() && levels <= 3
  {
    if levels == 0 then Found(map[], [], [])
    else
      var level := LEVELS[levels - 1];
      VisitAll(input, includeUsers, level, Scoped(input, includeUsers, level), FoundOn(input, includeUsers, levels - 1))
  }

  // ----- The order of risks -----

  /** `a` may stand before `b`: larger forecast, then larger usage, then later name. */
  predicate Before(a: Risk, b: Risk) {
    || a.forecastPercent > b.forecastPercent
    || (a.forecastPercent == b.forecastPercent
        && (a.usagePercent > b.usagePercent || (a.usagePercent == b.usagePercent && AtMost(b.name, a.name))))
  }

  lemma BeforeIsOrder()
    ensures TotalPreorder(Before)
  {
    AtMostIsTotalOrder();
  }

  /** The risk list holds every risk once, largest forecast first. */
  lemma RisksAreSorted(risks: seq<Risk>)
    ensures InOrder(Before, Sort(Before, risks)) && multiset(Sort(Before, risks)) == multiset(risks)
  {
    BeforeIsOrder();
    SortSorts(Before, risks);
  }

  // ----- The overview -----

  datatype Overview = Overview(items: seq<Item>, riskCount: nat, risks: seq<Risk>)

  function First25(risks: seq<Risk>): seq<Risk> {
    if |risks| > 25 then risks[..25] else risks
  }

  function OverviewOf(input: Input, includeUsers: bool): Overview
    requires input.Valid()
  {
    var found := FoundOn(input, includeUsers, 3);
    Overview(found.items, |found.risks|, First25(Sort(Before, found.risks)))
  }

  method ListOverview(input: Input, includeUsers: bool) returns (overview: Overview)
    requires input.Valid()
    ensures overview == OverviewOf(input, includeUsers)
  {
    hide Visit, Scoped, Place;
    var found := Found(map[], [], []);
    for k := 0 to 3
      invariant found == FoundOn(input, includeUsers, k)
    {
      var entities := Scoped(input, includeUsers, LEVELS[k]);
      ghost var start := found;
      for i := 0 to |entities|
        invariant found == VisitAll(input, includeUsers, LEVELS[k], entities[..i], start)
      {
        assert entities[..i+1][..i] == entities[..i];
        found := Visit(input, includeUsers, LEVELS[k], entities[i], found);
      }
      assert entities[..|entities|] == entities;
    }
    var ordered: seq<Risk> := [];
    for i := 0 to |found.risks|
      invariant ordered == Sort(Before, found.risks[..i])
    {
      assert found.risks[..i+1][..i] == found.risks[..i];
      ordered := Place(Before, ordered, found.risks[i]);
    }
    assert found.risks[..|found.risks|] == found.risks;
    overview := Overview(found.items, |found.risks|, First25(ordered));
  }

  // ----- The compact overview refines the full one -----

  /** The rows of organizations and departments. */
  function Units(items: seq<Item>): seq<Item> {
    if items == [] then []
    else Units(items[..|items| - 1]) + if items[|items| - 1].scope.level != Person then [items[|items| - 1]] else []
  }

  lemma {:induction false} UnitsOfAll(items: seq<Item>)
    requires forall item | item in items :: item.scope.level != Person
    ensures Units(items) == items
  {
    if items != [] {
      UnitsOfAll(items[..|items| - 1]);
    }
  }

  /** Someone without a budget is never at risk. */
  lemma UnallocatedIsNoRisk(input: Input, inherited: Mode, scope: Scope, entity: Entity)
    requires input.Valid()
    ensures AtRisk(Evaluate(input.budgets, input.usages, input.clock, inherited, scope, entity)) ==> scope in input.budgets
    ensures Evaluate(input.budgets, input.usages, input.clock, inherited, scope, entity).scope == scope
  {
  }

  ghost predicate SameAbove(a: map<Scope, Mode>, b: map<Scope, Mode>) {
    forall scope: Scope | scope.level != Person :: (scope in a <==> scope in b) && (scope in a ==> a[scope] == b[scope])
  }

  lemma SameInheritance(a: map<Scope, Mode>, b: map<Scope, Mode>, entity: Entity)
    requires SameAbove(a, b)
    ensures InheritedMode(a, Person, entity) == InheritedMode(b, Person, entity)
  {
  }

  /** Whoever is asked for, organizations and departments are evaluated alike. */
  lemma {:induction false} UnitsVisitedAlike(input: Input, level: Level, entities: seq<Entity>, found: Found)
    requires input.Valid() && level != Person
    requires forall item | item in found.items :: item.scope.level != Person
    ensures VisitAll(input, false, level, entities, found) == VisitAll(input, true, level, entities, found)
    ensures forall item | item in VisitAll(input, true, level, entities, found).items :: item.scope.level != Person
  {
    hide Evaluate, InheritedMode, AtRisk, AsRisk;
    if entities != [] {
      UnitsVisitedAlike(input, level, entities[..|entities| - 1], found);
      var before := VisitAll(input, true, level, entities[..|entities| - 1], found);
      var last := entities[|entities| - 1];
      UnallocatedIsNoRisk(input, InheritedMode(before.modes, level, last), Scope(level, last.id), last);
    }
  }

  lemma VisitPerson(input: Input, person: Entity, compact: Found, full: Found)
    requires input.Valid() && compact.risks == full.risks && SameAbove(compact.modes, full.modes)
    ensures var scope := Scope(Person, person.id);
            var seen := if scope in input.budgets then Visit(input, false, Person, person, compact) else compact;
            var all := Visit(input, true, Person, person, full);
            && seen.risks == all.risks && SameAbove(seen.modes, all.modes)
            && seen.items == compact.items && Units(all.items) == Units(full.items)
  {
    hide Evaluate, InheritedMode, AtRisk, AsRisk;
    var inherited := InheritedMode(full.modes, Person, person);
    var item := Evaluate(input.budgets, input.usages, input.clock, inherited, Scope(Person, person.id), person);
    SameInheritance(compact.modes, full.modes, person);
    UnallocatedIsNoRisk(input, inherited, Scope(Person, person.id), person);
    assert (full.items + [item])[..|full.items|] == full.items;
  }

  /** Leaving out people without a budget loses no risk and changes none. */
  lemma {:induction false} PeopleVisitedAlike(input: Input, people: seq<Entity>, found: Found)
    requires input.Valid()
    ensures var compact := VisitAll(input, false, Person, WithBudget(input.budgets, people), found);
            var full := VisitAll(input, true, Person, people, found);
            && compact.risks == full.risks && SameAbove(compact.modes, full.modes)
            && compact.items == found.items && Units(full.items) == Units(found.items)
  {
    hide Visit, Units;
    if people == [] {
      assert WithBudget(input.budgets, people) == [];
    } else {
      var rest, last := people[..|people| - 1], people[|people| - 1];
      PeopleVisitedAlike(input, rest, found);
      var kept := WithBudget(input.budgets, rest);
      VisitPerson(input, last, VisitAll(input, false, Person, kept, found), VisitAll(input, true, Person, rest, found));
      if Scope(Person, last.id) in input.budgets {
        assert WithBudget(input.budgets, people) == kept + [last];
        assert (kept + [last])[..|kept|] == kept;
      } else {
        assert WithBudget(input.budgets, people) == kept;
      }
    }
  }

  /** The compact overview gives the same risks, in the same order and number, and the same rows of units. */
  lemma CompactRefinesFull(input: Input)
    requires input.Valid()
    ensures var compact, full := OverviewOf(input, false), OverviewOf(input, true);
            compact.risks == full.risks && compact.riskCount == full.riskCount && compact.items == Units(full.items)
  {
    hide VisitAll, Units, WithBudget, Sort;
    var start := Found(map[], [], []);
    var organizations := VisitAll(input, true, Organization, input.catalog.organizations, start);
    var departments := VisitAll(input, true, Department, input.catalog.departments, organizations);
    UnitsVisitedAlike(input, Organization, input.catalog.organizations, start);
    UnitsVisitedAlike(input, Department, input.catalog.departments, organizations);
    FoundOnUnits(input, true);
    FoundOnUnits(input, false);
    PeopleVisitedAlike(input, input.catalog.people, departments);
    UnitsOfAll(departments.items);
  }

  lemma FoundOnUnits(input: Input, includeUsers: bool)
    requires input.Valid()
    ensures FoundOn(input, includeUsers, 2)
            == VisitAll(input, includeUsers, Department, input.catalog.departments,
                        VisitAll(input, includeUsers, Organization, input.catalog.organizations, Found(map[], [], [])))
  {
    hide VisitAll;
    assert FoundOn(input, includeUsers, 0) == Found(map[], [], []);
    assert FoundOn(input, includeUsers, 1)
           == VisitAll(input, includeUsers, Organization, input.catalog.organizations, FoundOn(input, includeUsers, 0));
  }

  // ----- Forecasts -----

  /** While the period runs, and after it, nobody is forecast to use fewer tokens than they already did. */
  lemma ForecastIsAtLeastUse(used: nat, clock: Clock)
    requires clock.Valid() && !clock.NotStarted?
    ensures ForecastTokens(used, clock) >= used
  {
    if clock.Running? {
      Scaled(used, clock.elapsed, clock.days);
      RoundingKeepsBounds((used * clock.days) as real / clock.elapsed as real, used);
    }
  }

  lemma Scaled(used: nat, elapsed: nat, days: nat)
    requires 1 <= elapsed <= days
    ensures (used * days) as real / elapsed as real >= used as real
  {
    assert used * days >= used * elapsed;
    var ratio := (used * days) as real / elapsed as real;
    assert ratio * elapsed as real == (used * days) as real;
    if ratio < used as real {
      assert ratio * elapsed as real < used as real * elapsed as real;
    }
  }

  // ----- Risk is forecast risk -----

  lemma QuotientGrows(part: real, more: real, limit: real)
    requires part <= more && limit > 0.0
    ensures part / limit <= more / limit && limit / limit == 1.0
  {
    var a, b := part / limit, more / limit;
    assert a * limit == part && b * limit == more;
    if a > b {
      ProductGrows(b, a, limit);
    }
  }

  lemma ProductGrows(a: real, b: real, factor: real)
    requires a < b && factor > 0.0
    ensures a * factor < b * factor
  {
  }

  lemma PercentGrows(part: real, more: real, limit: real)
    requires 0.0 <= part <= more && limit > 0.0
    ensures Percent(part, limit) <= Percent(more, limit)
    ensures part >= limit ==> Percent(part, limit) >= 100.0
  {
    var x, y := part / limit * 100.0 * 10.0, more / limit * 100.0 * 10.0;
    QuotientGrows(part, more, limit);
    RoundingGrows(x, y);
    if part >= limit {
      QuotientGrows(limit, part, limit);
      RoundingKeepsBounds(x, 1000);
    }
  }

  /**
    Once the period runs, a person or unit with a token budget is at risk exactly when the forecast
    reaches the threshold: use never adds to it, and running over the limit is never missed.
   */
  lemma TokenRiskIsForecastRisk(input: Input, inherited: Mode, scope: Scope, entity: Entity)
    requires input.Valid() && !input.clock.NotStarted?
    requires scope in input.budgets && input.budgets[scope].mode == Tokens && input.budgets[scope].warning <= 100
    ensures var item := Evaluate(input.budgets, input.usages, input.clock, inherited, scope, entity);
            && item.forecastPercent.Some?
            && (AtRisk(item) <==> item.forecastPercent.value >= item.warning as real)
            && (item.status == Exceeded <==> UsageOf(input.usages, scope).tokens >= input.budgets[scope].limit)
  {
    hide Percent, ForecastTokens, ForecastUsd;
    var used := UsageOf(input.usages, scope).tokens;
    ForecastIsAtLeastUse(used, input.clock);
    PercentGrows(used as real, ForecastTokens(used, input.clock) as real, input.budgets[scope].limit as real);
  }
}
