/** Generated traffic: a round-robin plan under a cost ceiling, and its execution within a budget. */
module TrafficPlans {
  import opened Wrappers
  import opened Rounding

  datatype Model = Model(id: string, enabled: bool, image: bool)
  datatype Request = Request(models: set<string>, perModel: nat, maxOutput: nat, budget: real, dryRun: bool)
  /** The texts that are sent in turn; only their lengths matter to a plan. */
  type Prompts = prompts: seq<string> | prompts != [] witness [""]
  datatype Settings = Settings(maxRequests: nat, maxOutput: nat, budget: real, price: real, prompts: Prompts)

  datatype Item = Item(sequence: nat, model: string, prompt: string, maxOutput: nat, ceiling: real)
  datatype Plan = Plan(items: seq<Item>, budget: real, ceiling: real, dryRun: bool)
  datatype Refusal = NoModels | TooManyRequests | CeilingExceedsBudget

  /** What a call answers: a result with an estimate of its cost, or an error. */
  datatype Answer = Success(estimate: Option<real>) | Error(status: nat)
  datatype Attempt = Attempt(sequence: nat, model: string, status: nat, cost: real)
  datatype Report = Report(planned: nat, completed: nat, successful: nat, failed: nat, cost: real,
                           stopped: Option<string>, attempts: seq<Attempt>)

  // ----- Amounts with eight decimals -----

  const SCALE := 100000000.0

  function Round8(x: real): real {
    RoundHalfEven(x * SCALE) as real / SCALE
  }

  function Units(n: int): real {
    n as real / SCALE
  }

  ghost predicate Eight(x: real) {
    exists n: int :: x == Units(n)
  }

  lemma EightStays(x: real)
    requires Eight(x)
    ensures Round8(x) == x
  {
    var n: int :| x == Units(n);
    assert x * SCALE == n as real;
    WholeStays(n);
  }

  lemma EightAdds(x: real, y: real)
    requires Eight(x) && Eight(y)
    ensures Eight(x + y)
  {
    var m: int :| x == Units(m);
    var n: int :| y == Units(n);
    assert x + y == Units(m + n);
  }

  // ----- The plan -----

  function Selected(models: seq<Model>, request: Request): seq<string> {
    if models == [] then []
    else
      var last := models[|models| - 1];
      Selected(models[..|models| - 1], request)
      + if last.enabled && (request.models == {} || last.id in request.models) && !last.image then [last.id] else []
  }

  function Ceiling(prompt: string, maxOutput: nat, price: real): real {
    Round8((|prompt| as real / 4.0 + maxOutput as real) / 1000000.0 * price)
  }

  function Least(a: nat, b: nat): nat {
    if a <= b then a else b
  }

  function LeastReal(a: real, b: real): real {
    if a <= b then a else b
  }

  function ItemAt(request: Request, settings: Settings, selected: seq<string>, i: nat): Item
    requires selected != []
  {
    var maxOutput := Least(request.maxOutput, settings.maxOutput);
    var prompt := settings.prompts[i % |settings.prompts|];
    Item(i + 1, selected[i % |selected|], prompt, maxOutput, Ceiling(prompt, maxOutput, settings.price))
  }

  function RequestCount(selected: seq<string>, request: Request): nat {
    |selected| * request.perModel
  }

  function Ceilings(items: seq<Item>): real {
    if items == [] then 0.0 else Ceilings(items[..|items| - 1]) + items[|items| - 1].ceiling
  }

  function Times(items: seq<Item>, model: string): nat {
    if items == [] then 0
    else Times(items[..|items| - 1], model) + if items[|items| - 1].model == model then 1 else 0
  }

  /** The plan's items: one for each request, models and prompts in turn. */
  predicate RoundRobin(request: Request, settings: Settings, selected: seq<string>, items: seq<Item>)
    requires selected != []
  {
    forall i | 0 <= i < |items| :: items[i] == ItemAt(request, settings, selected, i)
  }

  /** What all requests of a selection may cost together. */
  function TotalCeiling(request: Request, settings: Settings, selected: seq<string>, count: nat): real
    requires selected != []
  {
    if count == 0 then 0.0
    else TotalCeiling(request, settings, selected, count - 1) + ItemAt(request, settings, selected, count - 1).ceiling
  }

  // ----- What a plan says, in terms of the request -----

  /** A text model that is enabled and asked for; without a choice all are. */
  predicate Wanted(model: Model, request: Request) {
    model.enabled && !model.image && (request.models != {} ==> model.id in request.models)
  }

  /** Picks positions in their order. */
  ghost predicate Picks(models: seq<Model>, request: Request, picked: seq<nat>) {
    && (forall a, b | 0 <= a < b < |picked| :: picked[a] < picked[b])
    && (forall i :: i in picked <==> 0 <= i < |models| && Wanted(models[i], request))
  }

  /** The selection is the wanted models, in the order of the registry. */
  lemma {:induction false} SelectedAreWanted(models: seq<Model>, request: Request) returns (picked: seq<nat>)
    ensures Picks(models, request, picked) && |Selected(models, request)| == |picked|
    ensures forall k | 0 <= k < |picked| :: picked[k] < |models| && Selected(models, request)[k] == models[picked[k]].id
  {
    picked := [];
    if models != [] {
      var last := |models| - 1;
      var before := SelectedAreWanted(models[..last], request);
      assert Selected(models, request)
             == Selected(models[..last], request) + if Wanted(models[last], request) then [models[last].id] else [];
      hide Selected, Wanted;
      assert forall i | 0 <= i < last :: models[..last][i] == models[i];
      assert forall k | 0 <= k < |before| :: before[k] in before;
      picked := before + if Wanted(models[last], request) then [last] else [];
      forall i
        ensures i in picked <==> 0 <= i < |models| && Wanted(models[i], request)
      {
        assert i in picked <==> i in before || (i == last && Wanted(models[last], request));
      }
    }
  }

  /** An amount in hundred-millionths of a dollar, the nearest to an exact one. */
  predicate InUnits(amount: real, exact: real, units: int) {
    amount == units as real / 100000000.0 && Nearest(units, exact * 100000000.0)
  }

  lemma RoundedToUnits(exact: real) returns (units: int)
    ensures InUnits(Round8(exact), exact, units)
  {
    units := RoundHalfEven(exact * 100000000.0);
    HalfEvenIsNearest(exact * 100000000.0, units);
  }

  /** A request for at most so many tokens of output, counting four characters of the prompt as one token, priced per million. */
  lemma CeilingIs(prompt: string, maxOutput: nat, price: real) returns (exact: real, units: int)
    ensures exact * 1000000.0 == (|prompt| as real / 4.0 + maxOutput as real) * price
    ensures InUnits(Ceiling(prompt, maxOutput, price), exact, units)
  {
    exact := (|prompt| as real / 4.0 + maxOutput as real) / 1000000.0 * price;
    units := RoundedToUnits(exact);
  }

  predicate LeastOf(least: real, a: real, b: real) {
    least <= a && least <= b && (least == a || least == b)
  }

  /** Models and prompts in turn, each with the stricter of the two output limits, numbered from one. */
  predicate ItemFits(item: Item, i: nat, selected: seq<string>, request: Request, settings: Settings)
    requires selected != []
  {
    && item.sequence == i + 1
    && item.model == selected[i % |selected|]
    && item.prompt == settings.prompts[i % |settings.prompts|]
    && LeastOf(item.maxOutput as real, request.maxOutput as real, settings.maxOutput as real)
    && item.ceiling == Ceiling(item.prompt, item.maxOutput, settings.price)
  }

  lemma ItemsFit(request: Request, settings: Settings, selected: seq<string>, items: seq<Item>)
    requires selected != [] && RoundRobin(request, settings, selected, items)
    ensures forall i | 0 <= i < |items| :: ItemFits(items[i], i, selected, request, settings)
  {
    hide Ceiling;
  }

  method MakePlan(models: seq<Model>, request: Request, settings: Settings) returns (r: Result<Plan, Refusal>)
    ensures var selected := Selected(models, request);
            var count, budget := RequestCount(selected, request), LeastReal(request.budget, settings.budget);
            && (r == Err(NoModels) <==> selected == [])
            && (r == Err(TooManyRequests) <==> selected != [] && count > settings.maxRequests)
            && (r == Err(CeilingExceedsBudget) <==>
                  selected != [] && count <= settings.maxRequests && TotalCeiling(request, settings, selected, count) > budget)
            && (r.Ok? ==>
                  && |r.value.items| == count && RoundRobin(request, settings, selected, r.value.items)
                  && r.value.ceiling == Ceilings(r.value.items) == TotalCeiling(request, settings, selected, count)
                  && (forall i | 0 <= i < count :: ItemFits(r.value.items[i], i, selected, request, settings))
                  && LeastOf(r.value.budget, request.budget, settings.budget)
                  && r.value.budget == budget && r.value.dryRun == request.dryRun)
  {
    hide ItemAt, Ceiling;
    var selected := Selected(models, request);
    if selected == [] {
      return Err(NoModels);
    }
    var count := RequestCount(selected, request);
    if count > settings.maxRequests {
      return Err(TooManyRequests);
    }
    var items: seq<Item> := [];
    for i := 0 to count
      invariant |items| == i && RoundRobin(request, settings, selected, items)
    {
      items := items + [ItemAt(request, settings, selected, i)];
    }
    var sum := SumCeilings(request, settings, selected, items);
    EightStays(sum);
    var total := Round8(sum);
    var budget := LeastReal(request.budget, settings.budget);
    if total > budget {
      return Err(CeilingExceedsBudget);
    }
    ItemsFit(request, settings, selected, items);
    return Ok(Plan(items, budget, total, request.dryRun));
  }

  method SumCeilings(request: Request, settings: Settings, selected: seq<string>, items: seq<Item>) returns (sum: real)
    requires selected != [] && RoundRobin(request, settings, selected, items)
    ensures sum == Ceilings(items) == TotalCeiling(request, settings, selected, |items|) && Eight(sum)
  {
    hide Eight, Ceiling;
    sum := 0.0;
    EightZero();
    for i := 0 to |items|
      invariant sum == Ceilings(items[..i]) == TotalCeiling(request, settings, selected, i) && Eight(sum)
    {
      assert items[..i+1][..i] == items[..i];
      CeilingIsEight(items[i].prompt, items[i].maxOutput, settings.price);
      EightAdds(sum, items[i].ceiling);
      sum := sum + items[i].ceiling;
    }
    assert items[..|items|] == items;
  }

  lemma EightZero()
    ensures Eight(0.0)
  {
    assert 0.0 == Units(0);
  }

  lemma CeilingIsEight(prompt: string, maxOutput: nat, price: real)
    ensures Eight(Ceiling(prompt, maxOutput, price))
  {
    var cost := (|prompt| as real / 4.0 + maxOutput as real) / 1000000.0 * price;
    assert Round8(cost) == Units(RoundHalfEven(cost * SCALE));
  }

  // ----- Every model gets its share -----

  predicate Distinct(selected: seq<string>) {
    forall i, j | 0 <= i < j < |selected| :: selected[i] != selected[j]
  }

  lemma Multiples(d: int, n: nat)
    requires n > 0
    ensures d >= 1 ==> d * n >= n
    ensures d <= -1 ==> d * n + n <= 0
  {
  }

  lemma Division(x: nat, n: nat, quotient: nat, rest: nat)
    requires n > 0 && x == quotient * n + rest && rest < n
    ensures x / n == quotient && x % n == rest
  {
    var d := x / n - quotient;
    assert x == x / n * n + x % n;
    assert d * n == x / n * n - quotient * n;
    Multiples(d, n);
  }

  lemma NextTurn(i: nat, n: nat)
    requires n > 0
    ensures if i % n + 1 < n then (i + 1) / n == i / n && (i + 1) % n == i % n + 1
            else (i + 1) / n == i / n + 1 && (i + 1) % n == 0
  {
    if i % n + 1 < n {
      Division(i + 1, n, i / n, i % n + 1);
    } else {
      assert (i / n + 1) * n == i / n * n + n;
      Division(i + 1, n, i / n + 1, 0);
    }
  }

  /** One turn for each full round, and one more if the turn in this round is over. */
  function Turns(requests: nat, models: nat, m: nat): nat
    requires models > 0
  {
    requests / models + if m < requests % models then 1 else 0
  }

  lemma {:induction false} TurnsSoFar(request: Request, settings: Settings, selected: seq<string>, items: seq<Item>, m: nat)
    requires Distinct(selected) && m < |selected| && RoundRobin(request, settings, selected, items)
    ensures Times(items, selected[m]) == Turns(|items|, |selected|, m)
  {
    if items == [] {
      Division(0, |selected|, 0, 0);
    } else {
      var last := |items| - 1;
      TurnsSoFar(request, settings, selected, items[..last], m);
      NextTurn(last, |selected|);
      assert items[last].model == selected[last % |selected|];
    }
  }

  lemma WholeRounds(selected: seq<string>, request: Request)
    ensures forall m | 0 <= m < |selected| :: Turns(RequestCount(selected, request), |selected|, m) == request.perModel
  {
    if selected != [] {
      Division(RequestCount(selected, request), |selected|, request.perModel, 0);
    }
  }

  /** A plan asks every selected model exactly as often as requested. */
  lemma EveryModelGetsItsShare(request: Request, settings: Settings, selected: seq<string>, items: seq<Item>, m: nat)
    requires Distinct(selected) && m < |selected|
    requires |items| == RequestCount(selected, request) && RoundRobin(request, settings, selected, items)
    ensures Times(items, selected[m]) == request.perModel
  {
    hide RoundRobin, Times, Distinct, Turns, RequestCount;
    TurnsSoFar(request, settings, selected, items, m);
    WholeRounds(selected, request);
  }

  // ----- Execution -----

  /** An estimate of nothing counts as the ceiling. */
  function Cost(item: Item, answer: Answer): real {
    match answer
    case Error(_) => 0.0
    case Success(estimate) => if estimate.GetOr(0.0) == 0.0 then item.ceiling else estimate.value
  }

  function Spent(items: seq<Item>, answers: seq<Answer>, count: nat): real
    requires count <= |items| == |answers|
  {
    if count == 0 then 0.0 else Spent(items, answers, count - 1) + Cost(items[count - 1], answers[count - 1])
  }

  predicate Fits(plan: Plan, answers: seq<Answer>, k: nat)
    requires k < |plan.items| == |answers|
  {
    Spent(plan.items, answers, k) + plan.items[k].ceiling <= plan.budget
  }

  /** How many items are attempted: all before the first that does not fit. */
  ghost predicate StopsAt(plan: Plan, answers: seq<Answer>, count: nat)
    requires |plan.items| == |answers|
  {
    && count <= |plan.items| && (forall k | 0 <= k < count :: Fits(plan, answers, k))
    && (count < |plan.items| ==> !Fits(plan, answers, count))
  }

  function AttemptOf(item: Item, answer: Answer): Attempt {
    Attempt(item.sequence, item.model, if answer.Error? then answer.status else 200, Cost(item, answer))
  }

  /** A call that succeeded is reported with status 200 and what it is charged; a failed one with its status and no cost. */
  lemma AttemptIs(item: Item, answer: Answer)
    ensures var attempt := AttemptOf(item, answer);
            && attempt.sequence == item.sequence && attempt.model == item.model
            && (answer.Error? ==> attempt.status == answer.status && attempt.cost == 0.0)
            && (answer.Success? ==> attempt.status == 200)
            && (answer.Success? && answer.estimate.Some? && answer.estimate.value != 0.0 ==>
                  attempt.cost == answer.estimate.value)
            && (answer.Success? && (answer.estimate.None? || answer.estimate.value == 0.0) ==> attempt.cost == item.ceiling)
  {
  }

  function Successes(attempts: seq<Attempt>): nat {
    if attempts == [] then 0
    else Successes(attempts[..|attempts| - 1]) + if attempts[|attempts| - 1].status < 400 then 1 else 0
  }

  ghost function Succeeded(attempts: seq<Attempt>): set<int> {
    set i | 0 <= i < |attempts| && attempts[i].status < 400
  }

  /** The successes are the attempts with a status below 400. */
  lemma {:induction false} SuccessesAreCounted(attempts: seq<Attempt>)
    ensures Successes(attempts) == |Succeeded(attempts)|
  {
    if attempts != [] {
      var last := |attempts| - 1;
      SuccessesAreCounted(attempts[..last]);
      assert attempts == attempts[..last] + [attempts[last]];
      OneMoreAttempt(attempts[..last], attempts[last]);
    }
  }

  lemma OneMoreAttempt(attempts: seq<Attempt>, attempt: Attempt)
    ensures |Succeeded(attempts + [attempt])| == |Succeeded(attempts)| + if attempt.status < 400 then 1 else 0
  {
    assert Succeeded(attempts + [attempt]) == Succeeded(attempts) + if attempt.status < 400 then {|attempts|} else {};
  }

  method CountSuccesses(attempts: seq<Attempt>) returns (successful: nat)
    ensures successful == Successes(attempts) <= |attempts|
  {
    successful := 0;
    for k := 0 to |attempts|
      invariant successful == Successes(attempts[..k]) <= k
    {
      assert attempts[..k+1][..k] == attempts[..k];
      successful := successful + if attempts[k].status < 400 then 1 else 0;
    }
    assert attempts[..|attempts|] == attempts;
  }

  method CallInTurn(plan: Plan, answers: seq<Answer>) returns (attempts: seq<Attempt>, total: real, stopped: Option<string>)
    requires |plan.items| == |answers|
    ensures StopsAt(plan, answers, |attempts|) && total == Spent(plan.items, answers, |attempts|)
    ensures forall i | 0 <= i < |attempts| :: attempts[i] == AttemptOf(plan.items[i], answers[i])
    ensures stopped == if |attempts| < |plan.items| then Some("budget_limit") else None
  {
    hide AttemptOf, Cost;
    attempts, total, stopped := [], 0.0, None;
    for i := 0 to |plan.items|
      invariant |attempts| == i && total == Spent(plan.items, answers, i) && stopped.None?
      invariant forall k | 0 <= k < i :: Fits(plan, answers, k)
      invariant forall k | 0 <= k < i :: attempts[k] == AttemptOf(plan.items[k], answers[k])
    {
      var item := plan.items[i];
      if total + item.ceiling > plan.budget {
        stopped := Some("budget_limit");
        return;
      }
      total := total + Cost(item, answers[i]);
      attempts := attempts + [AttemptOf(item, answers[i])];
    }
  }

  method Execute(plan: Plan, answers: seq<Answer>) returns (report: Report)
    requires |plan.items| == |answers|
    ensures plan.dryRun ==> report == Report(|plan.items|, 0, 0, 0, 0.0, Some("dry_run"), [])
    ensures !plan.dryRun ==>
              && StopsAt(plan, answers, report.completed) && |report.attempts| == report.completed
              && (forall i | 0 <= i < report.completed :: report.attempts[i] == AttemptOf(plan.items[i], answers[i]))
              && report.planned == |plan.items| && report.successful + report.failed == report.completed
              && report.successful == Successes(report.attempts)
              && report.cost == Round8(Spent(plan.items, answers, report.completed))
              && report.stopped == if report.completed < |plan.items| then Some("budget_limit") else None
  {
    hide StopsAt, AttemptOf, Round8, Spent, Successes;
    if plan.dryRun {
      return Report(|plan.items|, 0, 0, 0, 0.0, Some("dry_run"), []);
    }
    var attempts, total, stopped := CallInTurn(plan, answers);
    StopIsBounded(plan, answers, |attempts|);
    var successful := CountSuccesses(attempts);
    report := Report(|plan.items|, |attempts|, successful, |attempts| - successful, Round8(total), stopped, attempts);
  }

  lemma StopIsBounded(plan: Plan, answers: seq<Answer>, count: nat)
    requires |plan.items| == |answers| && StopsAt(plan, answers, count)
    ensures count <= |plan.items|
  {
  }

  // ----- Staying within the budget -----

  predicate NoOverrun(items: seq<Item>, answers: seq<Answer>, count: nat)
    requires count <= |items| == |answers|
  {
    forall i | 0 <= i < count :: Cost(items[i], answers[i]) <= items[i].ceiling
  }

  lemma {:induction false} SpentWithinCeilings(items: seq<Item>, answers: seq<Answer>, count: nat)
    requires count <= |items| == |answers| && NoOverrun(items, answers, count)
    ensures Spent(items, answers, count) <= Ceilings(items[..count])
  {
    if count > 0 {
      SpentWithinCeilings(items, answers, count - 1);
      assert items[..count][..count - 1] == items[..count - 1];
    }
  }

  lemma {:induction false} PartOfCeilings(items: seq<Item>, count: nat)
    requires count <= |items| && forall item | item in items :: item.ceiling >= 0.0
    ensures Ceilings(items[..count]) <= Ceilings(items)
    decreases |items|
  {
    if count < |items| {
      PartOfCeilings(items[..|items| - 1], count);
      assert items[..|items| - 1][..count] == items[..count];
    } else {
      assert items[..count] == items;
    }
  }

  /** A stop for the budget means that some call before it cost more than its ceiling. */
  lemma StopMeansOverrun(plan: Plan, answers: seq<Answer>, count: nat)
    requires |plan.items| == |answers| && StopsAt(plan, answers, count) && count < |plan.items|
    requires Ceilings(plan.items) <= plan.budget && forall item | item in plan.items :: item.ceiling >= 0.0
    ensures exists i :: 0 <= i < count && Cost(plan.items[i], answers[i]) > plan.items[i].ceiling
  {
    if NoOverrun(plan.items, answers, count) {
      SpentWithinCeilings(plan.items, answers, count);
      assert plan.items[..count + 1][..count] == plan.items[..count];
      PartOfCeilings(plan.items, count + 1);
      assert false;
    }
  }

  /** If no call costs more than its ceiling, every item is attempted and the budget holds. */
  lemma CeilingsKeepBudget(plan: Plan, answers: seq<Answer>, count: nat)
    requires |plan.items| == |answers| && StopsAt(plan, answers, count) && NoOverrun(plan.items, answers, |plan.items|)
    requires Ceilings(plan.items) <= plan.budget && forall item | item in plan.items :: item.ceiling >= 0.0
    ensures count == |plan.items| && Spent(plan.items, answers, count) <= plan.budget
  {
    if count < |plan.items| {
      StopMeansOverrun(plan, answers, count);
    }
    SpentWithinCeilings(plan.items, answers, count);
    assert plan.items[..|plan.items|] == plan.items;
  }

  /** The excess of the last success over its ceiling; nothing without a success. */
  function LastExcess(items: seq<Item>, answers: seq<Answer>, count: nat): real
    requires count <= |items| == |answers|
  {
    if count == 0 then 0.0
    else if answers[count - 1].Success? then Cost(items[count - 1], answers[count - 1]) - items[count - 1].ceiling
    else LastExcess(items, answers, count - 1)
  }

  /** Whatever the calls cost, the total overshoots the budget by no more than the last success overran. */
  lemma {:induction false} OvershootIsLastExcess(plan: Plan, answers: seq<Answer>, count: nat)
    requires |plan.items| == |answers| && count <= |plan.items| && plan.budget >= 0.0
    requires forall k | 0 <= k < count :: Fits(plan, answers, k)
    ensures Spent(plan.items, answers, count) <= plan.budget + LastExcess(plan.items, answers, count)
  {
    if count > 0 && answers[count - 1].Error? {
      OvershootIsLastExcess(plan, answers, count - 1);
    } else if count > 0 {
      assert Fits(plan, answers, count - 1);
    }
  }

  // ----- Planning and execution together -----

  /** What validation of settings, requests and answers guarantees. */
  predicate ValidInput(request: Request, settings: Settings) {
    settings.price > 0.0 && settings.budget > 0.0 && request.budget > 0.0
  }

  predicate ValidAnswers(answers: seq<Answer>) {
    forall answer | answer in answers :: answer.Success? ==> answer.estimate.GetOr(0.0) >= 0.0
  }

  lemma CeilingIsNotNegative(prompt: string, maxOutput: nat, price: real)
    requires price > 0.0
    ensures Ceiling(prompt, maxOutput, price) >= 0.0
  {
    var tokens := |prompt| as real / 4.0 + maxOutput as real;
    NotNegative(tokens / 1000000.0, price);
    RoundingKeepsBounds(tokens / 1000000.0 * price * SCALE, 0);
  }

  lemma NotNegative(x: real, y: real)
    requires x >= 0.0 && y >= 0.0
    ensures x * y >= 0.0
  {
  }

  lemma PlannedCeilings(request: Request, settings: Settings, selected: seq<string>, items: seq<Item>)
    requires selected != [] && settings.price > 0.0 && RoundRobin(request, settings, selected, items)
    ensures forall item | item in items :: item.ceiling >= 0.0
  {
    hide Ceiling;
    forall i | 0 <= i < |items|
      ensures items[i].ceiling >= 0.0
    {
      CeilingIsNotNegative(settings.prompts[i % |settings.prompts|], Least(request.maxOutput, settings.maxOutput), settings.price);
    }
  }

  /**
    Plans and, unless it is a dry run, executes. A stop for the budget means an overrun before it; without
    overruns everything is attempted within the budget; and the total never overshoots by more than the
    last success overran its ceiling.
   */
  method GenerateTraffic(models: seq<Model>, request: Request, settings: Settings, answer: nat -> Answer)
    returns (r: Result<(Plan, seq<Answer>, Report), Refusal>)
    requires ValidInput(request, settings)
    ensures r == Err(CeilingExceedsBudget) <==>
              var selected := Selected(models, request);
              && selected != [] && RequestCount(selected, request) <= settings.maxRequests
              && TotalCeiling(request, settings, selected, RequestCount(selected, request))
                 > LeastReal(request.budget, settings.budget)
    ensures r.Ok? ==>
              var (plan, answers, report) := r.value;
              |plan.items| == |answers| && report.planned == |plan.items| && report.completed <= |plan.items|
    ensures r.Ok? && !request.dryRun ==>
              var (plan, answers, report) := r.value;
              var spent := Spent(plan.items, answers, report.completed);
              && report.cost == Round8(spent)
              && spent <= plan.budget + LastExcess(plan.items, answers, report.completed)
              && (report.stopped == Some("budget_limit") <==> report.completed < |plan.items|)
              && (report.stopped == Some("budget_limit") ==>
                    exists i :: 0 <= i < report.completed && Cost(plan.items[i], answers[i]) > plan.items[i].ceiling)
              && (NoOverrun(plan.items, answers, |plan.items|) ==>
                    report.completed == |plan.items| && spent <= plan.budget)
  {
    hide Spent, StopsAt, RoundRobin, LastExcess, Cost, NoOverrun, TotalCeiling, Round8;
    var planned := MakePlan(models, request, settings);
    if planned.Err? {
      return Err(planned.error);
    }
    var plan := planned.value;
    var answers := seq(|plan.items|, i requires 0 <= i < |plan.items| => answer(i));
    var report := Execute(plan, answers);
    if !request.dryRun {
      PlannedCeilings(request, settings, Selected(models, request), plan.items);
      StopIsBounded(plan, answers, report.completed);
      StopFits(plan, answers, report.completed);
      OvershootIsLastExcess(plan, answers, report.completed);
      if report.completed < |plan.items| {
        StopMeansOverrun(plan, answers, report.completed);
      }
      if NoOverrun(plan.items, answers, |plan.items|) {
        CeilingsKeepBudget(plan, answers, report.completed);
      }
    }
    return Ok((plan, answers, report));
  }

  lemma StopFits(plan: Plan, answers: seq<Answer>, count: nat)
    requires |plan.items| == |answers| && StopsAt(plan, answers, count)
    ensures forall k | 0 <= k < count :: Fits(plan, answers, k)
  {
  }

  // ----- Estimates of nothing -----

  /** The sum of the estimates that the answers gave. */
  function Estimated(answers: seq<Answer>, count: nat): real
    requires count <= |answers|
  {
    if count == 0 then 0.0
    else
      var last := answers[count - 1];
      Estimated(answers, count - 1) + if last.Success? then last.estimate.GetOr(0.0) else 0.0
  }

  /** A success without a positive estimate is charged its ceiling. */
  predicate ChargedCeiling(item: Item, answer: Answer) {
    answer.Success? && answer.estimate.GetOr(0.0) == 0.0 && item.ceiling > 0.0
  }

  /** The total is the sum of the estimates exactly if no success without a positive estimate had a positive ceiling. */
  lemma {:induction false} SpentIsEstimatedIffNoneCharged(items: seq<Item>, answers: seq<Answer>, count: nat)
    requires count <= |items| == |answers| && ValidAnswers(answers) && forall item | item in items :: item.ceiling >= 0.0
    ensures Spent(items, answers, count) >= Estimated(answers, count)
    ensures Spent(items, answers, count) == Estimated(answers, count)
            <==> forall i | 0 <= i < count :: !ChargedCeiling(items[i], answers[i])
  {
    if count > 0 {
      SpentIsEstimatedIffNoneCharged(items, answers, count - 1);
      assert answers[count - 1] in answers && items[count - 1] in items;
    }
  }

  /** A model whose calls cost nothing is reported at its ceiling. */
  lemma FreeCallIsCharged()
    ensures var item := Item(1, "m", "p", 1, 0.5);
            Spent([item], [Success(Some(0.0))], 1) == 0.5 && Estimated([Success(Some(0.0))], 1) == 0.0
  {
    var item := Item(1, "m", "p", 1, 0.5);
    assert Spent([item], [Success(Some(0.0))], 0) == 0.0;
  }
}
