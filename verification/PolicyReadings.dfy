/** What the installer recognizes, and what executing a choice means, in terms of tags, names and positions alone. */
module PolicyReadings {
  import opened Wrappers
  import opened PolicyTrees
  import opened PolicyNormalization

  // ----- Recognized structures -----

  predicate Tagged(node: Node, tag: string) {
    node.Element? && node.tag == tag
  }

  /** A child that a well-formed choice may have. */
  predicate Belongs(node: Node) {
    node.Comment? || Tagged(node, "when") || Tagged(node, "otherwise")
  }

  predicate SetsVariable(node: Node, name: string) {
    Tagged(node, "set-variable") && node.children == [] && "name" in node.attributes && node.attributes["name"] == name
  }

  predicate Comments(nodes: seq<Node>) {
    forall node | node in nodes :: node.Comment?
  }

  /** The legacy structure: within a condition, the two variables come first and at least one branch follows. */
  predicate IsLegacy(parentTag: string, children: seq<Node>, before: seq<Node>, first: Node, between: seq<Node>, second: Node,
                     rest: seq<Node>)
  {
    && children == before + [first] + between + [second] + rest
    && parentTag == "when" && Comments(before) && Comments(between)
    && SetsVariable(first, "budgetRequestCannotFit") && SetsVariable(second, "budgetDenialReason")
    && (forall node | node in rest :: Belongs(node)) && !Comments(rest)
  }

  ghost predicate Recognized(parentTag: string, node: Node) {
    Tagged(node, "choose") ==>
      || (forall child | child in node.children :: Belongs(child))
      || exists before, first, between, second, rest :: IsLegacy(parentTag, node.children, before, first, between, second, rest)
  }

  lemma {:induction false} ElementsAre(nodes: seq<Node>)
    ensures forall node :: node in Elements(nodes) <==> node in nodes && node.Element?
    ensures Elements(nodes) == [] <==> Comments(nodes)
  {
    if nodes != [] {
      ElementsAre(nodes[1..]);
      assert nodes == [nodes[0]] + nodes[1..];
    }
  }

  lemma OnlyBranchesBelong(children: seq<Node>)
    ensures OnlyBranches(children) <==> forall child | child in children :: Belongs(child)
  {
    ElementsAre(children);
  }

  lemma {:induction false} ElementsConcat(a: seq<Node>, b: seq<Node>)
    ensures Elements(a + b) == Elements(a) + Elements(b)
  {
    if a == [] {
      assert a + b == b;
    } else {
      assert (a + b)[1..] == a[1..] + b;
      ElementsConcat(a[1..], b);
    }
  }

  /** Nodes up to their first element, which only comments precede. */
  lemma {:induction false} UpToFirst(nodes: seq<Node>) returns (before: seq<Node>, rest: seq<Node>)
    requires Elements(nodes) != []
    ensures nodes == before + [Elements(nodes)[0]] + rest && Comments(before) && Elements(rest) == Elements(nodes)[1..]
  {
    if nodes[0].Comment? {
      before, rest := UpToFirst(nodes[1..]);
      before := [nodes[0]] + before;
      assert nodes == [nodes[0]] + nodes[1..];
    } else {
      before, rest := [], nodes[1..];
    }
  }

  lemma LegacyElements(parentTag: string, children: seq<Node>, before: seq<Node>, first: Node, between: seq<Node>,
                       second: Node, rest: seq<Node>)
    requires children == before + [first] + between + [second] + rest
    requires Comments(before) && Comments(between) && first.Element? && second.Element?
    ensures Elements(children) == [first, second] + Elements(rest)
  {
    ElementsConcat(before + [first] + between + [second], rest);
    ElementsConcat(before + [first] + between, [second]);
    ElementsConcat(before + [first], between);
    ElementsConcat(before, [first]);
    ElementsAre(before);
    ElementsAre(between);
    hide Elements;
    assert Elements([first]) == [first] && Elements([second]) == [second] by {
      SingleElement(first);
      SingleElement(second);
    }
  }

  lemma SingleElement(node: Node)
    requires node.Element?
    ensures Elements([node]) == [node]
  {
    assert [node][1..] == [];
  }

  lemma HoistableIsLegacy(parentTag: string, children: seq<Node>)
    returns (before: seq<Node>, first: Node, between: seq<Node>, second: Node, rest: seq<Node>)
    requires Hoistable(parentTag, children)
    ensures IsLegacy(parentTag, children, before, first, between, second, rest)
  {
    hide Elements;
    var elements := Elements(children);
    var tail;
    before, tail := UpToFirst(children);
    first := elements[0];
    assert Elements(tail)[0] == elements[1];
    between, rest := UpToFirst(tail);
    second := elements[1];
    assert Elements(rest) == elements[2..];
    ElementsAre(rest);
    assert children == before + [first] + between + [second] + rest;
    forall node | node in rest
      ensures Belongs(node)
    {
      if node.Element? {
        assert node in elements[2..];
      }
    }
  }

  lemma LegacyIsHoistable(parentTag: string, children: seq<Node>, before: seq<Node>, first: Node, between: seq<Node>,
                          second: Node, rest: seq<Node>)
    requires IsLegacy(parentTag, children, before, first, between, second, rest)
    ensures Hoistable(parentTag, children)
  {
    LegacyElements(parentTag, children, before, first, between, second, rest);
    ElementsAre(rest);
    hide Elements;
    var elements := Elements(children);
    assert elements[2..] == Elements(rest);
  }

  /** The installer knows exactly the choices with nothing but branches and the legacy ones. */
  lemma KnownIsRecognized(parentTag: string, node: Node)
    ensures KnownChoice(parentTag, node) <==> Recognized(parentTag, node)
  {
    hide Hoistable, IsLegacy, OnlyBranches;
    if Tagged(node, "choose") {
      OnlyBranchesBelong(node.children);
      if Hoistable(parentTag, node.children) {
        var before, first, between, second, rest := HoistableIsLegacy(parentTag, node.children);
      }
      if before, first, between, second, rest :| IsLegacy(parentTag, node.children, before, first, between, second, rest) {
        LegacyIsHoistable(parentTag, node.children, before, first, between, second, rest);
      }
    }
  }

  // ----- What a choice does -----

  /** The branch at a position is taken: the first whose condition holds, or without such the first that needs none. */
  predicate TakenAt<S>(machine: Machine<S>, branches: seq<Node>, state: S, i: nat) {
    && i < |branches|
    && if Tagged(branches[i], "when") && machine.holds(branches[i].attributes, state)
       then forall m | 0 <= m < i :: !(Tagged(branches[m], "when") && machine.holds(branches[m].attributes, state))
       else && Tagged(branches[i], "otherwise")
            && (forall m | 0 <= m < i :: !Tagged(branches[m], "otherwise"))
            && forall m | 0 <= m < |branches| :: !(Tagged(branches[m], "when") && machine.holds(branches[m].attributes, state))
  }

  lemma {:induction false} FirstWhenIs<S>(machine: Machine<S>, branches: seq<Node>, state: S) returns (i: nat)
    ensures var found := FirstWhen(machine, branches, state);
            if found.None? then
              forall m | 0 <= m < |branches| :: !(Tagged(branches[m], "when") && machine.holds(branches[m].attributes, state))
            else
              && i < |branches| && found.value == branches[i]
              && Tagged(branches[i], "when") && machine.holds(branches[i].attributes, state)
              && forall m | 0 <= m < i :: !(Tagged(branches[m], "when") && machine.holds(branches[m].attributes, state))
  {
    i := 0;
    if branches != [] && !(Tagged(branches[0], "when") && machine.holds(branches[0].attributes, state)) {
      var before := FirstWhenIs(machine, branches[1..], state);
      i := before + 1;
      assert forall m | 0 < m < |branches| :: branches[m] == branches[1..][m-1];
    }
  }

  lemma {:induction false} FirstOtherwiseIs(branches: seq<Node>) returns (i: nat)
    ensures var found := FirstOtherwise(branches);
            if found.None? then forall m | 0 <= m < |branches| :: !Tagged(branches[m], "otherwise")
            else i < |branches| && found.value == branches[i] && Tagged(branches[i], "otherwise")
                 && forall m | 0 <= m < i :: !Tagged(branches[m], "otherwise")
  {
    i := 0;
    if branches != [] && !Tagged(branches[0], "otherwise") {
      var before := FirstOtherwiseIs(branches[1..]);
      i := before + 1;
      assert forall m | 0 < m < |branches| :: branches[m] == branches[1..][m-1];
    }
  }

  /** A choice takes at most one branch, and does nothing where none is open. */
  lemma TakenIs<S>(machine: Machine<S>, branches: seq<Node>, state: S) returns (i: nat)
    ensures var taken := Taken(machine, branches, state);
            if taken.Some? then TakenAt(machine, branches, state, i) && taken.value == branches[i]
            else forall m | 0 <= m < |branches| ::
                   && !Tagged(branches[m], "otherwise")
                   && !(Tagged(branches[m], "when") && machine.holds(branches[m].attributes, state))
  {
    i := FirstWhenIs(machine, branches, state);
    if FirstWhen(machine, branches, state).None? {
      i := FirstOtherwiseIs(branches);
    }
  }

  /** Executing a choice: leading variables are set in turn, and then one branch runs its children. */
  lemma {:induction false} ChoiceRuns<S>(machine: Machine<S>, variables: seq<Node>, branches: seq<Node>, state: S)
    requires forall node | node in variables :: node.Comment? || Tagged(node, "set-variable")
    requires branches != [] ==> !branches[0].Comment? && !Tagged(branches[0], "set-variable")
    ensures var ready := Run(machine, variables, state);
            RunNode(machine, Element("choose", map[], variables + branches), state)
            == match Taken(machine, branches, ready) case None => ready case Some(branch) => Run(machine, branch.children, ready)
  {
    var children := variables + branches;
    assert RunNode(machine, Element("choose", map[], children), state) == RunChoice(machine, children, state);
    if variables == [] {
      assert children == branches;
      if branches == [] {
        assert Taken(machine, branches, state) == None;
      }
    } else {
      assert children[1..] == variables[1..] + branches;
      var next := RunNode(machine, variables[0], state);
      ChoiceRuns(machine, variables[1..], branches, next);
      assert RunNode(machine, Element("choose", map[], children[1..]), next) == RunChoice(machine, children[1..], next);
    }
  }

  /** Every other element acts, runs its children, and acts again; a comment does nothing. */
  lemma NodeRuns<S>(machine: Machine<S>, node: Node, state: S)
    ensures node.Comment? ==> RunNode(machine, node, state) == state
    ensures node.Element? && node.tag != "choose" ==>
              RunNode(machine, node, state)
              == machine.leave(node.tag, node.attributes,
                               Run(machine, node.children, machine.enter(node.tag, node.attributes, state)))
  {
  }

  // ----- What moves -----

  /** A legacy choice is replaced by its two variables and the choice without them; any other node stays alone. */
  lemma HoistedIs(node: Node, before: seq<Node>, first: Node, between: seq<Node>, second: Node, rest: seq<Node>)
    requires node.Element? && node.children == before + [first] + between + [second] + rest
    requires Comments(before) && Comments(between) && first.Element? && second.Element?
    ensures Hoisted(true, node) == [first, second, node.(children := before + between + rest)]
    ensures Hoisted(false, node) == [node]
  {
    hide Elements, Without;
    LegacyElements("when", node.children, before, first, between, second, rest);
    WithoutBoth(before, first, between, second, rest);
    TwoFirst(first, second, Elements(rest));
  }

  lemma TwoFirst(first: Node, second: Node, rest: seq<Node>)
    ensures ([first, second] + rest)[..2] == [first, second]
  {
  }

  lemma WithoutBoth(before: seq<Node>, first: Node, between: seq<Node>, second: Node, rest: seq<Node>)
    requires Comments(before) && Comments(between) && first.Element? && second.Element?
    ensures Without(before + [first] + between + [second] + rest, 2) == before + between + rest
  {
    hide Without;
    var tail := between + [second] + rest;
    WithoutFirst(before, first, tail, 2);
    WithoutFirst(between, second, rest, 1);
    NothingMore(rest);
    Regrouped(before, first, between, second, rest);
  }

  lemma Regrouped(before: seq<Node>, first: Node, between: seq<Node>, second: Node, rest: seq<Node>)
    ensures before + [first] + (between + [second] + rest) == before + [first] + between + [second] + rest
    ensures before + (between + rest) == before + between + rest
  {
  }

  lemma {:induction false} WithoutFirst(before: seq<Node>, first: Node, rest: seq<Node>, count: nat)
    requires Comments(before) && first.Element? && count > 0
    ensures Without(before + [first] + rest, count) == before + Without(rest, count - 1)
  {
    var nodes := before + [first] + rest;
    if before == [] {
      assert nodes == [first] + rest && nodes[1..] == rest;
    } else {
      WithoutFirst(before[1..], first, rest, count);
      assert nodes[1..] == before[1..] + [first] + rest;
      assert before == [before[0]] + before[1..];
    }
  }

  lemma NothingMore(nodes: seq<Node>)
    ensures Without(nodes, 0) == nodes
  {
  }
}
