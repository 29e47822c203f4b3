/** Moving the two leading variables of a legacy choice in front of it. */
module PolicyNormalization {
  import opened Wrappers
  import opened PolicyTrees

  predicate Named(node: Node, name: string) {
    node.Element? && "name" in node.attributes && node.attributes["name"] == name
  }

  /** The one structure other than a well-formed choice that the installer knows. */
  predicate Hoistable(parentTag: string, children: seq<Node>) {
    var elements := Elements(children);
    && parentTag == "when" && |elements| >= 3
    && Named(elements[0], "budgetRequestCannotFit") && Named(elements[1], "budgetDenialReason")
    && IsVariable(elements[0]) && elements[0].children == []
    && IsVariable(elements[1]) && elements[1].children == []
    && forall node | node in elements[2..] :: IsBranch(node)
  }

  predicate KnownChoice(parentTag: string, node: Node) {
    node.Element? && node.tag == "choose" ==> OnlyBranches(node.children) || Hoistable(parentTag, node.children)
  }

  predicate Known(parentTag: string, nodes: seq<Node>)
    decreases nodes, 1
  {
    nodes == [] || (KnownNode(parentTag, nodes[0]) && Known(parentTag, nodes[1..]))
  }

  predicate KnownNode(parentTag: string, node: Node)
    decreases node, 0
  {
    KnownChoice(parentTag, node) && (node.Element? ==> Known(node.tag, node.children))
  }

  /** Without its first elements; comments stay. */
  function Without(nodes: seq<Node>, count: nat): seq<Node> {
    if nodes == [] || count == 0 then nodes
    else if nodes[0].Comment? then [nodes[0]] + Without(nodes[1..], count)
    else Without(nodes[1..], count - 1)
  }

  predicate Legacy(node: Node) {
    node.Element? && node.tag == "choose" && !OnlyBranches(node.children) && |Elements(node.children)| >= 2
  }

  /** The nodes that stand where a node with normalized children stood. */
  function Hoisted(legacy: bool, node: Node): seq<Node> {
    if legacy && node.Element? && |Elements(node.children)| >= 2 then
      Elements(node.children)[..2] + [node.(children := Without(node.children, 2))]
    else [node]
  }

  function Normalized(nodes: seq<Node>): seq<Node>
    decreases nodes, 1
  {
    if nodes == [] then [] else Hoisted(Legacy(nodes[0]), NormalizedInside(nodes[0])) + Normalized(nodes[1..])
  }

  function NormalizedInside(node: Node): Node
    decreases node, 0
  {
    match node
    case Comment(_) => node
    case Element(tag, attributes, children) => Element(tag, attributes, Normalized(children))
  }

  /** The new children of one parent, or `None` for an unknown structure; and whether anything moved. */
  method NormalizeChildren(parentTag: string, nodes: seq<Node>) returns (r: Option<seq<Node>>, changed: bool)
    ensures r.Some? <==> Known(parentTag, nodes)
    ensures r.Some? ==> r.value == Normalized(nodes) && (changed <==> !WellFormed(nodes))
    ensures r.Some? && !changed ==> r.value == nodes
    decreases nodes, 1
  {
    hide KnownNode, Hoisted, NormalizedInside, WellFormedNode, Legacy;
    var done: seq<Node> := [];
    changed := false;
    for i := 0 to |nodes|
      invariant done + Normalized(nodes[i..]) == Normalized(nodes)
      invariant Known(parentTag, nodes) <==> Known(parentTag, nodes[i..])
      invariant WellFormed(nodes) <==> !changed && WellFormed(nodes[i..])
      invariant !changed ==> done == nodes[..i]
    {
      assert nodes[i..][0] == nodes[i] && nodes[i..][1..] == nodes[i+1..];
      var moved, nodeChanged := NormalizeNode(parentTag, nodes[i]);
      if moved.None? {
        return None, changed;
      }
      done := done + moved.value;
      changed := changed || nodeChanged;
    }
    return Some(done), changed;
  }

  method NormalizeNode(parentTag: string, node: Node) returns (r: Option<seq<Node>>, changed: bool)
    ensures r.Some? <==> KnownNode(parentTag, node)
    ensures r.Some? ==> r.value == Hoisted(Legacy(node), NormalizedInside(node)) && (changed <==> !WellFormedNode(node))
    ensures r.Some? && !changed ==> r.value == [node]
    decreases node, 0
  {
    hide Normalized, WellFormed, Known;
    if node.Comment? {
      return Some([node]), false;
    }
    var misplaced := node.tag == "choose" && !OnlyBranches(node.children);
    if misplaced && !Hoistable(parentTag, node.children) {
      return None, false;
    }
    var inner, innerChanged := NormalizeChildren(node.tag, node.children);
    if inner.None? {
      return None, false;
    }
    var normalized := Element(node.tag, node.attributes, inner.value);
    return Some(Hoisted(misplaced, normalized)), innerChanged || misplaced;
  }

  // ----- The elements of normalized children -----

  /** A branch or a plain variable is never moved, and stays what it is. */
  lemma BranchStays(node: Node)
    ensures node.Comment? ==> NormalizedInside(node) == node
    ensures node.Element? ==> NormalizedInside(node).Element? && NormalizedInside(node).tag == node.tag
                              && NormalizedInside(node).attributes == node.attributes
    ensures IsBranch(node) || IsVariable(node) || node.Comment? ==>
              Hoisted(Legacy(node), NormalizedInside(node)) == [NormalizedInside(node)]
    ensures node.Element? && node.children == [] ==> NormalizedInside(node) == node
  {
  }

  /** Nothing in these nodes is a choice, so each stays in its place. */
  predicate Steady(nodes: seq<Node>) {
    forall node | node in nodes :: node.Comment? || IsBranch(node) || IsVariable(node)
  }

  lemma ElementsOfMore(node: Node, nodes: seq<Node>)
    ensures Elements([node] + nodes) == (if node.Element? then [node] else []) + Elements(nodes)
  {
    assert ([node] + nodes)[1..] == nodes;
  }

  lemma {:induction false} ElementsStay(nodes: seq<Node>)
    requires Steady(nodes)
    ensures |Elements(Normalized(nodes))| == |Elements(nodes)|
    ensures forall i | 0 <= i < |Elements(nodes)| :: Elements(Normalized(nodes))[i] == NormalizedInside(Elements(nodes)[i])
  {
    hide Hoisted, Legacy, NormalizedInside;
    if nodes != [] {
      hide Elements;
      BranchStays(nodes[0]);
      ElementsStay(nodes[1..]);
      ElementsOfMore(nodes[0], nodes[1..]);
      ElementsOfMore(NormalizedInside(nodes[0]), Normalized(nodes[1..]));
      assert nodes == [nodes[0]] + nodes[1..];
    }
  }

  lemma {:induction false} KnownChildrenAreSteady(children: seq<Node>)
    requires forall node | node in Elements(children) :: IsBranch(node) || IsVariable(node)
    ensures Steady(children)
  {
    if children != [] {
      KnownChildrenAreSteady(children[1..]);
    }
  }

  /** The children of a known choice are variables and branches. */
  lemma KnownChoiceIsSteady(parentTag: string, node: Node)
    requires KnownNode(parentTag, node) && node.Element? && node.tag == "choose"
    ensures Steady(node.children)
    ensures Legacy(node) <==> !OnlyBranches(node.children)
    ensures Legacy(node) ==> Hoistable(parentTag, node.children)
  {
    var elements := Elements(node.children);
    if !OnlyBranches(node.children) {
      assert elements == elements[..2] + elements[2..];
      assert elements[..2] == [elements[0], elements[1]];
    }
    KnownChildrenAreSteady(node.children);
  }

  // ----- Execution is preserved -----

  /** Leading variables may as well be set before the choice. */
  lemma {:induction false} HoistKeepsRun<S>(machine: Machine<S>, children: seq<Node>, count: nat, state: S)
    requires count <= |Elements(children)|
    requires forall i | 0 <= i < count :: IsVariable(Elements(children)[i])
    ensures RunChoice(machine, children, state)
            == RunChoice(machine, Without(children, count), Run(machine, Elements(children)[..count], state))
  {
    hide Taken, RunNode, Run;
    if count == 0 {
      NothingHoisted(machine, children, state);
    } else {
      hide RunChoice, Without;
      var rest := children[1..];
      assert children == [children[0]] + rest;
      ElementsOfMore(children[0], rest);
      if children[0].Comment? {
        assert Elements(rest) == Elements(children);
        HoistKeepsRun(machine, rest, count, state);
        HoistComment(machine, children, count, state);
        HoistComment(machine, children, count, Run(machine, Elements(children)[..count], state));
      } else {
        assert Elements(children)[0] == children[0];
        HoistVariable(machine, children, count, state);
        assert forall i | 0 <= i < count - 1 :: Elements(rest)[i] == Elements(children)[i + 1];
        HoistKeepsRun(machine, rest, count - 1, RunNode(machine, children[0], state));
      }
    }
  }

  lemma NothingHoisted<S>(machine: Machine<S>, children: seq<Node>, state: S)
    ensures Without(children, 0) == children && Run(machine, Elements(children)[..0], state) == state
  {
  }

  lemma HoistComment<S>(machine: Machine<S>, children: seq<Node>, count: nat, state: S)
    requires 0 < count && children != [] && children[0].Comment?
    ensures RunChoice(machine, children, state) == RunChoice(machine, children[1..], state)
    ensures RunChoice(machine, Without(children, count), state) == RunChoice(machine, Without(children[1..], count), state)
  {
    hide Taken, RunNode;
    assert Without(children, count)[0] == children[0] && Without(children, count)[1..] == Without(children[1..], count);
  }

  lemma HoistVariable<S>(machine: Machine<S>, children: seq<Node>, count: nat, state: S)
    requires 0 < count <= |Elements(children)| && children != [] && children[0].Element? && IsVariable(children[0])
    ensures RunChoice(machine, children, state) == RunChoice(machine, children[1..], RunNode(machine, children[0], state))
    ensures Without(children, count) == Without(children[1..], count - 1)
    ensures |Elements(children[1..])| == |Elements(children)| - 1
    ensures Run(machine, Elements(children)[..count], state)
            == Run(machine, Elements(children[1..])[..count - 1], RunNode(machine, children[0], state))
  {
    hide Taken, RunNode, Run;
    var rest := Elements(children[1..])[..count - 1];
    assert Elements(children)[..count] == [children[0]] + rest;
    RunMore(machine, children[0], rest, state);
  }

  lemma RunMore<S>(machine: Machine<S>, node: Node, nodes: seq<Node>, state: S)
    ensures Run(machine, [node] + nodes, state) == Run(machine, nodes, RunNode(machine, node, state))
  {
    hide RunNode;
    assert ([node] + nodes)[1..] == nodes;
  }

  lemma {:induction false} RunAll<S>(machine: Machine<S>, first: seq<Node>, second: seq<Node>, state: S)
    ensures Run(machine, first + second, state) == Run(machine, second, Run(machine, first, state))
  {
    if first == [] {
      assert first + second == second;
    } else {
      assert (first + second)[1..] == first[1..] + second;
      RunAll(machine, first[1..], second, RunNode(machine, first[0], state));
    }
  }

  lemma {:induction false} TakenStays<S>(machine: Machine<S>, children: seq<Node>, state: S)
    requires Steady(children)
    ensures FirstWhen(machine, Normalized(children), state)
            == match FirstWhen(machine, children, state) { case None => None case Some(node) => Some(NormalizedInside(node)) }
    ensures FirstOtherwise(Normalized(children))
            == match FirstOtherwise(children) { case None => None case Some(node) => Some(NormalizedInside(node)) }
  {
    hide Hoisted, Legacy, NormalizedInside;
    if children != [] {
      BranchStays(children[0]);
      TakenStays(machine, children[1..], state);
      assert Normalized(children)[0] == NormalizedInside(children[0]) && Normalized(children)[1..] == Normalized(children[1..]);
    }
  }

  lemma {:induction false} NormalizedRuns<S>(machine: Machine<S>, parentTag: string, nodes: seq<Node>, state: S)
    requires Known(parentTag, nodes)
    ensures Run(machine, Normalized(nodes), state) == Run(machine, nodes, state)
    decreases nodes, 3
  {
    hide KnownNode, Hoisted, NormalizedInside, Legacy, RunNode;
    if nodes != [] {
      var first := Hoisted(Legacy(nodes[0]), NormalizedInside(nodes[0]));
      NormalizedNodeRuns(machine, parentTag, nodes[0], state);
      RunAll(machine, first, Normalized(nodes[1..]), state);
      NormalizedRuns(machine, parentTag, nodes[1..], RunNode(machine, nodes[0], state));
    }
  }

  lemma {:induction false} NormalizedNodeRuns<S>(machine: Machine<S>, parentTag: string, node: Node, state: S)
    requires KnownNode(parentTag, node)
    ensures Run(machine, Hoisted(Legacy(node), NormalizedInside(node)), state) == RunNode(machine, node, state)
    decreases node, 2
  {
    hide Run, RunChoice, Normalized, Known, Hoistable, Elements, Legacy, KnownChoice;
    var inside := NormalizedInside(node);
    RunOne(machine, inside, state);
    if node.Element? {
      var children := Normalized(node.children);
      if node.tag == "choose" {
        KnownChoiceIsSteady(parentTag, node);
        NormalizedChoiceRuns(machine, node.tag, node.children, state);
        if Legacy(node) {
          HoistedVariables(parentTag, node);
          HoistKeepsRun(machine, children, 2, state);
          var choice := Element(node.tag, node.attributes, Without(children, 2));
          RunAll(machine, Elements(children)[..2], [choice], state);
          RunOne(machine, choice, Run(machine, Elements(children)[..2], state));
        }
      } else {
        NotAChoice(node);
        NormalizedRuns(machine, node.tag, node.children, machine.enter(node.tag, node.attributes, state));
      }
    }
  }

  lemma RunOne<S>(machine: Machine<S>, node: Node, state: S)
    ensures Run(machine, [node], state) == RunNode(machine, node, state)
  {
    hide RunNode;
    assert [node][1..] == [];
  }

  lemma NotAChoice(node: Node)
    requires node.Comment? || node.tag != "choose"
    ensures !Legacy(node)
  {
  }

  lemma HoistedVariables(parentTag: string, node: Node)
    requires KnownNode(parentTag, node) && Legacy(node)
    ensures var elements := Elements(Normalized(node.children));
            && |elements| == |Elements(node.children)| >= 3
            && elements[..2] == Elements(node.children)[..2]
            && IsVariable(elements[0]) && IsVariable(elements[1])
            && elements[0].children == [] && elements[1].children == []
            && forall i | 2 <= i < |elements| :: IsBranch(elements[i])
  {
    hide Normalized, Known, Elements, NormalizedInside;
    KnownChoiceIsSteady(parentTag, node);
    ElementsStay(node.children);
    var before := Elements(node.children);
    forall i | 0 <= i < |before|
      ensures i < 2 ==> NormalizedInside(before[i]) == before[i]
      ensures i >= 2 ==> IsBranch(NormalizedInside(before[i]))
    {
      BranchStays(before[i]);
      assert i >= 2 ==> before[i] in before[2..];
    }
  }

  lemma {:induction false} NormalizedChoiceRuns<S>(machine: Machine<S>, tag: string, children: seq<Node>, state: S)
    requires Known(tag, children) && Steady(children)
    ensures RunChoice(machine, Normalized(children), state) == RunChoice(machine, children, state)
    decreases children, 3
  {
    hide KnownNode, Hoisted, NormalizedInside, Legacy, RunNode, Run, FirstWhen, FirstOtherwise;
    if children != [] {
      BranchStays(children[0]);
      var rest := Normalized(children[1..]);
      assert Normalized(children)[0] == NormalizedInside(children[0]) && Normalized(children)[1..] == rest;
      if children[0].Comment? {
        NormalizedChoiceRuns(machine, tag, children[1..], state);
      } else if IsVariable(children[0]) {
        NormalizedNodeRuns(machine, tag, children[0], state);
        RunOne(machine, NormalizedInside(children[0]), state);
        NormalizedChoiceRuns(machine, tag, children[1..], RunNode(machine, children[0], state));
      } else {
        TakenStays(machine, children, state);
        var taken := Taken(machine, children, state);
        if taken.Some? {
          KnownInside(tag, children, taken.value);
          NormalizedRuns(machine, taken.value.tag, taken.value.children, state);
          InsideIsNormalized(taken.value);
        }
      }
    }
  }

  lemma InsideIsNormalized(node: Node)
    requires node.Element?
    ensures NormalizedInside(node) == Element(node.tag, node.attributes, Normalized(node.children))
  {
  }

  lemma {:induction false} KnownInside(parentTag: string, nodes: seq<Node>, node: Node)
    requires Known(parentTag, nodes) && node in nodes
    ensures KnownNode(parentTag, node) && (node.Element? ==> Known(node.tag, node.children))
  {
    if nodes[0] != node {
      KnownInside(parentTag, nodes[1..], node);
    }
  }

  /** Normalizing a known policy preserves what it does, for every reading of its conditions and elements. */
  lemma NormalizationPreservesExecution<S>(machine: Machine<S>, root: Node, state: S)
    requires root.Element? && root.tag != "choose" && Known(root.tag, root.children)
    ensures RunNode(machine, NormalizedInside(root), state) == RunNode(machine, root, state)
  {
    NormalizedRuns(machine, root.tag, root.children, machine.enter(root.tag, root.attributes, state));
  }

  // ----- Nothing is lost, and choices become well-formed -----

  lemma {:induction false} ShellsOfAll(first: seq<Node>, second: seq<Node>)
    ensures Shells(first + second) == Shells(first) + Shells(second)
  {
    if first == [] {
      assert first + second == second;
    } else {
      assert (first + second)[1..] == first[1..] + second;
      ShellsOfAll(first[1..], second);
    }
  }

  lemma ShellsOfMore(node: Node, nodes: seq<Node>)
    ensures Shells([node] + nodes) == ShellsOf(node) + Shells(nodes)
  {
    assert ([node] + nodes)[1..] == nodes;
  }

  lemma {:induction false} ShellsWithout(nodes: seq<Node>, count: nat)
    requires count <= |Elements(nodes)|
    ensures Shells(Elements(nodes)[..count]) + Shells(Without(nodes, count)) == Shells(nodes)
  {
    hide ShellsOf, Shells;
    if count == 0 {
      NoShells();
      assert Elements(nodes)[..0] == [];
    } else {
      var rest := nodes[1..];
      assert nodes == [nodes[0]] + rest;
      ShellsOfMore(nodes[0], rest);
      ElementsOfMore(nodes[0], rest);
      if nodes[0].Comment? {
        ShellsWithout(rest, count);
        ShellsOfMore(nodes[0], Without(rest, count));
        assert Without(nodes, count) == [nodes[0]] + Without(rest, count) && Elements(nodes) == Elements(rest);
      } else {
        ShellsWithout(rest, count - 1);
        assert Elements(nodes)[..count] == [nodes[0]] + Elements(rest)[..count - 1];
        ShellsOfMore(nodes[0], Elements(rest)[..count - 1]);
      }
    }
  }

  lemma NoShells()
    ensures Shells([]) == multiset{}
  {
  }

  lemma HoistKeepsShells(legacy: bool, node: Node)
    ensures Shells(Hoisted(legacy, node)) == ShellsOf(node)
  {
    if legacy && node.Element? && |Elements(node.children)| >= 2 {
      var choice := node.(children := Without(node.children, 2));
      ShellsWithout(node.children, 2);
      ShellsOfAll(Elements(node.children)[..2], [choice]);
      assert [choice][1..] == [];
    } else {
      assert [node][1..] == [];
    }
  }

  /** Normalizing moves nodes; it adds, changes and loses none. */
  lemma {:induction false} NormalizationConservesNodes(nodes: seq<Node>)
    ensures Shells(Normalized(nodes)) == Shells(nodes)
    decreases nodes, 1
  {
    hide Hoisted, Legacy, ShellsOf, NormalizedInside;
    if nodes != [] {
      var inside := NormalizedInside(nodes[0]);
      HoistKeepsShells(Legacy(nodes[0]), inside);
      ConservesInside(nodes[0]);
      NormalizationConservesNodes(nodes[1..]);
      ShellsOfAll(Hoisted(Legacy(nodes[0]), inside), Normalized(nodes[1..]));
    }
  }

  lemma {:induction false} ConservesInside(node: Node)
    ensures ShellsOf(NormalizedInside(node)) == ShellsOf(node)
    decreases node, 0
  {
    if node.Element? {
      NormalizationConservesNodes(node.children);
    }
  }

  lemma {:induction false} WellFormedAll(first: seq<Node>, second: seq<Node>)
    ensures WellFormed(first + second) <==> WellFormed(first) && WellFormed(second)
  {
    hide WellFormedNode;
    if first == [] {
      assert first + second == second;
    } else {
      assert (first + second)[1..] == first[1..] + second;
      WellFormedAll(first[1..], second);
    }
  }

  lemma {:induction false} WellFormedWithout(nodes: seq<Node>, count: nat)
    requires WellFormed(nodes) && count <= |Elements(nodes)|
    ensures WellFormed(Without(nodes, count)) && Elements(Without(nodes, count)) == Elements(nodes)[count..]
  {
    hide WellFormedNode;
    if count > 0 {
      WellFormedWithout(nodes[1..], if nodes[0].Comment? then count else count - 1);
      if nodes[0].Comment? {
        assert Without(nodes, count)[1..] == Without(nodes[1..], count);
        ElementsOfMore(nodes[0], Without(nodes[1..], count));
      }
    }
  }

  lemma WellFormedOne(node: Node)
    ensures WellFormed([node]) <==> WellFormedNode(node)
  {
    hide WellFormedNode;
    assert [node][1..] == [];
  }

  lemma WellFormedLeaf(node: Node)
    requires IsVariable(node) && node.children == []
    ensures WellFormedNode(node)
  {
  }

  lemma WellFormedParts(attributes: Attributes, children: seq<Node>)
    requires WellFormed(children) && |Elements(children)| >= 2
    requires IsVariable(Elements(children)[0]) && Elements(children)[0].children == []
    requires IsVariable(Elements(children)[1]) && Elements(children)[1].children == []
    requires forall i | 2 <= i < |Elements(children)| :: IsBranch(Elements(children)[i])
    ensures WellFormed(Elements(children)[..2] + [Element("choose", attributes, Without(children, 2))])
  {
    hide Elements, Without, WellFormed;
    WellFormedWithout(children, 2);
    var first, second := Elements(children)[0], Elements(children)[1];
    var choice := Element("choose", attributes, Without(children, 2));
    assert OnlyBranches(choice.children);
    WellFormedLeaf(first);
    WellFormedLeaf(second);
    WellFormedOne(first);
    WellFormedOne(second);
    WellFormedOne(choice);
    WellFormedAll([first], [second]);
    assert Elements(children)[..2] == [first] + [second];
    WellFormedAll(Elements(children)[..2], [choice]);
  }

  lemma WellFormedHoist(parentTag: string, node: Node)
    requires KnownNode(parentTag, node) && Legacy(node) && WellFormed(Normalized(node.children))
    ensures WellFormed(Hoisted(true, NormalizedInside(node)))
  {
    hide Normalized, Known, Hoistable, KnownChoice, WellFormed, Elements, Without;
    HoistedVariables(parentTag, node);
    WellFormedParts(node.attributes, Normalized(node.children));
  }

  /** Afterwards every choice has no children but branches. */
  lemma {:induction false} NormalizedIsWellFormed(parentTag: string, nodes: seq<Node>)
    requires Known(parentTag, nodes)
    ensures WellFormed(Normalized(nodes))
    decreases nodes, 1
  {
    hide Hoisted, Legacy, NormalizedInside, KnownNode, WellFormedNode;
    if nodes != [] {
      NormalizedNodeIsWellFormed(parentTag, nodes[0]);
      NormalizedIsWellFormed(parentTag, nodes[1..]);
      WellFormedAll(Hoisted(Legacy(nodes[0]), NormalizedInside(nodes[0])), Normalized(nodes[1..]));
    }
  }

  lemma {:induction false} NormalizedNodeIsWellFormed(parentTag: string, node: Node)
    requires KnownNode(parentTag, node)
    ensures WellFormed(Hoisted(Legacy(node), NormalizedInside(node)))
    decreases node, 0
  {
    hide Normalized, Known, Hoistable, Elements;
    if node.Element? {
      NormalizedIsWellFormed(node.tag, node.children);
      if Legacy(node) {
        WellFormedHoist(parentTag, node);
      } else {
        if node.tag == "choose" {
          KnownChoiceIsSteady(parentTag, node);
          BranchesStayBranches(node.children);
        }
        WellFormedOne(NormalizedInside(node));
      }
    }
  }

  lemma BranchesStayBranches(children: seq<Node>)
    requires Steady(children) && OnlyBranches(children)
    ensures OnlyBranches(Normalized(children))
  {
    hide Normalized, NormalizedInside, Elements;
    ElementsStay(children);
    forall i | 0 <= i < |Elements(children)|
      ensures IsBranch(NormalizedInside(Elements(children)[i]))
    {
      assert Elements(children)[i] in Elements(children);
      BranchStays(Elements(children)[i]);
    }
  }

  /** A policy whose choices are well-formed stays as it is. */
  lemma {:induction false} WellFormedStays(parentTag: string, nodes: seq<Node>)
    requires WellFormed(nodes)
    ensures Normalized(nodes) == nodes && Known(parentTag, nodes)
    decreases nodes, 1
  {
    hide Elements, Hoistable;
    if nodes != [] {
      if nodes[0].Element? {
        WellFormedStays(nodes[0].tag, nodes[0].children);
      }
      WellFormedStays(parentTag, nodes[1..]);
      assert nodes == [nodes[0]] + nodes[1..];
    }
  }

  /** Normalizing twice is normalizing once. */
  lemma NormalizationIsIdempotent(parentTag: string, nodes: seq<Node>)
    requires Known(parentTag, nodes)
    ensures Normalized(Normalized(nodes)) == Normalized(nodes) && Known(parentTag, Normalized(nodes))
  {
    NormalizedIsWellFormed(parentTag, nodes);
    WellFormedStays(parentTag, Normalized(nodes));
  }
}
