/**
  Policy trees and what executing them does. The meaning of conditions and of elements other than
  choices is left open: results hold for every reading of them.
 */
module PolicyTrees {
  import opened Wrappers

  type Attributes = map<string, string>
  datatype Node = Element(tag: string, attributes: Attributes, children: seq<Node>) | Comment(text: string)

  /**
    How conditions and elements act on a state. An element other than a choice acts, runs its children in
    order, and acts again; setting a variable is such an element without children.
   */
  datatype Machine<!S> = Machine(
    holds: (Attributes, S) -> bool,
    enter: (string, Attributes, S) -> S,
    leave: (string, Attributes, S) -> S)

  predicate IsBranch(node: Node) {
    node.Element? && (node.tag == "when" || node.tag == "otherwise")
  }

  predicate IsVariable(node: Node) {
    node.Element? && node.tag == "set-variable"
  }

  /** The first branch whose condition holds, or else the first that needs none. */
  function FirstWhen<S>(machine: Machine<S>, branches: seq<Node>, state: S): Option<Node> {
    if branches == [] then None
    else if branches[0].Element? && branches[0].tag == "when" && machine.holds(branches[0].attributes, state) then Some(branches[0])
    else FirstWhen(machine, branches[1..], state)
  }

  function FirstOtherwise(branches: seq<Node>): Option<Node> {
    if branches == [] then None
    else if branches[0].Element? && branches[0].tag == "otherwise" then Some(branches[0])
    else FirstOtherwise(branches[1..])
  }

  function Taken<S>(machine: Machine<S>, branches: seq<Node>, state: S): (taken: Option<Node>)
    ensures taken.Some? ==> taken.value in branches && taken.value.Element?
  {
    TakenIsBranch(machine, branches, state);
    if FirstWhen(machine, branches, state).Some? then FirstWhen(machine, branches, state) else FirstOtherwise(branches)
  }

  lemma {:induction false} TakenIsBranch<S>(machine: Machine<S>, branches: seq<Node>, state: S)
    ensures FirstWhen(machine, branches, state).Some? ==>
              FirstWhen(machine, branches, state).value in branches && FirstWhen(machine, branches, state).value.Element?
    ensures FirstOtherwise(branches).Some? ==> FirstOtherwise(branches).value in branches && FirstOtherwise(branches).value.Element?
  {
    if branches != [] {
      TakenIsBranch(machine, branches[1..], state);
    }
  }

  function Run<S>(machine: Machine<S>, nodes: seq<Node>, state: S): S
    decreases nodes, 2
  {
    if nodes == [] then state else Run(machine, nodes[1..], RunNode(machine, nodes[0], state))
  }

  function RunNode<S>(machine: Machine<S>, node: Node, state: S): S
    decreases node, 1
  {
    match node
    case Comment(_) => state
    case Element(tag, attributes, children) =>
      if tag == "choose" then RunChoice(machine, children, state)
      else machine.leave(tag, attributes, Run(machine, children, machine.enter(tag, attributes, state)))
  }

  /** A choice sets its leading variables, and only then tests its branches. */
  function RunChoice<S>(machine: Machine<S>, children: seq<Node>, state: S): S
    decreases children, 2
  {
    if children != [] && children[0].Comment? then RunChoice(machine, children[1..], state)
    else if children != [] && IsVariable(children[0]) then
      RunChoice(machine, children[1..], RunNode(machine, children[0], state))
    else
      match Taken(machine, children, state)
      case None => state
      case Some(branch) => Run(machine, branch.children, state)
  }

  // ----- Every node of a tree -----

  /** A node without its children. */
  datatype Shell = Tag(tag: string, attributes: Attributes) | Remark(text: string)

  function Shells(nodes: seq<Node>): multiset<Shell>
    decreases nodes, 1
  {
    if nodes == [] then multiset{} else ShellsOf(nodes[0]) + Shells(nodes[1..])
  }

  function ShellsOf(node: Node): multiset<Shell>
    decreases node, 0
  {
    match node
    case Comment(text) => multiset{Remark(text)}
    case Element(tag, attributes, children) => multiset{Tag(tag, attributes)} + Shells(children)
  }

  // ----- Choices -----

  function Elements(nodes: seq<Node>): (elements: seq<Node>)
    ensures forall node | node in elements :: node in nodes && node.Element?
  {
    if nodes == [] then [] else (if nodes[0].Element? then [nodes[0]] else []) + Elements(nodes[1..])
  }

  predicate OnlyBranches(children: seq<Node>) {
    forall node | node in Elements(children) :: IsBranch(node)
  }

  /** Every choice in the nodes has no children but branches. */
  predicate WellFormed(nodes: seq<Node>)
    decreases nodes, 1
  {
    nodes == [] || (WellFormedNode(nodes[0]) && WellFormed(nodes[1..]))
  }

  predicate WellFormedNode(node: Node)
    decreases node, 0
  {
    node.Element? ==> (node.tag == "choose" ==> OnlyBranches(node.children)) && WellFormed(node.children)
  }
}
