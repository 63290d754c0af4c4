/** The parsed device tree, as far as the kernel looks at it.  Parsing is not modelled. */
module DeviceTree {
  import opened Wrappers

  datatype Reg = Reg(address: nat, size: nat)

  /** One entry of a `ranges` property: cells of any length, read as numbers. */
  datatype RangeCells = RangeCells(child: nat, parent: nat, length: nat)

  /** `None` stands for a property which is missing or malformed. */
  datatype Node = Node(
    compatible: Option<seq<string>>, reg: Option<seq<Reg>>, ranges: Option<seq<RangeCells>>, children: seq<Node>)

  datatype Fdt = Fdt(root: Node, memory: Option<Node>, cpuCount: nat)

  /** A failed assertion or unwrap, which ends the run. */
  datatype Fault =
    | MissingProperty | TooWide | NoRegion | WrongSize | NullAddress | NotIdentity
    | Unmappable | Exhausted | NotU32 | BadLayout | Unsupported

  predicate IsCompatible(node: Node, with: seq<string>) {
    node.compatible.Some? && exists c :: c in node.compatible.value && c in with
  }

  /** `d` is `node` or somewhere below it. */
  ghost predicate Below(d: Node, node: Node) {
    d == node || exists i :: 0 <= i < |node.children| && Below(d, node.children[i])
  }

  /** The nodes from `node` downwards in document order which have the given compatible string. */
  function FindCompatible(node: Node, with: string): seq<Node>
    decreases node, |node.children|
  {
    (if IsCompatible(node, [with]) then [node] else []) + FindInChildren(node, with, 0)
  }

  function FindInChildren(node: Node, with: string, i: nat): seq<Node>
    requires i <= |node.children|
    decreases node, |node.children| - i, 0
  {
    if i == |node.children| then [] else FindCompatible(node.children[i], with) + FindInChildren(node, with, i + 1)
  }

  lemma {:induction false} FoundBelow(node: Node, with: string, d: Node)
    ensures d in FindCompatible(node, with) <==> Below(d, node) && IsCompatible(d, [with])
    decreases node, |node.children| + 1
  {
    FoundInChildren(node, with, 0, d);
  }

  lemma {:induction false} FoundInChildren(node: Node, with: string, i: nat, d: Node)
    requires i <= |node.children|
    ensures d in FindInChildren(node, with, i) <==>
            IsCompatible(d, [with]) && exists j :: i <= j < |node.children| && Below(d, node.children[j])
    decreases node, |node.children| - i
  {
    if i < |node.children| {
      FoundBelow(node.children[i], with, d);
      FoundInChildren(node, with, i + 1, d);
    }
  }
}
