/**
 * The outline view's tree builder (`buildTree`) and the expand/collapse state
 * of one outline row.
 *
 * `buildTree` works on a dictionary seeded with a `"<root>"` sentinel. A first
 * loop creates one fresh node per input symbol and stores it under the
 * symbol's name, so a later symbol with the same name replaces an earlier one.
 * A second loop pushes, for every input symbol, the node stored under its name
 * onto the children of the node stored under its `containerName`, or onto the
 * root when that name is not in the dictionary. The root's children are
 * returned.
 *
 * Node objects are identified by the position of the symbol that created
 * them; the children of a node are the positions of the nodes pushed onto it.
 * The same node can be pushed several times and a node can be pushed onto
 * itself, so the result is a graph, not an inductive tree.
 */
module Outline {
  import opened Symbols

  /** The name under which the sentinel root is seeded. */
  const RootName: string := "<root>"

  /** A node object: the sentinel root, or the node made for input symbol `index`. */
  datatype NodeRef = Root | Node(index: nat)

  /** `{ ...s, children: [] }`, with the children given as node positions. */
  datatype TreeNode = TreeNode(name: string, kind: int, containerName: string, usedBy: seq<string>, children: seq<nat>)

  function NewNode(s: Symbol): (n: TreeNode)
    ensures n.name == s.name && n.kind == s.kind && n.containerName == s.containerName && n.usedBy == s.usedBy
    ensures n.children == []
  {
    TreeNode(s.name, s.kind, s.containerName, s.usedBy, [])
  }

  /** Symbol `i` is the last one named `name`. */
  predicate IsLastNamed(syms: seq<Symbol>, name: string, i: int)
  {
    0 <= i < |syms| && syms[i].name == name && forall j :: i < j < |syms| ==> syms[j].name != name
  }

  /** The position of the last symbol named `name`, or -1 when there is none. */
  function LastIndexOf(syms: seq<Symbol>, name: string): (r: int)
    ensures r == -1 || IsLastNamed(syms, name, r)
    ensures r == -1 <==> forall j :: 0 <= j < |syms| ==> syms[j].name != name
    decreases |syms|
  {
    if syms == [] then -1
    else if syms[|syms| - 1].name == name then |syms| - 1
    else LastIndexOf(syms[..|syms| - 1], name)
  }

  /** The dictionary after the first loop has run over `syms`. */
  function Table(syms: seq<Symbol>): map<string, NodeRef>
    decreases |syms|
  {
    if syms == [] then map[RootName := Root]
    else Table(syms[..|syms| - 1])[syms[|syms| - 1].name := Node(|syms| - 1)]
  }

  /** The dictionary holds the sentinel and every symbol name, each bound to its last symbol. */
  lemma {:induction false} TableLookup(syms: seq<Symbol>, name: string)
    ensures name in Table(syms) <==> name == RootName || LastIndexOf(syms, name) >= 0
    ensures LastIndexOf(syms, name) >= 0 ==> Table(syms)[name] == Node(LastIndexOf(syms, name))
    ensures LastIndexOf(syms, name) < 0 && name == RootName ==> Table(syms)[name] == Root
    decreases |syms|
  {
    if syms != [] {
      TableLookup(syms[..|syms| - 1], name);
    }
  }

  /** `map[c] || root` on a dictionary of nodes. */
  function Lookup(table: map<string, NodeRef>, c: string): NodeRef
  {
    if c in table then table[c] else Root
  }

  /**
   * The parent a symbol with container name `c` is pushed onto: the last
   * symbol named `c`, or the root when no symbol has that name.
   */
  function Resolve(syms: seq<Symbol>, c: string): NodeRef
  {
    var i := LastIndexOf(syms, c);
    if i >= 0 then Node(i) else Root
  }

  /** The root exactly when no symbol is named `c`; otherwise the last symbol so named. */
  lemma ResolveSpec(syms: seq<Symbol>, c: string)
    ensures Resolve(syms, c) == Root <==> forall i :: 0 <= i < |syms| ==> syms[i].name != c
    ensures Resolve(syms, c).Node? ==> IsLastNamed(syms, c, Resolve(syms, c).index)
  {
  }

  /**
   * Looking a container name up in the dictionary the first loop built gives
   * `Resolve`; the sentinel entry itself resolves to the root.
   */
  lemma LookupResolves(syms: seq<Symbol>, c: string)
    ensures Lookup(Table(syms), c) == Resolve(syms, c)
  {
    TableLookup(syms, c);
  }

  /** `map[s.name]` for symbol `j`: the node of the last symbol with the same name. */
  function Target(syms: seq<Symbol>, j: nat): (t: nat)
    requires j < |syms|
    ensures j <= t && IsLastNamed(syms, syms[j].name, t)
  {
    LastIndexOf(syms, syms[j].name)
  }

  /** For each symbol in input order, the node its push lands on. */
  function Parents(syms: seq<Symbol>): (r: seq<NodeRef>)
    ensures |r| == |syms|
  {
    seq(|syms|, j requires 0 <= j < |syms| => Resolve(syms, syms[j].containerName))
  }

  /** For each symbol in input order, the node it pushes. */
  function Targets(syms: seq<Symbol>): (r: seq<nat>)
    ensures |r| == |syms|
  {
    seq(|syms|, j requires 0 <= j < |syms| => Target(syms, j))
  }

  /** Every parent is the root or one of the symbols' own nodes. */
  ghost predicate ParentsInRange(parents: seq<NodeRef>)
  {
    forall j :: 0 <= j < |parents| && parents[j].Node? ==> parents[j].index < |parents|
  }

  lemma ParentsOfSymbolsInRange(syms: seq<Symbol>)
    ensures ParentsInRange(Parents(syms))
  {
    forall j | 0 <= j < |syms| && Parents(syms)[j].Node?
      ensures Parents(syms)[j].index < |syms|
    {
      ResolveSpec(syms, syms[j].containerName);
    }
  }

  /**
   * The children list of `p` after steps `0 .. k-1` of the second loop, where
   * step `j` pushes `targets[j]` onto `parents[j]`.
   */
  function Pushes(parents: seq<NodeRef>, targets: seq<nat>, p: NodeRef, k: nat): (r: seq<nat>)
    requires k <= |parents| == |targets|
    ensures forall q :: 0 <= q < |r| ==> r[q] in targets
  {
    if k == 0 then [] else Pushes(parents, targets, p, k - 1) + (if parents[k - 1] == p then [targets[k - 1]] else [])
  }

  /**
   * The steps among the first `k` whose push lands on `p`: exactly those
   * whose parent is `p`, in increasing order.
   */
  function Sources(parents: seq<NodeRef>, p: NodeRef, k: nat): (r: seq<nat>)
    requires k <= |parents|
    ensures forall q :: 0 <= q < |r| ==> r[q] < k && parents[r[q]] == p
    ensures forall q, q' :: 0 <= q < q' < |r| ==> r[q] < r[q']
    ensures forall j :: 0 <= j < k && parents[j] == p ==> j in r
  {
    if k == 0 then [] else Sources(parents, p, k - 1) + (if parents[k - 1] == p then [k - 1] else [])
  }

  /** Children lists keep input order: the `q`-th child is pushed by the `q`-th source step. */
  lemma {:induction false} PushesFollowSources(parents: seq<NodeRef>, targets: seq<nat>, p: NodeRef, k: nat)
    requires k <= |parents| == |targets|
    ensures |Pushes(parents, targets, p, k)| == |Sources(parents, p, k)|
    ensures forall q :: 0 <= q < |Pushes(parents, targets, p, k)| ==>
              Pushes(parents, targets, p, k)[q] == targets[Sources(parents, p, k)[q]]
  {
    if k > 0 {
      PushesFollowSources(parents, targets, p, k - 1);
    }
  }

  /** The children of node `p` once every symbol has been pushed. */
  function Children(syms: seq<Symbol>, p: NodeRef): seq<nat>
  {
    Pushes(Parents(syms), Targets(syms), p, |syms|)
  }

  /** The returned top-level list. */
  function TopLevel(syms: seq<Symbol>): seq<nat>
  {
    Children(syms, Root)
  }

  /** An empty symbol list gives an empty top-level list. */
  lemma EmptyOutline()
    ensures TopLevel([]) == []
  {
  }

  /**
   * Where symbol `j` is pushed: onto the last symbol named by its container,
   * or onto the root exactly when no symbol has that name, and onto no other
   * node.
   */
  lemma Placement(syms: seq<Symbol>, j: nat)
    requires j < |syms|
    ensures var c := syms[j].containerName; var parent := Parents(syms)[j];
      && (parent == Root <==> forall i :: 0 <= i < |syms| ==> syms[i].name != c)
      && (parent.Node? ==> IsLastNamed(syms, c, parent.index))
      && j in Sources(Parents(syms), parent, |syms|)
      && forall p :: p != parent ==> j !in Sources(Parents(syms), p, |syms|)
  {
    ResolveSpec(syms, syms[j].containerName);
  }

  /** The children of `p` are the nodes pushed by `p`'s source symbols, in input order. */
  lemma ChildrenInInputOrder(syms: seq<Symbol>, p: NodeRef)
    ensures var src := Sources(Parents(syms), p, |syms|);
      |Children(syms, p)| == |src| &&
      forall q :: 0 <= q < |src| ==> Children(syms, p)[q] == Target(syms, src[q])
  {
    PushesFollowSources(Parents(syms), Targets(syms), p, |syms|);
  }

  /**
   * On a name collision only the last symbol's node is ever pushed, so the
   * fields of earlier duplicates never appear in any children list.
   */
  lemma ChildrenAreLastOfName(syms: seq<Symbol>, p: NodeRef, q: nat)
    requires q < |Children(syms, p)|
    ensures var t := Children(syms, p)[q]; t < |syms| && IsLastNamed(syms, syms[t].name, t)
  {
    ChildrenInInputOrder(syms, p);
  }

  /** The node of an earlier duplicate never receives children. */
  lemma DuplicateHasNoChildren(syms: seq<Symbol>, i: nat)
    requires i < |syms| && !IsLastNamed(syms, syms[i].name, i)
    ensures Children(syms, Node(i)) == []
  {
    var src := Sources(Parents(syms), Node(i), |syms|);
    if |src| > 0 {
      ResolveSpec(syms, syms[src[0]].containerName);
    }
    ChildrenInInputOrder(syms, Node(i));
  }

  /** The sum of the children counts of nodes `0 .. m-1` after `k` steps. */
  function ChildCount(parents: seq<NodeRef>, targets: seq<nat>, k: nat, m: nat): nat
    requires k <= |parents| == |targets|
  {
    if m == 0 then 0 else ChildCount(parents, targets, k, m - 1) + |Pushes(parents, targets, Node(m - 1), k)|
  }

  lemma {:induction false} ChildCountStep(parents: seq<NodeRef>, targets: seq<nat>, k: nat, m: nat)
    requires k < |parents| == |targets|
    ensures ChildCount(parents, targets, k + 1, m) ==
            ChildCount(parents, targets, k, m) + (if parents[k].Node? && parents[k].index < m then 1 else 0)
  {
    if m > 0 {
      ChildCountStep(parents, targets, k, m - 1);
    }
  }

  lemma {:induction false} ChildCountNone(parents: seq<NodeRef>, targets: seq<nat>, m: nat)
    requires |parents| == |targets|
    ensures ChildCount(parents, targets, 0, m) == 0
  {
    if m > 0 {
      ChildCountNone(parents, targets, m - 1);
    }
  }

  /** After `k` steps the root's and the nodes' children lists hold `k` entries in all. */
  lemma {:induction false} PushCountAfter(parents: seq<NodeRef>, targets: seq<nat>, k: nat)
    requires k <= |parents| == |targets| && ParentsInRange(parents)
    ensures |Pushes(parents, targets, Root, k)| + ChildCount(parents, targets, k, |parents|) == k
  {
    if k > 0 {
      PushCountAfter(parents, targets, k - 1);
      ChildCountStep(parents, targets, k - 1, |parents|);
    } else {
      ChildCountNone(parents, targets, |parents|);
    }
  }

  /** Each input symbol causes exactly one push. */
  lemma PushCount(syms: seq<Symbol>)
    ensures |TopLevel(syms)| + ChildCount(Parents(syms), Targets(syms), |syms|, |syms|) == |syms|
  {
    ParentsOfSymbolsInRange(syms);
    PushCountAfter(Parents(syms), Targets(syms), |syms|);
  }

  /** The node objects after the second loop has made its first `k` pushes. */
  ghost predicate NodesAfter(syms: seq<Symbol>, parents: seq<NodeRef>, targets: seq<nat>, nodes: seq<TreeNode>, k: nat)
    requires k <= |parents| == |targets|
  {
    |nodes| == |syms| &&
    forall i :: 0 <= i < |syms| ==> nodes[i] == NewNode(syms[i]).(children := Pushes(parents, targets, Node(i), k))
  }

  /** Before the second loop every node has the empty children list it was created with. */
  lemma NodesAfterNone(syms: seq<Symbol>, parents: seq<NodeRef>, targets: seq<nat>, nodes: seq<TreeNode>)
    requires |parents| == |targets|
    requires |nodes| == |syms| && forall i :: 0 <= i < |syms| ==> nodes[i] == NewNode(syms[i])
    ensures NodesAfter(syms, parents, targets, nodes, 0)
  {
  }

  /** After the last push every node holds exactly its `Children`. */
  lemma NodesAfterAll(syms: seq<Symbol>, nodes: seq<TreeNode>)
    requires NodesAfter(syms, Parents(syms), Targets(syms), nodes, |syms|)
    ensures |nodes| == |syms|
    ensures forall i :: 0 <= i < |syms| ==> nodes[i] == NewNode(syms[i]).(children := Children(syms, Node(i)))
  {
  }

  /** `parent.children.push(t)` on the root's list or on one node object. */
  function PushOnto(rootChildren: seq<nat>, nodes: seq<TreeNode>, parent: NodeRef, t: nat): (seq<nat>, seq<TreeNode>)
    requires parent.Node? ==> parent.index < |nodes|
  {
    match parent
    case Root => (rootChildren + [t], nodes)
    case Node(i) => (rootChildren, nodes[i := nodes[i].(children := nodes[i].children + [t])])
  }

  /** Step `k` of the second loop extends exactly the list of step `k`'s parent. */
  lemma PushStep(syms: seq<Symbol>, parents: seq<NodeRef>, targets: seq<nat>,
                 rootChildren: seq<nat>, nodes: seq<TreeNode>, k: nat)
    requires k < |parents| == |targets| && |syms| == |parents| && ParentsInRange(parents)
    requires rootChildren == Pushes(parents, targets, Root, k) && NodesAfter(syms, parents, targets, nodes, k)
    ensures PushOnto(rootChildren, nodes, parents[k], targets[k]).0 == Pushes(parents, targets, Root, k + 1)
    ensures NodesAfter(syms, parents, targets, PushOnto(rootChildren, nodes, parents[k], targets[k]).1, k + 1)
  {
  }

  /** The builder's working state: the dictionary, the node objects and the root's children. */
  class TreeBuilder {
    var table: map<string, NodeRef>
    var nodes: seq<TreeNode>
    var rootChildren: seq<nat>

    /** `root = { name: "<root>", children: [] }` and `map = { "<root>": root }`. */
    constructor ()
      ensures table == map[RootName := Root] && nodes == [] && rootChildren == []
    {
      table := map[RootName := Root];
      nodes := [];
      rootChildren := [];
    }

    /** The first loop: a fresh node per symbol, stored under its name. */
    method IndexSymbols(syms: seq<Symbol>)
      requires table == map[RootName := Root] && nodes == []
      modifies this
      ensures table == Table(syms)
      ensures |nodes| == |syms| && forall i :: 0 <= i < |syms| ==> nodes[i] == NewNode(syms[i])
      ensures rootChildren == old(rootChildren)
    {
      var k := 0;
      while k < |syms|
        invariant k <= |syms|
        invariant table == Table(syms[..k])
        invariant |nodes| == k && forall i :: 0 <= i < k ==> nodes[i] == NewNode(syms[i])
        invariant rootChildren == old(rootChildren)
      {
        assert syms[..k + 1][..k] == syms[..k];
        nodes := nodes + [NewNode(syms[k])];
        table := table[syms[k].name := Node(k)];
        k := k + 1;
      }
      assert syms[..k] == syms;
    }

    /** The second loop: push each symbol's node onto its parent. */
    method AttachSymbols(syms: seq<Symbol>)
      requires table == Table(syms) && rootChildren == []
      requires NodesAfter(syms, Parents(syms), Targets(syms), nodes, 0)
      modifies this
      ensures table == old(table)
      ensures rootChildren == Children(syms, Root)
      ensures NodesAfter(syms, Parents(syms), Targets(syms), nodes, |syms|)
    {
      var k := 0;
      while k < |syms|
        invariant k <= |syms| && table == Table(syms)
        invariant rootChildren == Pushes(Parents(syms), Targets(syms), Root, k)
        invariant NodesAfter(syms, Parents(syms), Targets(syms), nodes, k)
      {
        AttachOne(syms, k);
        k := k + 1;
      }
    }

    /** One iteration of the second loop: `parent.children.push(map[s.name])` for symbol `k`. */
    method AttachOne(syms: seq<Symbol>, k: nat)
      requires k < |syms| && table == Table(syms)
      requires rootChildren == Pushes(Parents(syms), Targets(syms), Root, k)
      requires NodesAfter(syms, Parents(syms), Targets(syms), nodes, k)
      modifies this
      ensures table == old(table)
      ensures rootChildren == Pushes(Parents(syms), Targets(syms), Root, k + 1)
      ensures NodesAfter(syms, Parents(syms), Targets(syms), nodes, k + 1)
    {
      var s := syms[k];
      LookupResolves(syms, s.containerName);
      TableLookup(syms, s.name);
      ParentsOfSymbolsInRange(syms);
      var parent := Lookup(table, s.containerName);
      var node := table[s.name];
      assert parent == Parents(syms)[k] && node == Node(Targets(syms)[k]);
      PushStep(syms, Parents(syms), Targets(syms), rootChildren, nodes, k);
      var pushed := PushOnto(rootChildren, nodes, parent, node.index);
      rootChildren, nodes := pushed.0, pushed.1;
    }
  }

  /**
   * `buildTree`: the top-level list, together with the node objects it links
   * to. Each node copies its symbol's fields, and its children are exactly
   * the pushes `Children` describes.
   */
  method BuildTree(syms: seq<Symbol>) returns (top: seq<nat>, nodes: seq<TreeNode>)
    ensures top == TopLevel(syms)
    ensures |nodes| == |syms|
    ensures forall i :: 0 <= i < |syms| ==>
              nodes[i] == NewNode(syms[i]).(children := Children(syms, Node(i)))
  {
    var builder := new TreeBuilder();
    builder.IndexSymbols(syms);
    NodesAfterNone(syms, Parents(syms), Targets(syms), builder.nodes);
    builder.AttachSymbols(syms);
    NodesAfterAll(syms, builder.nodes);
    top, nodes := builder.rootChildren, builder.nodes;
  }

  /** A container found by name: `Foo` at the top with `bar` as its only child. */
  lemma ExampleContainer()
    ensures var syms := [Symbol("Foo", 4, "", []), Symbol("bar", 5, "Foo", [])];
      TopLevel(syms) == [0] && Children(syms, Node(0)) == [1] && Children(syms, Node(1)) == []
  {
    var syms := [Symbol("Foo", 4, "", []), Symbol("bar", 5, "Foo", [])];
    assert syms[..1] == [syms[0]];
    assert LastIndexOf(syms, "Foo") == 0 && LastIndexOf(syms, "bar") == 1;
    assert Resolve(syms, "") == Root;
    var parents, targets := Parents(syms), Targets(syms);
    assert parents == [Root, Node(0)] && targets == [0, 1];
    assert Pushes(parents, targets, Root, 1) == [0] && Pushes(parents, targets, Root, 2) == [0];
    assert Pushes(parents, targets, Node(0), 1) == [] && Pushes(parents, targets, Node(0), 2) == [1];
    assert Pushes(parents, targets, Node(1), 1) == [] && Pushes(parents, targets, Node(1), 2) == [];
  }

  /**
   * A duplicate name whose second symbol names itself as container: both
   * pushes use the second node, which therefore sits at the top and is its
   * own child.
   */
  lemma ExampleSelfContainer()
    ensures var syms := [Symbol("x", 12, "", []), Symbol("x", 12, "x", [])];
      TopLevel(syms) == [1] && Children(syms, Node(1)) == [1] && Children(syms, Node(0)) == []
  {
    var syms := [Symbol("x", 12, "", []), Symbol("x", 12, "x", [])];
    assert LastIndexOf(syms, "x") == 1;
    assert Resolve(syms, "") == Root;
    var parents, targets := Parents(syms), Targets(syms);
    assert parents == [Root, Node(1)] && targets == [1, 1];
    assert Pushes(parents, targets, Root, 1) == [1] && Pushes(parents, targets, Root, 2) == [1];
    assert Pushes(parents, targets, Node(1), 1) == [] && Pushes(parents, targets, Node(1), 2) == [1];
    assert Pushes(parents, targets, Node(0), 1) == [] && Pushes(parents, targets, Node(0), 2) == [];
  }

  /** Outline rows stay expanded for the first two levels. */
  const AutoExpandLevels: nat := 2

  /** One rendered outline row and its `open` flag. */
  class OutlineRow {
    const node: TreeNode
    const level: nat
    var open: bool

    /** `useState(level < 2)`. */
    constructor (node: TreeNode, level: nat)
      ensures this.node == node && this.level == level
      ensures open <==> level < AutoExpandLevels
    {
      this.node := node;
      this.level := level;
      open := level < AutoExpandLevels;
    }

    /** The toggle arrow is shown only for a node with at least one child. */
    predicate HasChildren()
    {
      |node.children| > 0
    }

    /** The children are rendered when the row is open and has a child. */
    predicate ShowsChildren()
      reads this
    {
      open && HasChildren()
    }

    /** A click on the toggle arrow, which exists only when the node has children. */
    method Toggle()
      requires HasChildren()
      modifies this
      ensures open == !old(open)
      ensures ShowsChildren() == !old(ShowsChildren())
    {
      open := !open;
    }

    /** Children are rendered one level deeper. */
    function ChildLevel(): (l: nat)
      ensures l == level + 1
      ensures l < AutoExpandLevels <==> level == 0
    {
      level + 1
    }

    /**
     * The row of one child, rendered at `ChildLevel()`: it starts open exactly
     * when this row is a top-level row, so only the first two levels expand.
     */
    method ChildRow(child: TreeNode) returns (row: OutlineRow)
      ensures fresh(row)
      ensures row.node == child && row.level == ChildLevel()
      ensures row.open <==> level == 0
    {
      row := new OutlineRow(child, ChildLevel());
    }
  }
}
