// Tree items shown in the project management view and the test theme view.
// A project tree node (Project, Version, Cycle) and a cycle structure node
// (TestThemeNode, TestCaseSetNode, TestCaseNode) both end up as the `item`
// payload of a TreeItem.

module TreeItems {
  import opened Wrappers

  /** vscode.TreeItemCollapsibleState: None, Collapsed, Expanded. */
  datatype CollapsibleState = NotCollapsible | Collapsed | Expanded

  /** A node of the project tree returned by the server (Project, Version, Cycle). */
  datatype ProjectNode = ProjectNode(
    nodeType: string,
    key: string,
    name: string,
    children: Option<seq<ProjectNode>>)

  /** The `base` record of a cycle structure node; absent fields are `None`. */
  datatype NodeBase = NodeBase(
    key: string,
    parentKey: Option<string>,
    numbering: Option<string>,
    name: Option<string>,
    uniqueID: Option<string>)

  /** A node of a cycle structure (TestThemeNode, TestCaseSetNode, TestCaseNode). */
  datatype CycleNode = CycleNode(base: NodeBase, elementType: string)

  /** What a TreeItem carries as its `item`. */
  datatype ItemData = ProjectData(project: ProjectNode) | CycleData(node: CycleNode)

  /** `item.key`: only project tree nodes have a top-level key. */
  function ItemKey(d: ItemData): (k: Option<string>)
    ensures k.Some? <==> d.ProjectData?
    ensures d.ProjectData? ==> k.value == d.project.key
  {
    match d
    case ProjectData(p) => Some(p.key)
    case CycleData(_) => None
  }

  /**
   * A tree item. Its label, type, payload and parent never change after
   * construction; its collapsible state and children are updated in place.
   * `ancestors` is the parent chain, nearest first; `Linked` says it is the
   * chain the `parent` links really form, so every chain is finite.
   */
  class TreeItem {
    const labelText: string
    const contextValue: string
    const item: ItemData
    const parent: TreeItem?
    ghost const ancestors: seq<TreeItem>
    var collapsibleState: CollapsibleState
    var children: Option<seq<TreeItem>>

    ghost predicate Linked()
      decreases |ancestors|
    {
      if parent == null then ancestors == []
      else
        |ancestors| > 0 && ancestors[0] == parent &&
        parent.ancestors == ancestors[1..] && parent.Linked()
    }

    /** The item itself followed by its ancestors. */
    ghost function Chain(): (c: seq<TreeItem>)
    {
      [this] + ancestors
    }

    constructor (labelText: string, contextValue: string, state: CollapsibleState,
                 item: ItemData, parent: TreeItem?)
      requires parent != null ==> parent.Linked()
      ensures this.labelText == labelText && this.contextValue == contextValue
      ensures this.item == item && this.parent == parent
      ensures collapsibleState == state && children == None
      ensures Linked()
    {
      this.labelText := labelText;
      this.contextValue := contextValue;
      this.item := item;
      this.parent := parent;
      this.ancestors := if parent == null then [] else [parent] + parent.ancestors;
      this.collapsibleState := state;
      this.children := None;
    }
  }

  /** The first item of `chain` whose type is `context`, if any. */
  function FirstOfContext(chain: seq<TreeItem>, context: string): (r: Option<TreeItem>)
    ensures r.Some? ==> r.value in chain && r.value.contextValue == context
    ensures r.Some? ==> exists i :: 0 <= i < |chain| && chain[i] == r.value &&
                          forall j :: 0 <= j < i ==> chain[j].contextValue != context
    ensures r.None? <==> forall x :: x in chain ==> x.contextValue != context
  {
    if chain == [] then None
    else if chain[0].contextValue == context then Some(chain[0])
    else
      FirstOfContext(chain[1..], context)
  }

  /**
   * The key of the first item of type `context` on the chain from `element`;
   * `None` when there is none or it carries no key.
   */
  ghost function ChainKey(element: TreeItem, context: string): Option<string>
  {
    match FirstOfContext(element.Chain(), context)
    case None => None
    case Some(x) => ItemKey(x.item)
  }

  /** The `while (currentElement)` walk along the parent links. */
  method KeyOfFirstOnChain(element: TreeItem, context: string) returns (key: Option<string>)
    requires element.Linked()
    ensures key == ChainKey(element, context)
  {
    var current: TreeItem? := element;
    while current != null
      invariant current != null ==> current.Linked()
      invariant current != null ==>
        FirstOfContext(element.Chain(), context) == FirstOfContext(current.Chain(), context)
      invariant current == null ==> FirstOfContext(element.Chain(), context) == None
      decreases if current == null then 0 else |current.ancestors| + 1
    {
      if current.contextValue == context {
        return ItemKey(current.item);
      }
      assert current.Chain()[1..] == current.ancestors;
      if current.parent != null {
        assert current.ancestors == current.parent.Chain();
      }
      current := current.parent;
    }
    return None;
  }

  /**
   * The ghost shape of an item tree: each node, whether its children are
   * set, and the shapes of those children.
   */
  datatype Shape = Shape(node: TreeItem, childrenSet: bool, kids: seq<Shape>)

  function Roots(ss: seq<Shape>): (r: seq<TreeItem>)
    ensures |r| == |ss|
    ensures forall i :: 0 <= i < |ss| ==> r[i] == ss[i].node
  {
    if ss == [] then [] else [ss[0].node] + Roots(ss[1..])
  }

  /** The `children` fields of the items in `repr` are the ones `s` describes. */
  ghost predicate Mirrors(s: Shape, repr: set<TreeItem>)
    reads repr
    decreases s
  {
    s.node in repr &&
    (if s.childrenSet then s.node.children == Some(Roots(s.kids))
     else s.node.children.None? && s.kids == []) &&
    forall k :: k in s.kids ==> Mirrors(k, repr)
  }

  lemma {:induction false} MirrorsGrows(s: Shape, r1: set<TreeItem>, r2: set<TreeItem>)
    requires r1 <= r2 && Mirrors(s, r1)
    ensures Mirrors(s, r2)
    decreases s
  {
    forall k | k in s.kids
      ensures Mirrors(k, r2)
    {
      MirrorsGrows(k, r1, r2);
    }
  }
}
