// The project management tree view (projectManagementTreeView.ts): projects,
// versions and cycles; expanding a cycle hands its test themes to the test
// theme view.

module ProjectTreeView {
  import opened Wrappers
  import opened TreeItems
  import opened CycleTree
  import opened ThemeTreeView

  /** The cycle structure the server returns: its root node and the flat node list. */
  datatype CycleStructure = CycleStructure(root: CycleNode, nodes: seq<CycleNode>)

  /** `createTreeItem`: cycles cannot be expanded, everything else starts collapsed. */
  function ProjectNodeState(data: ProjectNode): (s: CollapsibleState)
    ensures s == NotCollapsible <==> data.nodeType == "Cycle"
    ensures s != Expanded
  {
    if data.nodeType == "Cycle" then NotCollapsible else Collapsed
  }

  /** `t` is the item `createTreeItem(data, parent)` makes. */
  ghost predicate CreatedFrom(t: TreeItem, data: ProjectNode, parent: TreeItem?)
    reads t
  {
    t.labelText == data.name && t.contextValue == data.nodeType &&
    t.item == ProjectData(data) && t.parent == parent &&
    t.collapsibleState == ProjectNodeState(data) && t.children.None?
  }

  method CreateTreeItem(data: Option<ProjectNode>, parent: TreeItem?) returns (t: TreeItem?)
    requires parent != null ==> parent.Linked()
    ensures data.None? <==> t == null
    ensures t != null ==> fresh(t) && t.Linked() && CreatedFrom(t, data.value, parent)
  {
    if data.None? {
      return null;
    }
    t := new TreeItem(data.value.name, data.value.nodeType, ProjectNodeState(data.value),
                      ProjectData(data.value), parent);
  }

  /** `element.item.children ?? []`. */
  function ChildData(d: ItemData): (r: seq<ProjectNode>)
    ensures d.CycleData? ==> r == []
  {
    match d
    case ProjectData(p) => p.children.GetOr([])
    case CycleData(_) => []
  }

  /** The `map(createTreeItem).filter(non-null)` over the children data. */
  method CreateChildItems(element: TreeItem) returns (items: seq<TreeItem>)
    requires element.Linked()
    ensures |items| == |ChildData(element.item)|
    ensures forall i :: 0 <= i < |items| ==>
              fresh(items[i]) && items[i].Linked() && CreatedFrom(items[i], ChildData(element.item)[i], element)
  {
    var data := ChildData(element.item);
    items := [];
    for i := 0 to |data|
      invariant |items| == i
      invariant forall j :: 0 <= j < i ==>
                  fresh(items[j]) && items[j].Linked() && CreatedFrom(items[j], data[j], element)
    {
      var t := CreateTreeItem(Some(data[i]), element);
      items := items + [t];
    }
  }

  /** A key is usable only when present and non-empty. */
  predicate Truthy(key: Option<string>)
  {
    key.Some? && key.value != ""
  }

  /** `findProjectKeyOfCycleElement`: cycles only, nearest Project on the parent chain. */
  method FindProjectKeyOfCycleElement(element: TreeItem) returns (key: Option<string>)
    requires element.Linked()
    ensures element.contextValue != "Cycle" ==> key == None
    ensures element.contextValue == "Cycle" ==> key == ChainKey(element, "Project")
  {
    if element.contextValue != "Cycle" {
      return None;
    }
    key := KeyOfFirstOnChain(element, "Project");
  }

  /** `findCycleKeyOfTreeElement`: themes and test case sets only, nearest Cycle on the chain. */
  method FindCycleKeyOfTreeElement(element: TreeItem) returns (key: Option<string>)
    requires element.Linked()
    ensures element.contextValue != "TestThemeNode" && element.contextValue != "TestCaseSetNode" ==>
              key == None
    ensures element.contextValue == "TestThemeNode" || element.contextValue == "TestCaseSetNode" ==>
              key == ChainKey(element, "Cycle")
  {
    if element.contextValue != "TestThemeNode" && element.contextValue != "TestCaseSetNode" {
      return None;
    }
    key := KeyOfFirstOnChain(element, "Cycle");
  }

  /** What `getChildrenOfCycle` builds, or `None` when it returns [] early. */
  ghost function CycleBuildSpec(element: TreeItem, connected: bool, cycleData: Option<CycleStructure>)
    : (r: Option<seq<Built>>)
    ensures r.Some? ==> element.contextValue == "Cycle" && connected && cycleData.Some? &&
                        0 < |cycleData.value.nodes| && |r.value| <= |cycleData.value.nodes|
  {
    var projectKey := if element.contextValue != "Cycle" then None else ChainKey(element, "Project");
    if !Truthy(projectKey) || !connected then None
    else match cycleData
      case None => None
      case Some(c) =>
        if c.nodes == [] then None
        else Some(TreeSpec(Indexed(c.nodes), c.root.base.key))
  }

  /**
   * Whatever a cycle yields hangs directly below the cycle structure's root,
   * contains no TestCaseNode at any depth, and consists of the server's nodes.
   */
  lemma CycleChildrenComeFromTheCycle(element: TreeItem, connected: bool, cycleData: Option<CycleStructure>)
    requires CycleBuildSpec(element, connected, cycleData).Some?
    ensures cycleData.Some? && cycleData.value.nodes != []
    ensures forall b :: b in CycleBuildSpec(element, connected, cycleData).value ==>
              WellBuilt(b, Indexed(cycleData.value.nodes)) &&
              b.data.base.parentKey == Some(cycleData.value.root.base.key) &&
              b.data in cycleData.value.nodes
  {
    var c := cycleData.value;
    TreeHasNoTestCases(Indexed(c.nodes), c.root.base.key);
    IndexedValuesAreNodes(c.nodes);
  }

  method GetChildrenOfCycle(element: TreeItem, connected: bool, cycleData: Option<CycleStructure>)
    returns (children: seq<TreeItem>, ghost shapes: seq<Shape>, ghost repr: set<TreeItem>)
    requires element.Linked()
    modifies element
    ensures fresh(repr)
    ensures element.collapsibleState == old(element.collapsibleState)
    ensures CycleBuildSpec(element, connected, cycleData).None? ==>
              children == [] && element.children == old(element.children)
    ensures CycleBuildSpec(element, connected, cycleData).Some? ==>
              var spec := CycleBuildSpec(element, connected, cycleData).value;
              element.children == Some(children) && Roots(shapes) == children && |shapes| == |spec| &&
              (forall i :: 0 <= i < |spec| ==> Realizes(shapes[i], spec[i], element, repr)) &&
              Mirrors(Shape(element, true, shapes), repr + {element})
  {
    children, shapes, repr := [], [], {};
    var projectKey := FindProjectKeyOfCycleElement(element);
    if projectKey.None? || projectKey.value == "" {
      return;
    }
    if !connected {
      return;
    }
    if cycleData.None? || |cycleData.value.nodes| == 0 {
      return;
    }
    var values := IndexByKey(cycleData.value.nodes);
    ghost var spec := CycleBuildSpec(element, connected, cycleData).value;
    assert spec == LevelSpec(values, values, cycleData.value.root.base.key, |values|);
    children, shapes, repr := BuildTree(values, cycleData.value.root.base.key, |values|, element);
    element.children := Some(children);
    assert CycleBuildSpec(element, connected, cycleData).value == spec;
    forall i | 0 <= i < |shapes|
      ensures Mirrors(shapes[i], repr + {element})
    {
      RealizesMirrors(shapes[i], spec[i], element, repr);
      MirrorsGrows(shapes[i], repr, repr + {element});
    }
  }

  class ProjectManagementTreeDataProvider {
    var rootItem: TreeItem?
    var currentProjectKeyInView: Option<string>
    const themes: TestThemeTreeDataProvider
    /** How many change events `refresh` has fired. */
    var refreshCount: nat

    ghost predicate Valid()
      reads this
    {
      rootItem != null ==> rootItem.Linked()
    }

    constructor (projectKey: Option<string>, themes: TestThemeTreeDataProvider)
      ensures Valid() && rootItem == null && currentProjectKeyInView == projectKey
      ensures this.themes == themes && refreshCount == 0
    {
      rootItem := null;
      currentProjectKeyInView := projectKey;
      this.themes := themes;
      refreshCount := 0;
    }

    method Refresh()
      modifies this
      ensures rootItem == old(rootItem) && currentProjectKeyInView == old(currentProjectKeyInView)
      ensures refreshCount == old(refreshCount) + 1
    {
      refreshCount := refreshCount + 1;
    }

    /** Clears the theme view, then hands it what the cycle yields. */
    method HandleTestCycleClick(item: TreeItem, connected: bool, cycleData: Option<CycleStructure>)
      returns (ghost shapes: seq<Shape>, ghost repr: set<TreeItem>)
      requires item.Linked()
      modifies themes, item
      ensures item.collapsibleState == old(item.collapsibleState)
      ensures item.contextValue != "Cycle" ==> unchanged(themes) && unchanged(item)
      ensures item.contextValue == "Cycle" ==>
                themes.refreshCount == old(themes.refreshCount) + 2 &&
                match CycleBuildSpec(item, connected, cycleData)
                case None => themes.rootElements == [] && item.children == old(item.children)
                case Some(spec) => item.children == Some(themes.rootElements) &&
                                   fresh(repr) && Roots(shapes) == themes.rootElements && |shapes| == |spec| &&
                                   forall i :: 0 <= i < |spec| ==> Realizes(shapes[i], spec[i], item, repr)
    {
      shapes, repr := [], {};
      if item.contextValue == "Cycle" {
        themes.ClearTree();
        var children;
        children, shapes, repr := GetChildrenOfCycle(item, connected, cycleData);
        themes.SetRoots(children);
      }
    }

    /**
     * `getChildren(element?)`. Without an element the root item set by
     * `makeRoot` stands in for it; with neither, the project tree is fetched
     * and its root returned. A cycle's children go to the theme view.
     */
    method GetChildren(element: TreeItem?, connected: bool, projectTree: Option<ProjectNode>,
                       cycleData: Option<CycleStructure>)
      returns (r: seq<TreeItem>, ghost shapes: seq<Shape>, ghost repr: set<TreeItem>)
      requires Valid()
      requires element != null ==> element.Linked()
      modifies themes, element, rootItem
      ensures unchanged(this)
      ensures !connected ==>
                r == [] && unchanged(themes) &&
                (element != null ==> unchanged(element)) && (rootItem != null ==> unchanged(rootItem))
      ensures connected && element == null && rootItem == null ==>
                unchanged(themes) &&
                |r| == (if projectTree.Some? then 1 else 0) &&
                (projectTree.Some? ==> fresh(r[0]) && r[0].Linked() && CreatedFrom(r[0], projectTree.value, null))
      ensures connected && (element != null || rootItem != null) ==>
                var e := if element != null then element else rootItem;
                e.collapsibleState == old(e.collapsibleState) &&
                (e.contextValue == "Cycle" ==>
                   r == [] && themes.refreshCount == old(themes.refreshCount) + 2 &&
                   (CycleBuildSpec(e, true, cycleData).None? ==> themes.rootElements == []) &&
                   (CycleBuildSpec(e, true, cycleData).Some? ==>
                      var spec := CycleBuildSpec(e, true, cycleData).value;
                      e.children == Some(themes.rootElements) &&
                      fresh(repr) && Roots(shapes) == themes.rootElements && |shapes| == |spec| &&
                      forall i :: 0 <= i < |spec| ==> Realizes(shapes[i], spec[i], e, repr))) &&
                (e.contextValue != "Cycle" && old(e.children).Some? ==>
                   r == old(e.children).value && unchanged(themes) && unchanged(e)) &&
                (e.contextValue != "Cycle" && old(e.children).None? ==>
                   unchanged(themes) && unchanged(e) && |r| == |ChildData(e.item)| &&
                   forall i :: 0 <= i < |r| ==>
                     fresh(r[i]) && CreatedFrom(r[i], ChildData(e.item)[i], e))
      decreases if element == null then 1 else 0
    {
      shapes, repr := [], {};
      if !connected {
        return [], shapes, repr;
      }
      if element == null {
        if rootItem != null {
          r, shapes, repr := GetChildren(rootItem, connected, projectTree, cycleData);
          return;
        }
        var root := CreateTreeItem(projectTree, null);
        return if root != null then [root] else [], shapes, repr;
      }
      if element.contextValue == "Cycle" {
        shapes, repr := HandleTestCycleClick(element, connected, cycleData);
        return [], shapes, repr;
      } else if element.children.Some? {
        return element.children.value, shapes, repr;
      }
      r := CreateChildItems(element);
    }

    method MakeRoot(treeItem: TreeItem)
      requires treeItem.Linked()
      modifies this
      ensures Valid() && rootItem == treeItem
      ensures currentProjectKeyInView == old(currentProjectKeyInView)
      ensures refreshCount == old(refreshCount) + 1
    {
      rootItem := treeItem;
      Refresh();
    }

    /**
     * Records the expansion state; expanding also runs the cycle click
     * handler, which acts on cycles only.
     */
    method HandleExpansion(element: TreeItem, expanded: bool, connected: bool,
                           cycleData: Option<CycleStructure>)
      returns (ghost shapes: seq<Shape>, ghost repr: set<TreeItem>)
      requires element.Linked()
      modifies element, themes
      ensures unchanged(this)
      ensures element.collapsibleState == (if expanded then Expanded else Collapsed)
      ensures !expanded || element.contextValue != "Cycle" ==>
                unchanged(themes) && element.children == old(element.children)
      ensures expanded && element.contextValue == "Cycle" ==>
                themes.refreshCount == old(themes.refreshCount) + 2 &&
                match CycleBuildSpec(element, connected, cycleData)
                case None => themes.rootElements == []
                case Some(spec) => element.children == Some(themes.rootElements) &&
                                   fresh(repr) && Roots(shapes) == themes.rootElements && |shapes| == |spec| &&
                                   forall i :: 0 <= i < |spec| ==> Realizes(shapes[i], spec[i], element, repr)
    {
      shapes, repr := [], {};
      element.collapsibleState := if expanded then Expanded else Collapsed;
      if expanded {
        shapes, repr := HandleTestCycleClick(element, connected, cycleData);
      }
    }

    method ClearTree()
      requires Valid()
      modifies this, themes
      ensures Valid() && rootItem == null
      ensures currentProjectKeyInView == old(currentProjectKeyInView)
      ensures refreshCount == old(refreshCount) + 1
      ensures themes.rootElements == [] && themes.refreshCount == old(themes.refreshCount) + 1
    {
      themes.ClearTree();
      rootItem := null;
      Refresh();
    }
  }
}
