// Building the test theme tree of a test cycle from the flat node list the
// server returns (projectManagementTreeView.ts, getChildrenOfCycle).
// The nodes are first indexed by key in a JavaScript Map; `buildTree` then
// selects, level by level, the nodes naming the current key as parent.

module CycleTree {
  import opened Wrappers
  import opened TreeItems
  import opened Text

  // ---------------------------------------------------------------------
  // The key map: JavaScript Map semantics over a sequence of values.
  // ---------------------------------------------------------------------

  /** Position of the first node with key `k`. */
  function KeyIndex(ns: seq<CycleNode>, k: string): (r: Option<nat>)
    ensures r.Some? ==> r.value < |ns| && ns[r.value].base.key == k
    ensures r.Some? ==> forall j :: 0 <= j < r.value ==> ns[j].base.key != k
    ensures r.None? <==> forall j :: 0 <= j < |ns| ==> ns[j].base.key != k
  {
    if ns == [] then None
    else if ns[0].base.key == k then Some(0)
    else match KeyIndex(ns[1..], k)
      case None => None
      case Some(i) => Some(i + 1)
  }

  /** `map.set(n.base.key, n)`: an existing key keeps its place and takes the new value. */
  function MapSet(vals: seq<CycleNode>, n: CycleNode): (r: seq<CycleNode>)
    ensures n in r
    ensures |r| == |vals| + (if KeyIndex(vals, n.base.key).Some? then 0 else 1)
    ensures forall i :: 0 <= i < |vals| && vals[i].base.key != n.base.key ==> r[i] == vals[i]
  {
    match KeyIndex(vals, n.base.key)
    case Some(i) => assert vals[i := n][i] == n; vals[i := n]
    case None => vals + [n]
  }

  /** `map.values()` after setting every node of `nodes` in order. */
  function Indexed(nodes: seq<CycleNode>): (r: seq<CycleNode>)
    ensures |r| <= |nodes|
    ensures nodes != [] ==> nodes[|nodes| - 1] in r
    decreases |nodes|
  {
    if nodes == [] then []
    else MapSet(Indexed(nodes[..|nodes| - 1]), nodes[|nodes| - 1])
  }

  /** The last node of `ns` with key `k`. */
  function LastWithKey(ns: seq<CycleNode>, k: string): (r: Option<CycleNode>)
    ensures r.Some? ==> exists i :: 0 <= i < |ns| && ns[i] == r.value && ns[i].base.key == k &&
                                    forall j :: i < j < |ns| ==> ns[j].base.key != k
    ensures r.None? <==> forall j :: 0 <= j < |ns| ==> ns[j].base.key != k
    decreases |ns|
  {
    if ns == [] then None
    else if ns[|ns| - 1].base.key == k then Some(ns[|ns| - 1])
    else
      var r := LastWithKey(ns[..|ns| - 1], k);
      assert forall j :: 0 <= j < |ns| - 1 ==> ns[..|ns| - 1][j] == ns[j];
      r
  }

  /** The `forEach` loop that fills the key map. */
  method IndexByKey(nodes: seq<CycleNode>) returns (vals: seq<CycleNode>)
    ensures vals == Indexed(nodes)
  {
    vals := [];
    for i := 0 to |nodes|
      invariant vals == Indexed(nodes[..i])
    {
      assert nodes[..i + 1][..i] == nodes[..i];
      vals := MapSet(vals, nodes[i]);
    }
    assert nodes[..|nodes|] == nodes;
  }

  lemma KeyIndexSnoc(ns: seq<CycleNode>, x: CycleNode, k: string)
    ensures KeyIndex(ns + [x], k) ==
      (if KeyIndex(ns, k).Some? then KeyIndex(ns, k)
       else if x.base.key == k then Some(|ns|) else None)
  {
    var r := KeyIndex(ns + [x], k);
    assert forall j :: 0 <= j < |ns| ==> (ns + [x])[j] == ns[j];
    if KeyIndex(ns, k).Some? {
      var i := KeyIndex(ns, k).value;
      assert (ns + [x])[i].base.key == k;
    } else if x.base.key == k {
      assert (ns + [x])[|ns|].base.key == k;
    }
  }

  lemma {:induction false} SameKeysSameIndex(a: seq<CycleNode>, b: seq<CycleNode>, k: string)
    requires |a| == |b| && forall j :: 0 <= j < |a| ==> a[j].base.key == b[j].base.key
    ensures KeyIndex(a, k) == KeyIndex(b, k)
    decreases |a|
  {
    if a != [] {
      SameKeysSameIndex(a[1..], b[1..], k);
    }
  }

  /** The effect of one `set` on the key positions of the map. */
  lemma MapSetKeyIndex(vals: seq<CycleNode>, n: CycleNode, k: string)
    ensures KeyIndex(MapSet(vals, n), k) ==
      (if KeyIndex(vals, k).Some? then KeyIndex(vals, k)
       else if n.base.key == k then Some(|vals|) else None)
  {
    match KeyIndex(vals, n.base.key)
    case Some(i) =>
      SameKeysSameIndex(vals[i := n], vals, k);
    case None =>
      KeyIndexSnoc(vals, n, k);
  }

  lemma {:induction false} IndexedKeysAreDistinct(nodes: seq<CycleNode>)
    ensures forall i, j :: 0 <= i < j < |Indexed(nodes)| ==>
              Indexed(nodes)[i].base.key != Indexed(nodes)[j].base.key
    decreases |nodes|
  {
    if nodes != [] {
      var p := nodes[..|nodes| - 1];
      var x := nodes[|nodes| - 1];
      IndexedKeysAreDistinct(p);
      var v := Indexed(p);
      match KeyIndex(v, x.base.key)
      case Some(i) =>
        assert Indexed(nodes) == v[i := x];
      case None =>
        assert Indexed(nodes) == v + [x];
    }
  }

  /** A key is in the map exactly when some node carries it. */
  lemma {:induction false} IndexedHasExactlyTheKeys(nodes: seq<CycleNode>, k: string)
    ensures KeyIndex(Indexed(nodes), k).Some? <==> KeyIndex(nodes, k).Some?
    decreases |nodes|
  {
    if nodes != [] {
      var p := nodes[..|nodes| - 1];
      var x := nodes[|nodes| - 1];
      assert nodes == p + [x];
      IndexedHasExactlyTheKeys(p, k);
      MapSetKeyIndex(Indexed(p), x, k);
      KeyIndexSnoc(p, x, k);
    }
  }

  /** Keys sit in the map in the order of their first occurrence among the nodes. */
  lemma {:induction false} IndexedKeepsFirstPosition(nodes: seq<CycleNode>, k: string, k': string)
    requires KeyIndex(nodes, k).Some? && KeyIndex(nodes, k').Some?
    requires KeyIndex(nodes, k).value < KeyIndex(nodes, k').value
    ensures KeyIndex(Indexed(nodes), k).Some? && KeyIndex(Indexed(nodes), k').Some?
    ensures KeyIndex(Indexed(nodes), k).value < KeyIndex(Indexed(nodes), k').value
    decreases |nodes|
  {
    var p := nodes[..|nodes| - 1];
    var x := nodes[|nodes| - 1];
    assert nodes == p + [x];
    KeyIndexSnoc(p, x, k);
    KeyIndexSnoc(p, x, k');
    MapSetKeyIndex(Indexed(p), x, k);
    MapSetKeyIndex(Indexed(p), x, k');
    IndexedHasExactlyTheKeys(p, k);
    IndexedHasExactlyTheKeys(p, k');
    if KeyIndex(p, k').Some? {
      IndexedKeepsFirstPosition(p, k, k');
    }
  }

  /** The value stored under a key is the last node that carries it. */
  lemma {:induction false} IndexedKeepsLastValue(nodes: seq<CycleNode>)
    ensures forall j :: 0 <= j < |Indexed(nodes)| ==>
              LastWithKey(nodes, Indexed(nodes)[j].base.key) == Some(Indexed(nodes)[j])
    decreases |nodes|
  {
    if nodes != [] {
      var p := nodes[..|nodes| - 1];
      var x := nodes[|nodes| - 1];
      IndexedKeepsLastValue(p);
      var v := Indexed(p);
      var r := Indexed(nodes);
      forall j | 0 <= j < |r|
        ensures LastWithKey(nodes, r[j].base.key) == Some(r[j])
      {
        if r[j].base.key != x.base.key {
          match KeyIndex(v, x.base.key)
          case Some(i) =>
            assert r == v[i := x];
            assert r[j] == v[j];
          case None =>
            assert r == v + [x];
            assert r[j] == v[j];
        } else {
          match KeyIndex(v, x.base.key)
          case Some(i) =>
            assert r == v[i := x];
            IndexedKeysAreDistinct(nodes);
            assert r[i] == x;
          case None =>
            assert r == v + [x];
            IndexedKeysAreDistinct(nodes);
        }
      }
    }
  }

  /** Every value in the map is one of the nodes. */
  lemma IndexedValuesAreNodes(nodes: seq<CycleNode>)
    ensures forall v :: v in Indexed(nodes) ==> v in nodes
  {
    IndexedKeepsLastValue(nodes);
    forall v | v in Indexed(nodes)
      ensures v in nodes
    {
      var j :| 0 <= j < |Indexed(nodes)| && Indexed(nodes)[j] == v;
      assert LastWithKey(nodes, v.base.key) == Some(v);
    }
  }

  // ---------------------------------------------------------------------
  // The tree the builder produces, as values.
  // ---------------------------------------------------------------------

  /** A JavaScript template literal interpolating a possibly undefined string. */
  function Show(o: Option<string>): string
  {
    o.GetOr("undefined")
  }

  function LabelOf(d: CycleNode): string
  {
    Show(d.base.numbering) + " " + Show(d.base.name)
  }

  /** The `some` test: does any node name `key` as its parent. */
  function HasChildren(values: seq<CycleNode>, key: string): (b: bool)
    ensures b <==> exists v :: v in values && v.base.parentKey == Some(key)
  {
    if values == [] then false
    else values[0].base.parentKey == Some(key) || HasChildren(values[1..], key)
  }

  /** The filter applied at each level. */
  predicate Selected(d: CycleNode, parentKey: string)
  {
    d.base.parentKey == Some(parentKey) && d.elementType != "TestCaseNode"
  }

  /** Reference definition of a level: the selected nodes, in map order. */
  function Matching(ns: seq<CycleNode>, parentKey: string): (r: seq<CycleNode>)
    ensures forall d :: d in r <==> d in ns && Selected(d, parentKey)
  {
    if ns == [] then []
    else if Selected(ns[0], parentKey) then [ns[0]] + Matching(ns[1..], parentKey)
    else Matching(ns[1..], parentKey)
  }

  /** One built tree item as a value; `childrenSet` says whether `children` was assigned. */
  datatype Built = Built(
    labelText: string,
    elementType: string,
    state: CollapsibleState,
    data: CycleNode,
    childrenSet: bool,
    kids: seq<Built>)

  function Datas(bs: seq<Built>): (r: seq<CycleNode>)
    ensures |r| == |bs|
    ensures forall i :: 0 <= i < |bs| ==> r[i] == bs[i].data
  {
    if bs == [] then [] else [bs[0].data] + Datas(bs[1..])
  }

  /**
   * `buildTree(parentKey)` over the nodes `pending` still to be filtered;
   * `all` is the whole key map for the has-children test. `fuel` bounds the
   * depth (see README).
   */
  function LevelSpec(pending: seq<CycleNode>, all: seq<CycleNode>, parentKey: string, fuel: nat)
    : (r: seq<Built>)
    ensures |r| <= |pending|
    decreases fuel, |pending|
  {
    if pending == [] then []
    else
      var rest := LevelSpec(pending[1..], all, parentKey, fuel);
      if Selected(pending[0], parentKey) then [ItemSpec(pending[0], all, fuel)] + rest else rest
  }

  /** The tree item the `map` callback builds for `d`. */
  function ItemSpec(d: CycleNode, all: seq<CycleNode>, fuel: nat): (r: Built)
    ensures r.data == d && r.elementType == d.elementType && r.labelText == LabelOf(d)
    ensures r.childrenSet <==> exists v :: v in all && v.base.parentKey == Some(d.base.key)
    ensures r.kids != [] ==> r.childrenSet
    ensures r.state == Collapsed <==> d.elementType != "TestCaseSetNode" && r.childrenSet
    ensures r.state != Expanded
    decreases fuel, 0
  {
    var has := HasChildren(all, d.base.key);
    var state :=
      if d.elementType == "TestCaseSetNode" then NotCollapsible
      else if has then Collapsed
      else NotCollapsible;
    var kids := if has && fuel > 0 then LevelSpec(all, all, d.base.key, fuel - 1) else [];
    Built(LabelOf(d), d.elementType, state, d, has, kids)
  }

  /** The tree below a cycle: built from the root key with depth bound |all|. */
  function TreeSpec(all: seq<CycleNode>, rootKey: string): (r: seq<Built>)
    ensures |r| <= |all|
    ensures forall i :: 0 <= i < |r| ==>
              r[i].data in all && r[i].data.base.parentKey == Some(rootKey) && r[i].data.elementType != "TestCaseNode"
  {
    var r := LevelSpec(all, all, rootKey, |all|);
    LevelIsTheSelectedNodes(all, all, rootKey, |all|);
    assert forall i :: 0 <= i < |r| ==> r[i].data == Datas(r)[i] && Datas(r)[i] in Matching(all, rootKey);
    r
  }

  /**
   * Every chain of parent links below `key`, through the nodes `buildTree`
   * selects and expands, ends within `h` levels. Data whose `parentKey`
   * links form a cycle below `key` meet this for no `h`.
   */
  ghost predicate HeightAtMost(all: seq<CycleNode>, key: string, h: nat)
    decreases h
  {
    forall d :: d in all && Selected(d, key) && HasChildren(all, d.base.key) ==>
      h > 0 && HeightAtMost(all, d.base.key, h - 1)
  }

  /** Below a tree of height at most `h`, every depth bound of at least `h` builds the same level. */
  lemma {:induction false} LevelSpecFuel(pending: seq<CycleNode>, all: seq<CycleNode>, key: string,
                                         h: nat, f1: nat, f2: nat)
    requires forall d :: d in pending ==> d in all
    requires HeightAtMost(all, key, h) && h <= f1 && h <= f2
    ensures LevelSpec(pending, all, key, f1) == LevelSpec(pending, all, key, f2)
    decreases h, |pending|
  {
    if pending != [] {
      assert forall d :: d in pending[1..] ==> d in pending;
      LevelSpecFuel(pending[1..], all, key, h, f1, f2);
      var d := pending[0];
      if Selected(d, key) && HasChildren(all, d.base.key) {
        assert d in all;
        LevelSpecFuel(all, all, d.base.key, h - 1, f1 - 1, f2 - 1);
      }
    }
  }

  /**
   * When the parent links below the root end within as many levels as
   * there are nodes, as they do on acyclic data, the depth bound |all| of
   * `TreeSpec` cuts nothing off: any larger bound builds the same tree.
   */
  lemma TreeSpecBoundSuffices(all: seq<CycleNode>, rootKey: string, fuel: nat)
    requires HeightAtMost(all, rootKey, |all|) && fuel >= |all|
    ensures TreeSpec(all, rootKey) == LevelSpec(all, all, rootKey, fuel)
  {
    LevelSpecFuel(all, all, rootKey, |all|, |all|, fuel);
  }

  lemma {:induction false} LevelIsTheSelectedNodes(pending: seq<CycleNode>, all: seq<CycleNode>,
                                                   parentKey: string, fuel: nat)
    ensures Datas(LevelSpec(pending, all, parentKey, fuel)) == Matching(pending, parentKey)
    decreases |pending|
  {
    if pending != [] {
      LevelIsTheSelectedNodes(pending[1..], all, parentKey, fuel);
      var rest := LevelSpec(pending[1..], all, parentKey, fuel);
      if Selected(pending[0], parentKey) {
        assert Datas([ItemSpec(pending[0], all, fuel)] + rest) == [pending[0]] + Datas(rest);
      }
    }
  }

  /**
   * A built subtree: every node comes from the map, none is a TestCaseNode,
   * and every child names its parent's key.
   */
  ghost predicate WellBuilt(b: Built, all: seq<CycleNode>)
    decreases b
  {
    b.data in all && b.elementType != "TestCaseNode" &&
    forall i :: 0 <= i < |b.kids| ==>
      b.kids[i].data.base.parentKey == Some(b.data.base.key) && WellBuilt(b.kids[i], all)
  }

  lemma {:induction false} LevelIsWellBuilt(pending: seq<CycleNode>, all: seq<CycleNode>,
                                            parentKey: string, fuel: nat)
    requires forall d :: d in pending ==> d in all
    ensures forall b :: b in LevelSpec(pending, all, parentKey, fuel) ==>
              WellBuilt(b, all) && b.data.base.parentKey == Some(parentKey)
    decreases fuel, |pending|
  {
    if pending != [] {
      LevelIsWellBuilt(pending[1..], all, parentKey, fuel);
      if Selected(pending[0], parentKey) {
        ItemIsWellBuilt(pending[0], all, fuel);
      }
    }
  }

  lemma {:induction false} ItemIsWellBuilt(d: CycleNode, all: seq<CycleNode>, fuel: nat)
    requires d in all && d.elementType != "TestCaseNode"
    ensures WellBuilt(ItemSpec(d, all, fuel), all)
    decreases fuel, 0
  {
    var r := ItemSpec(d, all, fuel);
    if HasChildren(all, d.base.key) && fuel > 0 {
      LevelIsWellBuilt(all, all, d.base.key, fuel - 1);
      assert forall i :: 0 <= i < |r.kids| ==> r.kids[i] in r.kids;
    }
  }

  /** No TestCaseNode appears at any depth, and the top level hangs below the root key. */
  lemma TreeHasNoTestCases(all: seq<CycleNode>, rootKey: string)
    ensures forall b :: b in TreeSpec(all, rootKey) ==>
              WellBuilt(b, all) && b.data.base.parentKey == Some(rootKey)
  {
    LevelIsWellBuilt(all, all, rootKey, |all|);
  }

  // ---------------------------------------------------------------------
  // The builder over heap items.
  // ---------------------------------------------------------------------

  /** Items in `repr` realize the built value `b`, all with `element` as parent. */
  ghost predicate Realizes(s: Shape, b: Built, element: TreeItem, repr: set<TreeItem>)
    reads repr
    decreases b
  {
    s.node in repr &&
    s.node.labelText == b.labelText && s.node.contextValue == b.elementType &&
    s.node.item == CycleData(b.data) && s.node.parent == element &&
    s.node.collapsibleState == b.state &&
    s.childrenSet == b.childrenSet &&
    (if s.childrenSet then s.node.children == Some(Roots(s.kids))
     else s.node.children.None? && s.kids == []) &&
    |s.kids| == |b.kids| &&
    forall i :: 0 <= i < |b.kids| ==> Realizes(s.kids[i], b.kids[i], element, repr)
  }

  lemma {:induction false} RealizesGrows(s: Shape, b: Built, element: TreeItem,
                                         r1: set<TreeItem>, r2: set<TreeItem>)
    requires r1 <= r2 && Realizes(s, b, element, r1)
    ensures Realizes(s, b, element, r2)
    decreases b
  {
    forall i | 0 <= i < |b.kids|
      ensures Realizes(s.kids[i], b.kids[i], element, r2)
    {
      RealizesGrows(s.kids[i], b.kids[i], element, r1, r2);
    }
  }

  /** Shapes realizing built items, pairwise. */
  ghost predicate RealizesAll(ss: seq<Shape>, bs: seq<Built>, element: TreeItem, repr: set<TreeItem>)
    reads repr
  {
    |ss| == |bs| && forall i :: 0 <= i < |ss| ==> Realizes(ss[i], bs[i], element, repr)
  }

  lemma RealizesAllExtend(ss: seq<Shape>, bs: seq<Built>, s: Shape, b: Built, element: TreeItem,
                          r1: set<TreeItem>, r2: set<TreeItem>)
    requires RealizesAll(ss, bs, element, r1) && Realizes(s, b, element, r2)
    ensures RealizesAll(ss + [s], bs + [b], element, r1 + r2)
  {
    forall i | 0 <= i < |ss|
      ensures Realizes(ss[i], bs[i], element, r1 + r2)
    {
      RealizesGrows(ss[i], bs[i], element, r1, r1 + r2);
    }
    RealizesGrows(s, b, element, r2, r1 + r2);
    assert forall i :: 0 <= i < |ss| ==> (ss + [s])[i] == ss[i] && (bs + [b])[i] == bs[i];
  }

  /** A realized tree is mirrored by its shape. */
  lemma {:induction false} RealizesMirrors(s: Shape, b: Built, element: TreeItem, repr: set<TreeItem>)
    requires Realizes(s, b, element, repr)
    ensures Mirrors(s, repr)
    decreases b
  {
    forall k | k in s.kids
      ensures Mirrors(k, repr)
    {
      var i :| 0 <= i < |s.kids| && s.kids[i] == k;
      RealizesMirrors(s.kids[i], b.kids[i], element, repr);
    }
  }

  /** `buildTree(parentKey)`: filter the map values, build one item per selected node. */
  method BuildTree(all: seq<CycleNode>, parentKey: string, fuel: nat, element: TreeItem)
    returns (items: seq<TreeItem>, ghost shapes: seq<Shape>, ghost repr: set<TreeItem>)
    requires element.Linked()
    ensures fresh(repr)
    ensures Roots(shapes) == items
    ensures |shapes| == |LevelSpec(all, all, parentKey, fuel)|
    ensures forall i :: 0 <= i < |shapes| ==>
              Realizes(shapes[i], LevelSpec(all, all, parentKey, fuel)[i], element, repr)
    decreases fuel, 1
  {
    items, shapes, repr := [], [], {};
    ghost var done: seq<Built> := [];
    for n := 0 to |all|
      invariant fresh(repr)
      invariant Roots(shapes) == items && |shapes| == |done|
      invariant LevelSpec(all, all, parentKey, fuel) == done + LevelSpec(all[n..], all, parentKey, fuel)
      invariant RealizesAll(shapes, done, element, repr)
    {
      assert all[n..][1..] == all[n + 1..];
      var d := all[n];
      if Selected(d, parentKey) {
        var t, s, r := MakeItem(d, all, fuel, element);
        RealizesAllExtend(shapes, done, s, ItemSpec(d, all, fuel), element, repr, r);
        ConcatAssociates(done, [ItemSpec(d, all, fuel)], LevelSpec(all[n + 1..], all, parentKey, fuel));
        items, shapes, repr := items + [t], shapes + [s], repr + r;
        done := done + [ItemSpec(d, all, fuel)];
      }
    }
    assert all[|all|..] == [];
  }

  /** The `map` callback: allocate the item, then build its children when it has any. */
  method MakeItem(d: CycleNode, all: seq<CycleNode>, fuel: nat, element: TreeItem)
    returns (t: TreeItem, ghost s: Shape, ghost repr: set<TreeItem>)
    requires element.Linked()
    ensures fresh(repr)
    ensures s.node == t
    ensures Realizes(s, ItemSpec(d, all, fuel), element, repr)
    decreases fuel, 0
  {
    var hasChildren := HasChildren(all, d.base.key);
    var state :=
      if d.elementType == "TestCaseSetNode" then NotCollapsible
      else if hasChildren then Collapsed
      else NotCollapsible;
    t := new TreeItem(LabelOf(d), d.elementType, state, CycleData(d), element);
    if hasChildren {
      var kids: seq<TreeItem> := [];
      ghost var ks: seq<Shape> := [];
      ghost var kr: set<TreeItem> := {};
      if fuel > 0 {
        kids, ks, kr := BuildTree(all, d.base.key, fuel - 1, element);
      }
      t.children := Some(kids);
      s := Shape(t, true, ks);
      repr := {t} + kr;
      forall i | 0 <= i < |ks|
        ensures Realizes(ks[i], ItemSpec(d, all, fuel).kids[i], element, repr)
      {
        RealizesGrows(ks[i], ItemSpec(d, all, fuel).kids[i], element, kr, repr);
      }
    } else {
      s := Shape(t, false, []);
      repr := {t};
    }
  }
}
