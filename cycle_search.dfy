// findCycleKeyFromCycleName (testBenchConnection.ts): a depth-first search
// for a test cycle by name over the elements of the project management
// tree. Those elements are untyped: plain JSON nodes of the project tree,
// or `ProjectManagementTreeItem` wrappers whose `item` holds such a node.

module CycleSearch {
  import opened Wrappers

  /**
   * The properties the search reads from an element; `None` is an
   * absent (undefined) property, and `hasChildren` says whether the
   * `children` array is present at all. A tree-item wrapper has only
   * `item` and, once built, `children`.
   */
  datatype JsNode = JsNode(
    nodeType: Option<string>,
    name: Option<string>,
    key: Option<string>,
    hasChildren: bool,
    children: seq<JsNode>,
    item: Option<JsNode>)

  /** What the search returns: a key, `undefined` (a matched element without a key) or `null`. */
  datatype Found = KeyOf(k: string) | Undefined | Null

  /** JavaScript truthiness of the result: a non-empty key. */
  predicate Truthy(f: Found)
  {
    f.KeyOf? && f.k != ""
  }

  /** The number of nodes reachable through `children` and `item`. */
  function Size(e: JsNode): nat
    decreases e, 1
  {
    1 + ForestSize(e.children) + (match e.item case Some(data) => Size(data) case None => 0)
  }

  function ForestSize(es: seq<JsNode>): nat
    decreases es, 0
  {
    if es == [] then 0 else Size(es[0]) + ForestSize(es[1..])
  }

  lemma {:induction false} ElementWithinForest(es: seq<JsNode>, i: nat)
    requires i < |es|
    ensures Size(es[i]) <= ForestSize(es)
    decreases i
  {
    if i > 0 {
      ElementWithinForest(es[1..], i - 1);
    }
  }

  /** The element's own JSON node is a cycle so named. */
  predicate ItemMatches(e: JsNode, cycleName: string)
  {
    e.item.Some? && e.item.value.nodeType == Some("Cycle") && e.item.value.name == Some(cycleName)
  }

  /** The element matches through its `item` or through its own properties. */
  predicate Matches(e: JsNode, cycleName: string): (b: bool)
    ensures b ==> e.nodeType == Some("Cycle") || (e.item.Some? && e.item.value.nodeType == Some("Cycle"))
    ensures e.item.None? ==> (b <==> e.nodeType == Some("Cycle") && e.name == Some(cycleName))
  {
    ItemMatches(e, cycleName) || (e.nodeType == Some("Cycle") && e.name == Some(cycleName))
  }

  /** `element.item?.children || element.children`: an array, even an empty one, is truthy. */
  function ChildrenOf(e: JsNode): (cs: seq<JsNode>)
    ensures ForestSize(cs) < Size(e)
  {
    if e.item.Some? && e.item.value.hasChildren then
      assert Size(e.item.value) < Size(e);
      e.item.value.children
    else if e.hasChildren then e.children
    else []
  }

  /**
   * Which key a match returns. `AsWritten` is `element.key`, the key of
   * the element itself; `OfMatchedNode` is the key of the node that
   * matched, the wrapped JSON node when the match was through `item`.
   */
  datatype KeyRule = AsWritten | OfMatchedNode

  function KeyOfMatch(e: JsNode, cycleName: string, rule: KeyRule): (r: Found)
    ensures r != Null
    ensures r.KeyOf? ==> e.key == Some(r.k) || (rule == OfMatchedNode && e.item.Some? && e.item.value.key == Some(r.k))
    ensures rule == AsWritten ==> (r == Undefined <==> e.key.None?)
  {
    var source := if rule == OfMatchedNode && ItemMatches(e, cycleName) then e.item.value else e;
    match source.key
    case Some(k) => KeyOf(k)
    case None => Undefined
  }

  /**
   * The search: the first element that matches gives its key straight
   * away; otherwise its children are searched, and a truthy result
   * there ends the search, while a falsy one is passed over.
   */
  function Find(es: seq<JsNode>, cycleName: string, rule: KeyRule): (r: Found)
    ensures r == Null ==> forall i :: 0 <= i < |es| ==> !Matches(es[i], cycleName)
    decreases ForestSize(es)
  {
    if es == [] then Null
    else if Matches(es[0], cycleName) then KeyOfMatch(es[0], cycleName, rule)
    else
      var sub := Find(ChildrenOf(es[0]), cycleName, rule);
      if Truthy(sub) then sub else Find(es[1..], cycleName, rule)
  }

  /** `findCycleKeyFromCycleName(elements, cycleName)`, with the key rule as a parameter. */
  method FindCycleKeyFromCycleName(elements: seq<JsNode>, cycleName: string, rule: KeyRule) returns (r: Found)
    ensures r == Find(elements, cycleName, rule)
    decreases ForestSize(elements)
  {
    for i := 0 to |elements|
      invariant Find(elements, cycleName, rule) == Find(elements[i..], cycleName, rule)
    {
      var element := elements[i];
      assert elements[i..][0] == element && elements[i..][1..] == elements[i + 1..];
      if Matches(element, cycleName) {
        return KeyOfMatch(element, cycleName, rule);
      }
      var children := ChildrenOf(element);
      if |children| > 0 {
        ElementWithinForest(elements, i);
        var foundKey := FindCycleKeyFromCycleName(children, cycleName, rule);
        if Truthy(foundKey) {
          return foundKey;
        }
      } else {
        assert Find(children, cycleName, rule) == Null;
      }
    }
    return Null;
  }

  // ---------------------------------------------------------------------
  // A reference definition: the first match in pre-order
  // ---------------------------------------------------------------------

  /** Every element, before the elements below it, siblings in order. */
  function Preorder(es: seq<JsNode>): seq<JsNode>
    decreases ForestSize(es)
  {
    if es == [] then [] else [es[0]] + Preorder(ChildrenOf(es[0])) + Preorder(es[1..])
  }

  /** The index of the first matching element, or -1. */
  function FirstMatchIndex(ps: seq<JsNode>, cycleName: string): (i: int)
    ensures -1 <= i < |ps|
    ensures i >= 0 ==> Matches(ps[i], cycleName)
    ensures forall j :: 0 <= j < |ps| && (i < 0 || j < i) ==> !Matches(ps[j], cycleName)
  {
    if ps == [] then -1
    else if Matches(ps[0], cycleName) then 0
    else var k := FirstMatchIndex(ps[1..], cycleName); if k < 0 then -1 else k + 1
  }

  lemma {:induction false} FirstMatchIndexAppend(a: seq<JsNode>, b: seq<JsNode>, cycleName: string)
    ensures FirstMatchIndex(a + b, cycleName) ==
              if FirstMatchIndex(a, cycleName) >= 0 then FirstMatchIndex(a, cycleName)
              else if FirstMatchIndex(b, cycleName) >= 0 then |a| + FirstMatchIndex(b, cycleName)
              else -1
    decreases |a|
  {
    if a != [] {
      assert (a + b)[1..] == a[1..] + b;
      FirstMatchIndexAppend(a[1..], b, cycleName);
    } else {
      assert a + b == b;
    }
  }

  /** Every matching element in the pre-order has a truthy key under the rule. */
  predicate MatchesHaveKeys(ps: seq<JsNode>, cycleName: string, rule: KeyRule)
  {
    forall j :: 0 <= j < |ps| && Matches(ps[j], cycleName) ==> Truthy(KeyOfMatch(ps[j], cycleName, rule))
  }

  lemma MatchesHaveKeysSplit(a: seq<JsNode>, b: seq<JsNode>, cycleName: string, rule: KeyRule)
    requires MatchesHaveKeys(a + b, cycleName, rule)
    ensures MatchesHaveKeys(a, cycleName, rule) && MatchesHaveKeys(b, cycleName, rule)
  {
    assert forall j :: 0 <= j < |a| ==> a[j] == (a + b)[j];
    assert forall j :: 0 <= j < |b| ==> b[j] == (a + b)[|a| + j];
  }

  /**
   * When every match carries a key, the search returns the key of the
   * first match in pre-order, and `null` when nothing matches.
   */
  lemma {:induction false} FindIsFirstPreorderMatch(es: seq<JsNode>, cycleName: string, rule: KeyRule)
    requires MatchesHaveKeys(Preorder(es), cycleName, rule)
    ensures var p := Preorder(es); var i := FirstMatchIndex(p, cycleName);
      Find(es, cycleName, rule) == if i < 0 then Null else KeyOfMatch(p[i], cycleName, rule)
    decreases ForestSize(es)
  {
    if es != [] && !Matches(es[0], cycleName) {
      var e := es[0];
      var pc := Preorder(ChildrenOf(e));
      var pr := Preorder(es[1..]);
      var p := Preorder(es);
      assert p == ([e] + pc) + pr;
      MatchesHaveKeysSplit([e] + pc, pr, cycleName, rule);
      MatchesHaveKeysSplit([e], pc, cycleName, rule);
      FindIsFirstPreorderMatch(ChildrenOf(e), cycleName, rule);
      FindIsFirstPreorderMatch(es[1..], cycleName, rule);
      FirstMatchIndexAppend([e] + pc, pr, cycleName);
      FirstMatchIndexAppend([e], pc, cycleName);
      var ic := FirstMatchIndex(pc, cycleName);
      var ir := FirstMatchIndex(pr, cycleName);
      if ic >= 0 {
        assert p[1 + ic] == pc[ic];
      } else if ir >= 0 {
        assert p[1 + |pc| + ir] == pr[ir];
      }
    }
  }

  /** The search finds nothing exactly when no element in the pre-order matches. */
  lemma NullOnlyWithoutMatch(es: seq<JsNode>, cycleName: string, rule: KeyRule)
    requires MatchesHaveKeys(Preorder(es), cycleName, rule)
    ensures Find(es, cycleName, rule) == Null <==>
              forall j :: 0 <= j < |Preorder(es)| ==> !Matches(Preorder(es)[j], cycleName)
  {
    FindIsFirstPreorderMatch(es, cycleName, rule);
    var p := Preorder(es);
    var i := FirstMatchIndex(p, cycleName);
    if i >= 0 {
      assert Truthy(KeyOfMatch(p[i], cycleName, rule));
    }
  }

  // ---------------------------------------------------------------------
  // Tree-item wrappers
  // ---------------------------------------------------------------------

  /** A JSON node of the project tree. */
  function JsonNode(nodeType: string, name: string, key: string, children: seq<JsNode>): JsNode
  {
    JsNode(Some(nodeType), Some(name), Some(key), true, children, None)
  }

  /** A `ProjectManagementTreeItem` built from a JSON node; it carries no key of its own. */
  function Wrapper(data: JsNode): JsNode
  {
    JsNode(None, None, None, false, [], Some(data))
  }

  /**
   * The roots of the project management tree once a version has been
   * made the root: wrappers of its cycles. As written, the search
   * matches the wrapper through `item` and returns the wrapper's own,
   * absent, key, which the caller reports as "Cycle not found".
   */
  lemma WrappedCycleHasNoKeyAsWritten(cycleName: string, key: string)
    ensures Find([Wrapper(JsonNode("Cycle", cycleName, key, []))], cycleName, AsWritten) == Undefined
  {
  }

  /** Taking the key of the node that matched returns the cycle's key. */
  lemma WrappedCycleKeyOfMatchedNode(cycleName: string, key: string)
    ensures Find([Wrapper(JsonNode("Cycle", cycleName, key, []))], cycleName, OfMatchedNode) == KeyOf(key)
  {
  }

  /** No element wraps another: all are plain JSON nodes. */
  predicate AllJson(ps: seq<JsNode>)
  {
    forall j :: 0 <= j < |ps| ==> ps[j].item.None?
  }

  lemma AllJsonSplit(a: seq<JsNode>, b: seq<JsNode>)
    requires AllJson(a + b)
    ensures AllJson(a) && AllJson(b)
  {
    assert forall j :: 0 <= j < |a| ==> a[j] == (a + b)[j];
    assert forall j :: 0 <= j < |b| ==> b[j] == (a + b)[|a| + j];
  }

  /** Plain JSON nodes have one key for both rules: the rules differ only on wrappers. */
  lemma {:induction false} RulesAgreeOnJson(es: seq<JsNode>, cycleName: string)
    requires AllJson(Preorder(es))
    ensures Find(es, cycleName, AsWritten) == Find(es, cycleName, OfMatchedNode)
    decreases ForestSize(es)
  {
    if es != [] {
      var e := es[0];
      var pc := Preorder(ChildrenOf(e));
      assert Preorder(es) == ([e] + pc) + Preorder(es[1..]);
      AllJsonSplit([e] + pc, Preorder(es[1..]));
      AllJsonSplit([e], pc);
      assert ([e])[0] == e;
      RulesAgreeOnJson(ChildrenOf(e), cycleName);
      RulesAgreeOnJson(es[1..], cycleName);
    }
  }
}
