// Collecting the test themes below a tree item for the "select a test
// theme" pick list (reportHandler.ts, findTestThemeNodes).

module ThemeSelection {
  import opened Wrappers
  import opened TreeItems

  /** One pick-list entry; absent names and IDs take the defaults. */
  datatype ThemeEntry = ThemeEntry(name: string, uniqueID: string, numbering: Option<string>)

  /** The entry an item contributes: only TestThemeNode payloads contribute. */
  function EntryOf(d: ItemData): (e: Option<ThemeEntry>)
    ensures e.Some? <==> d.CycleData? && d.node.elementType == "TestThemeNode"
    ensures e.Some? ==> e.value.numbering == d.node.base.numbering
    ensures e.Some? ==> e.value.name == (if d.node.base.name.Some? then d.node.base.name.value else "Unnamed")
    ensures e.Some? ==> e.value.uniqueID == (if d.node.base.uniqueID.Some? then d.node.base.uniqueID.value else "No ID")
  {
    match d
    case CycleData(n) =>
      if n.elementType == "TestThemeNode" then
        Some(ThemeEntry(n.base.name.GetOr("Unnamed"), n.base.uniqueID.GetOr("No ID"), n.base.numbering))
      else None
    case ProjectData(_) => None
  }

  function Own(x: TreeItem): seq<ThemeEntry>
  {
    match EntryOf(x.item)
    case Some(e) => [e]
    case None => []
  }

  /** The entries of a forest, collected node first and then its children. */
  ghost function ForestThemes(ss: seq<Shape>): seq<ThemeEntry>
    decreases ss
  {
    if ss == [] then []
    else Own(ss[0].node) + ForestThemes(ss[0].kids) + ForestThemes(ss[1..])
  }

  /** Reference definition: the pre-order list of the items of a forest. */
  ghost function PreOrder(ss: seq<Shape>): seq<TreeItem>
    decreases ss
  {
    if ss == [] then []
    else [ss[0].node] + PreOrder(ss[0].kids) + PreOrder(ss[1..])
  }

  /** The entries of a flat list of items, in order. */
  function EntriesOf(xs: seq<TreeItem>): seq<ThemeEntry>
  {
    if xs == [] then [] else Own(xs[0]) + EntriesOf(xs[1..])
  }

  lemma {:induction false} EntriesOfAppend(a: seq<TreeItem>, b: seq<TreeItem>)
    ensures EntriesOf(a + b) == EntriesOf(a) + EntriesOf(b)
  {
    if a == [] {
      assert a + b == b;
    } else {
      assert (a + b)[0] == a[0];
      assert (a + b)[1..] == a[1..] + b;
      EntriesOfAppend(a[1..], b);
    }
  }

  lemma {:induction false} ForestThemesAppend(a: seq<Shape>, b: seq<Shape>)
    ensures ForestThemes(a + b) == ForestThemes(a) + ForestThemes(b)
  {
    if a == [] {
      assert a + b == b;
    } else {
      assert (a + b)[0] == a[0];
      assert (a + b)[1..] == a[1..] + b;
      ForestThemesAppend(a[1..], b);
    }
  }

  /** The collected entries are those of the TestThemeNode items in pre-order. */
  lemma {:induction false} ThemesArePreOrderFilter(ss: seq<Shape>)
    ensures ForestThemes(ss) == EntriesOf(PreOrder(ss))
    decreases ss
  {
    if ss != [] {
      ThemesArePreOrderFilter(ss[0].kids);
      ThemesArePreOrderFilter(ss[1..]);
      EntriesOfAppend([ss[0].node] + PreOrder(ss[0].kids), PreOrder(ss[1..]));
      EntriesOfAppend([ss[0].node], PreOrder(ss[0].kids));
      assert EntriesOf([ss[0].node]) == Own(ss[0].node);
    }
  }

  /**
   * `findTestThemeNodes(node, results)`: appends the node's own entry, then
   * those of its children, depth first. The shared `results` array is
   * threaded through as a value.
   */
  method FindTestThemeNodes(node: TreeItem, results: seq<ThemeEntry>, ghost s: Shape, ghost repr: set<TreeItem>)
    returns (out: seq<ThemeEntry>)
    requires s.node == node && Mirrors(s, repr)
    ensures out == results + ForestThemes([s])
    decreases s, 1
  {
    out := results;
    match EntryOf(node.item) {
      case Some(e) => out := out + [e];
      case None => assert results + [] == results;
    }
    assert out == results + Own(node);
    if node.children.Some? {
      out := VisitChildren(node.children.value, out, s, repr);
    } else {
      assert s.kids == [];
    }
    assert ForestThemes([s]) == Own(node) + ForestThemes(s.kids) by {
      assert [s][1..] == [];
    }
    EntriesAssociate(results, Own(node), ForestThemes(s.kids));
  }

  /** The `forEach` over the children of the item `s` describes. */
  method VisitChildren(cs: seq<TreeItem>, results: seq<ThemeEntry>, ghost s: Shape, ghost repr: set<TreeItem>)
    returns (out: seq<ThemeEntry>)
    requires Mirrors(s, repr) && s.node.children == Some(cs)
    ensures out == results + ForestThemes(s.kids)
    decreases s, 0
  {
    MirrorsChildren(s, repr);
    out := results;
    for i := 0 to |cs|
      invariant out == results + ForestThemes(s.kids[..i])
    {
      ghost var before := out;
      out := FindTestThemeNodes(cs[i], out, s.kids[i], repr);
      ForestStep(s.kids, i, results, before, out);
    }
    assert s.kids[..|cs|] == s.kids;
  }

  lemma MirrorsChildren(s: Shape, repr: set<TreeItem>)
    requires Mirrors(s, repr) && s.node.children.Some?
    ensures s.node.children.value == Roots(s.kids)
    ensures forall i :: 0 <= i < |s.kids| ==> Mirrors(s.kids[i], repr)
  {
    assert forall i :: 0 <= i < |s.kids| ==> s.kids[i] in s.kids;
  }

  lemma ForestStep(kids: seq<Shape>, i: nat, results: seq<ThemeEntry>,
                   before: seq<ThemeEntry>, after: seq<ThemeEntry>)
    requires i < |kids|
    requires before == results + ForestThemes(kids[..i])
    requires after == before + ForestThemes([kids[i]])
    ensures after == results + ForestThemes(kids[..i + 1])
  {
    var done, next := kids[..i], [kids[i]];
    assert kids[..i + 1] == done + next;
    ForestThemesAppend(done, next);
    EntriesAssociate(results, ForestThemes(done), ForestThemes(next));
  }

  lemma EntriesAssociate(a: seq<ThemeEntry>, b: seq<ThemeEntry>, c: seq<ThemeEntry>)
    ensures a + (b + c) == (a + b) + c
  {
  }

  // ---------------------------------------------------------------------
  // The pick list of displayAndSelectTestThemeNode
  // ---------------------------------------------------------------------

  /** The label of the first pick-list item, and the value picking it returns. */
  const GenerateAllChoice: string := "Generate all"

  /** A pick-list item; only the items of themes carry a unique ID. */
  datatype PickItem = PickItem(caption: string, description: string, uniqueID: Option<string>)

  /** A theme's label: "<numbering> <name>" when the numbering is non-empty, else the name alone. */
  function ThemeLabel(e: ThemeEntry): (caption: string)
    ensures |caption| >= |e.name| && caption[|caption| - |e.name|..] == e.name
    ensures caption == e.name <==> e.numbering.None? || e.numbering.value == ""
  {
    if e.numbering.Some? && e.numbering.value != "" then e.numbering.value + " " + e.name else e.name
  }

  /** The "Generate all" item first, then one item per collected theme, in order. */
  function PickItems(entries: seq<ThemeEntry>): (items: seq<PickItem>)
    ensures |items| == |entries| + 1
    ensures items[0].caption == GenerateAllChoice && items[0].uniqueID.None?
    ensures forall i :: 0 <= i < |entries| ==>
      items[i + 1] == PickItem(ThemeLabel(entries[i]), "ID: " + entries[i].uniqueID, Some(entries[i].uniqueID))
  {
    [PickItem(GenerateAllChoice, "Generate All Tests Under The Test Cycle", None)] + ThemeItems(entries)
  }

  function ThemeItems(entries: seq<ThemeEntry>): (items: seq<PickItem>)
    ensures |items| == |entries|
    ensures forall i :: 0 <= i < |entries| ==>
      items[i] == PickItem(ThemeLabel(entries[i]), "ID: " + entries[i].uniqueID, Some(entries[i].uniqueID))
  {
    if entries == [] then []
    else [PickItem(ThemeLabel(entries[0]), "ID: " + entries[0].uniqueID, Some(entries[0].uniqueID))] + ThemeItems(entries[1..])
  }

  /**
   * What the pick returns: "Generate all" for an item so labelled, the
   * item's unique ID otherwise, nothing when the pick is dismissed.
   */
  function PickedValue(selected: Option<PickItem>): (r: Option<string>)
    ensures selected.None? ==> r.None?
    ensures r.Some? && r.value != GenerateAllChoice ==> selected.Some? && r == selected.value.uniqueID
    ensures selected.Some? && selected.value.caption == GenerateAllChoice ==> r == Some(GenerateAllChoice)
  {
    if selected.None? then None
    else if selected.value.caption == GenerateAllChoice then Some(GenerateAllChoice)
    else selected.value.uniqueID
  }

  /**
   * Picking the first item asks for every test; picking a theme returns its
   * unique ID, unless the theme's own label reads "Generate all", which
   * then asks for every test too; dismissing the pick returns nothing.
   */
  lemma PickReturnsChoice(entries: seq<ThemeEntry>, i: int)
    requires 0 <= i < |entries|
    ensures PickedValue(Some(PickItems(entries)[0])) == Some(GenerateAllChoice)
    ensures PickedValue(Some(PickItems(entries)[i + 1])) ==
      Some(if ThemeLabel(entries[i]) == GenerateAllChoice then GenerateAllChoice else entries[i].uniqueID)
    ensures PickedValue(None) == None
  {
  }
}
