// The test theme tree view (testThemeTreeView.ts): a provider holding the
// root elements currently shown, replaced wholesale on every update.

module ThemeTreeView {
  import opened Wrappers
  import opened TreeItems

  class TestThemeTreeDataProvider {
    var rootElements: seq<TreeItem>
    /** How many change events `refresh` has fired. */
    var refreshCount: nat

    constructor ()
      ensures rootElements == [] && refreshCount == 0
    {
      rootElements := [];
      refreshCount := 0;
    }

    /** `refresh`: fires one change event. */
    method Refresh()
      modifies this
      ensures rootElements == old(rootElements)
      ensures refreshCount == old(refreshCount) + 1
    {
      refreshCount := refreshCount + 1;
    }

    /** The roots for no element, otherwise the element's children or none when unset. */
    method GetChildren(element: TreeItem?) returns (r: seq<TreeItem>)
      ensures element == null ==> r == rootElements
      ensures element != null && element.children.Some? ==> r == element.children.value
      ensures element != null && element.children.None? ==> r == []
    {
      if element == null {
        return rootElements;
      }
      return element.children.GetOr([]);
    }

    method SetRoots(roots: seq<TreeItem>)
      modifies this
      ensures rootElements == roots
      ensures refreshCount == old(refreshCount) + 1
    {
      rootElements := roots;
      Refresh();
    }

    method MakeRoot(element: TreeItem)
      modifies this
      ensures rootElements == [element]
      ensures refreshCount == old(refreshCount) + 1
    {
      rootElements := [element];
      Refresh();
    }

    /** Records the expansion state on the item; the roots stay as they are. */
    method HandleExpansion(element: TreeItem, expanded: bool)
      modifies element
      ensures element.collapsibleState == (if expanded then Expanded else Collapsed)
      ensures element.children == old(element.children)
      ensures unchanged(this)
    {
      element.collapsibleState := if expanded then Expanded else Collapsed;
    }

    method ClearTree()
      modifies this
      ensures rootElements == []
      ensures refreshCount == old(refreshCount) + 1
    {
      rootElements := [];
      Refresh();
    }
  }
}
