// The test theme tree of testbench2robotframework (test_theme_tree.py):
// interaction nodes built from the exported interaction details, the tree of
// themes, test case sets and test cases, and the order in which `visit`
// calls a visitor.

module SuiteTree {
  import opened Wrappers
  import SuitePaths

  // ---------------------------------------------------------------------
  // Exported details (the records of testbench2robotframework.model)
  // ---------------------------------------------------------------------

  /** Compound, Atomic, or any other interaction type (a textual interaction). */
  datatype InteractionType = Compound | Atomic | Textual

  datatype SequencePhase = Setup | TestStep | Teardown

  datatype ParameterUseType = CallByValue | CallByReference | CallByReferenceMandatory

  datatype Parameter = Parameter(name: string, value: string, useType: ParameterUseType)

  /**
   * An interaction: its name, its subdivision path, its type and sequence
   * phase, its parameters, the names in `cbv_parameters`, and its nested
   * interactions.
   */
  datatype InteractionDetails = InteractionDetails(
    name: string,
    path: string,
    interactionType: InteractionType,
    phase: SequencePhase,
    parameters: seq<Parameter>,
    cbvNames: seq<string>,
    interactions: seq<InteractionDetails>)

  /** A test case: its unique ID, keyword names and UDF robot tags, and interactions. */
  datatype TestCaseDetails = TestCaseDetails(
    uniqueID: string,
    keywordNames: seq<string>,
    udfRobotTags: seq<string>,
    interactions: seq<InteractionDetails>)

  /** A test case set: `testCaseCount` is `len(value.testCases)`. */
  datatype TestCaseSetDetails = TestCaseSetDetails(
    uniqueID: string,
    name: string,
    numbering: string,
    testCaseCount: nat,
    keywordNames: seq<string>,
    udfRobotTags: seq<string>)

  /** A test theme's base information and optional specification status. */
  datatype TestThemeDetails = TestThemeDetails(
    uniqueID: string,
    numbering: string,
    specificationStatus: Option<string>)

  // ---------------------------------------------------------------------
  // Interaction nodes
  // ---------------------------------------------------------------------

  datatype InteractionNode =
    | CompoundNode(value: InteractionDetails, indent: int, children: seq<InteractionNode>)
    | AtomicNode(value: InteractionDetails, indent: int)

  /**
   * Reference definition of the children built from `xs` at `indent`:
   * compounds (with their own children one level deeper) and atomics, in
   * order; every other interaction is dropped.
   */
  function ChildNodes(xs: seq<InteractionDetails>, indent: int): (r: seq<InteractionNode>)
    ensures |r| <= |xs|
    ensures (forall i :: 0 <= i < |xs| ==> xs[i].interactionType == Textual) ==> r == []
    decreases xs
  {
    if xs == [] then []
    else NodeOf(xs[0], indent) + ChildNodes(xs[1..], indent)
  }

  function NodeOf(x: InteractionDetails, indent: int): (r: seq<InteractionNode>)
    ensures |r| <= 1
    ensures r == [] <==> x.interactionType == Textual
    decreases x, 0
  {
    match x.interactionType
    case Compound => [CompoundNode(x, indent, ChildNodes(x.interactions, indent + 1))]
    case Atomic => [AtomicNode(x, indent)]
    case Textual => []
  }

  /** The details kept from `xs`: exactly the compound and atomic ones. */
  function Kept(xs: seq<InteractionDetails>): (r: seq<InteractionDetails>)
    ensures forall x :: x in r ==> x in xs && x.interactionType != Textual
    ensures forall x :: x in xs && x.interactionType != Textual ==> x in r
  {
    if xs == [] then []
    else (if xs[0].interactionType == Textual then [] else [xs[0]]) + Kept(xs[1..])
  }

  function Values(ns: seq<InteractionNode>): seq<InteractionDetails>
  {
    if ns == [] then [] else [ns[0].value] + Values(ns[1..])
  }

  /** `n` sits at `indent` and each nested child one level below its parent. */
  ghost predicate IndentedAt(n: InteractionNode, indent: int)
    decreases n
  {
    n.indent == indent &&
    (n.CompoundNode? ==> forall c :: c in n.children ==> IndentedAt(c, indent + 1))
  }

  lemma {:induction false} ValuesAppend(a: seq<InteractionNode>, b: seq<InteractionNode>)
    ensures Values(a + b) == Values(a) + Values(b)
  {
    if a == [] {
      assert a + b == b;
    } else {
      assert (a + b)[0] == a[0];
      assert (a + b)[1..] == a[1..] + b;
      ValuesAppend(a[1..], b);
    }
  }

  /** The built children carry the kept interactions, in their order. */
  lemma {:induction false} ChildNodesKeepCompoundsAndAtomics(xs: seq<InteractionDetails>, indent: int)
    ensures Values(ChildNodes(xs, indent)) == Kept(xs)
    decreases xs
  {
    if xs != [] {
      ChildNodesKeepCompoundsAndAtomics(xs[1..], indent);
      ValuesAppend(NodeOf(xs[0], indent), ChildNodes(xs[1..], indent));
    }
  }

  /** Every built node has its level's indent, its children the next one. */
  lemma {:induction false} ChildNodesAreIndented(xs: seq<InteractionDetails>, indent: int)
    ensures forall n :: n in ChildNodes(xs, indent) ==> IndentedAt(n, indent)
    decreases xs
  {
    if xs != [] {
      NodeOfIsIndented(xs[0], indent);
      ChildNodesAreIndented(xs[1..], indent);
    }
  }

  lemma {:induction false} NodeOfIsIndented(x: InteractionDetails, indent: int)
    ensures forall n :: n in NodeOf(x, indent) ==> IndentedAt(n, indent)
    decreases x, 0
  {
    if x.interactionType == Compound {
      ChildNodesAreIndented(x.interactions, indent + 1);
    }
  }

  /** `CompoundInteractionNode(x, indent)`: the constructor's loop over `x.interactions`. */
  method NewCompoundNode(x: InteractionDetails, indent: int) returns (n: InteractionNode)
    ensures n == CompoundNode(x, indent, ChildNodes(x.interactions, indent + 1))
    decreases x, 1
  {
    var children := BuildChildren(x.interactions, indent + 1);
    n := CompoundNode(x, indent, children);
  }

  /** The `for interaction in ...` loop both node constructors share. */
  method BuildChildren(xs: seq<InteractionDetails>, indent: int) returns (children: seq<InteractionNode>)
    ensures children == ChildNodes(xs, indent)
    decreases xs, 0
  {
    children := [];
    for i := 0 to |xs|
      invariant children + ChildNodes(xs[i..], indent) == ChildNodes(xs, indent)
    {
      var piece: seq<InteractionNode> := [];
      match xs[i].interactionType {
        case Compound =>
          var c := NewCompoundNode(xs[i], indent);
          piece := [c];
        case Atomic =>
          piece := [AtomicNode(xs[i], indent)];
        case Textual =>
      }
      ChildNodesStep(xs, i, indent, children, piece);
      children := children + piece;
    }
    assert xs[|xs|..] == [];
  }

  lemma ChildNodesStep(xs: seq<InteractionDetails>, i: nat, indent: int,
                       done: seq<InteractionNode>, piece: seq<InteractionNode>)
    requires i < |xs| && piece == NodeOf(xs[i], indent)
    ensures done + ChildNodes(xs[i..], indent) == (done + piece) + ChildNodes(xs[i + 1..], indent)
  {
    assert xs[i..][0] == xs[i];
    assert xs[i..][1..] == xs[i + 1..];
  }

  /** A test case node and its interaction children, built at indent 1. */
  datatype TestCaseNode = TestCaseNode(value: TestCaseDetails, children: seq<InteractionNode>)

  method NewTestCaseNode(tc: TestCaseDetails) returns (n: TestCaseNode)
    ensures n == TestCaseNode(tc, ChildNodes(tc.interactions, 1))
  {
    var children := BuildChildren(tc.interactions, 1);
    n := TestCaseNode(tc, children);
  }

  // ---------------------------------------------------------------------
  // The visited tree and the calls a visitor receives
  // ---------------------------------------------------------------------

  /**
   * The children of `RootNode`, `TestThemeNode` and `TestCaseSetNode` in
   * insertion order. Theme and set carry the node object that memoises
   * their path.
   */
  datatype SuiteTree =
    | ThemeTree(node: SuitePaths.SuiteNode, theme: TestThemeDetails, children: seq<SuiteTree>)
    | SetTree(node: SuitePaths.SuiteNode, testCaseSet: TestCaseSetDetails, children: seq<SuiteTree>)
    | CaseTree(testCase: TestCaseNode)

  /** One call a visitor receives. */
  datatype VisitorCall =
    | VisitTestTheme(theme: TestThemeDetails)
    | StartTestCaseSet(testCaseSet: TestCaseSetDetails)
    | EndTestCaseSet(testCaseSet: TestCaseSetDetails)
    | StartTestCase(testCase: TestCaseDetails)
    | EndTestCase(testCase: TestCaseDetails)
    | StartCompoundInteraction(node: InteractionNode)
    | EndCompoundInteraction(node: InteractionNode)
    | VisitAtomicInteraction(node: InteractionNode)

  /** The calls `n.visit(visitor)` makes, in order. */
  function InteractionTrace(n: InteractionNode): seq<VisitorCall>
    decreases n, 1
  {
    match n
    case AtomicNode(_, _) => [VisitAtomicInteraction(n)]
    case CompoundNode(_, _, children) =>
      [StartCompoundInteraction(n)] + InteractionsTrace(children) + [EndCompoundInteraction(n)]
  }

  function InteractionsTrace(ns: seq<InteractionNode>): seq<VisitorCall>
    decreases ns, 0
  {
    if ns == [] then [] else InteractionTrace(ns[0]) + InteractionsTrace(ns[1..])
  }

  function Trace(t: SuiteTree): (r: seq<VisitorCall>)
    ensures |r| >= (if t.ThemeTree? then 1 else 2)
    ensures r[0] == (match t
                     case ThemeTree(_, theme, _) => VisitTestTheme(theme)
                     case SetTree(_, tcs, _) => StartTestCaseSet(tcs)
                     case CaseTree(tc) => StartTestCase(tc.value))
    decreases t, 1
  {
    match t
    case ThemeTree(_, theme, children) => [VisitTestTheme(theme)] + ForestTrace(children)
    case SetTree(_, tcs, children) =>
      [StartTestCaseSet(tcs)] + ForestTrace(children) + [EndTestCaseSet(tcs)]
    case CaseTree(tc) =>
      [StartTestCase(tc.value)] + InteractionsTrace(tc.children) + [EndTestCase(tc.value)]
  }

  /** `RootNode.visit` and the loops over children: each child's calls in turn. */
  function ForestTrace(ts: seq<SuiteTree>): seq<VisitorCall>
    decreases ts, 0
  {
    if ts == [] then [] else Trace(ts[0]) + ForestTrace(ts[1..])
  }

  /** Visiting children one after another: the calls of a concatenation are the concatenated calls. */
  lemma {:induction false} InteractionsTraceAppend(a: seq<InteractionNode>, b: seq<InteractionNode>)
    ensures InteractionsTrace(a + b) == InteractionsTrace(a) + InteractionsTrace(b)
    decreases |a|
  {
    if a == [] {
      assert a + b == b;
    } else {
      assert (a + b)[0] == a[0];
      assert (a + b)[1..] == a[1..] + b;
      InteractionsTraceAppend(a[1..], b);
    }
  }

  lemma {:induction false} ForestTraceAppend(a: seq<SuiteTree>, b: seq<SuiteTree>)
    ensures ForestTrace(a + b) == ForestTrace(a) + ForestTrace(b)
    decreases |a|
  {
    if a == [] {
      assert a + b == b;
    } else {
      assert (a + b)[0] == a[0];
      assert (a + b)[1..] == a[1..] + b;
      ForestTraceAppend(a[1..], b);
    }
  }

  // ---------------------------------------------------------------------
  // Bracketing: every start is closed by its own end, innermost first
  // ---------------------------------------------------------------------

  datatype Opened = OpenSet(s: TestCaseSetDetails) | OpenCase(c: TestCaseDetails) | OpenCompound(n: InteractionNode)

  /**
   * Replays calls against a stack of open brackets: a start pushes, an end
   * must close the innermost open bracket; `None` when one does not.
   */
  function Run(calls: seq<VisitorCall>, stack: seq<Opened>): Option<seq<Opened>>
    decreases |calls|
  {
    if calls == [] then Some(stack)
    else
      var next: Option<seq<Opened>> :=
        match calls[0]
        case VisitTestTheme(_) => Some(stack)
        case VisitAtomicInteraction(_) => Some(stack)
        case StartTestCaseSet(s) => Some(stack + [OpenSet(s)])
        case StartTestCase(c) => Some(stack + [OpenCase(c)])
        case StartCompoundInteraction(n) => Some(stack + [OpenCompound(n)])
        case EndTestCaseSet(s) => Close(stack, OpenSet(s))
        case EndTestCase(c) => Close(stack, OpenCase(c))
        case EndCompoundInteraction(n) => Close(stack, OpenCompound(n));
      match next
      case None => None
      case Some(st) => Run(calls[1..], st)
  }

  function Close(stack: seq<Opened>, o: Opened): (r: Option<seq<Opened>>)
    ensures r.Some? <==> |stack| > 0 && stack[|stack| - 1] == o
  {
    if |stack| > 0 && stack[|stack| - 1] == o then Some(stack[..|stack| - 1]) else None
  }

  lemma {:induction false} RunAppend(a: seq<VisitorCall>, b: seq<VisitorCall>, stack: seq<Opened>)
    ensures Run(a + b, stack) == match Run(a, stack) case None => None case Some(st) => Run(b, st)
    decreases |a|
  {
    if a == [] {
      assert a + b == b;
    } else {
      assert (a + b)[0] == a[0];
      assert (a + b)[1..] == a[1..] + b;
      var next: Option<seq<Opened>> :=
        match a[0]
        case VisitTestTheme(_) => Some(stack)
        case VisitAtomicInteraction(_) => Some(stack)
        case StartTestCaseSet(s) => Some(stack + [OpenSet(s)])
        case StartTestCase(c) => Some(stack + [OpenCase(c)])
        case StartCompoundInteraction(n) => Some(stack + [OpenCompound(n)])
        case EndTestCaseSet(s) => Close(stack, OpenSet(s))
        case EndTestCase(c) => Close(stack, OpenCase(c))
        case EndCompoundInteraction(n) => Close(stack, OpenCompound(n));
      if next.Some? {
        RunAppend(a[1..], b, next.value);
      }
    }
  }

  lemma RunOpenClose(o: Opened, start: VisitorCall, inner: seq<VisitorCall>, end: VisitorCall, stack: seq<Opened>)
    requires Run(inner, stack + [o]) == Some(stack + [o])
    requires (start.StartTestCaseSet? && o == OpenSet(start.testCaseSet) && end == EndTestCaseSet(start.testCaseSet)) ||
             (start.StartTestCase? && o == OpenCase(start.testCase) && end == EndTestCase(start.testCase)) ||
             (start.StartCompoundInteraction? && o == OpenCompound(start.node) && end == EndCompoundInteraction(start.node))
    ensures Run([start] + inner + [end], stack) == Some(stack)
  {
    RunAppend([start] + inner, [end], stack);
    RunAppend([start], inner, stack);
    assert Run([start], stack) == Some(stack + [o]) by {
      assert [start][1..] == [];
    }
    assert Run([end], stack + [o]) == Some(stack) by {
      assert [end][1..] == [];
      assert (stack + [o])[..|stack|] == stack;
    }
  }

  /** The calls of one interaction close every bracket they open, in any context. */
  lemma {:induction false} InteractionTraceIsBalanced(n: InteractionNode, stack: seq<Opened>)
    ensures Run(InteractionTrace(n), stack) == Some(stack)
    decreases n, 1
  {
    match n {
      case AtomicNode(_, _) =>
        assert InteractionTrace(n)[1..] == [];
      case CompoundNode(_, _, children) =>
        InteractionsTraceIsBalanced(children, stack + [OpenCompound(n)]);
        RunOpenClose(OpenCompound(n), StartCompoundInteraction(n), InteractionsTrace(children),
                     EndCompoundInteraction(n), stack);
    }
  }

  lemma {:induction false} InteractionsTraceIsBalanced(ns: seq<InteractionNode>, stack: seq<Opened>)
    ensures Run(InteractionsTrace(ns), stack) == Some(stack)
    decreases ns, 0
  {
    if ns != [] {
      InteractionTraceIsBalanced(ns[0], stack);
      InteractionsTraceIsBalanced(ns[1..], stack);
      RunAppend(InteractionTrace(ns[0]), InteractionsTrace(ns[1..]), stack);
    }
  }

  /**
   * The calls of a whole tree close every set and test case they open, and
   * a theme's own call precedes those of its children.
   */
  lemma {:induction false} TraceIsBalanced(t: SuiteTree, stack: seq<Opened>)
    ensures Run(Trace(t), stack) == Some(stack)
    ensures t.ThemeTree? ==> Trace(t)[0] == VisitTestTheme(t.theme)
    decreases t, 1
  {
    match t {
      case ThemeTree(_, theme, children) =>
        ForestTraceIsBalanced(children, stack);
        RunAppend([VisitTestTheme(theme)], ForestTrace(children), stack);
        assert [VisitTestTheme(theme)][1..] == [];
      case SetTree(_, tcs, children) =>
        ForestTraceIsBalanced(children, stack + [OpenSet(tcs)]);
        RunOpenClose(OpenSet(tcs), StartTestCaseSet(tcs), ForestTrace(children), EndTestCaseSet(tcs), stack);
      case CaseTree(tc) =>
        InteractionsTraceIsBalanced(tc.children, stack + [OpenCase(tc.value)]);
        RunOpenClose(OpenCase(tc.value), StartTestCase(tc.value), InteractionsTrace(tc.children),
                     EndTestCase(tc.value), stack);
    }
  }

  lemma {:induction false} ForestTraceIsBalanced(ts: seq<SuiteTree>, stack: seq<Opened>)
    ensures Run(ForestTrace(ts), stack) == Some(stack)
    decreases ts, 0
  {
    if ts != [] {
      TraceIsBalanced(ts[0], stack);
      ForestTraceIsBalanced(ts[1..], stack);
      RunAppend(Trace(ts[0]), ForestTrace(ts[1..]), stack);
    }
  }
}
