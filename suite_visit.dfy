// The `visit` methods of test_theme_tree.py driving a
// `TestSuiteCreationVisitor`: each node calls the visitor for itself and
// visits its children in order. The calls received are exactly `Trace`;
// inside a test case and inside a test case set of test cases the
// visitor's state is exactly the step functions applied to those calls;
// any visit stores files exactly under its themes' and sets' unique IDs.

module SuiteVisit {
  import opened Wrappers
  import Text
  import opened SuitePaths
  import opened SuiteTree
  import opened SuiteCreation

  /** Every theme and set node of the tree hangs on a well-founded parent chain. */
  ghost predicate AllLinked(t: SuiteTree)
    decreases t, 1
  {
    match t
    case ThemeTree(node, _, children) => node.Linked() && ForestLinked(children)
    case SetTree(node, _, children) => node.Linked() && ForestLinked(children)
    case CaseTree(_) => true
  }

  ghost predicate ForestLinked(ts: seq<SuiteTree>)
    decreases ts, 0
  {
    forall i :: 0 <= i < |ts| ==> AllLinked(ts[i])
  }

  /** The nodes whose cached paths visiting `t` may fill in: its nodes and their ancestors. */
  ghost function Footprint(t: SuiteTree): set<SuiteNode>
    requires AllLinked(t)
    decreases t, 1
  {
    match t
    case ThemeTree(node, _, children) => node.Lineage() + ForestFootprint(children)
    case SetTree(node, _, children) => node.Lineage() + ForestFootprint(children)
    case CaseTree(_) => {}
  }

  ghost function ForestFootprint(ts: seq<SuiteTree>): set<SuiteNode>
    requires ForestLinked(ts)
    decreases ts, 0
  {
    if ts == [] then {} else Footprint(ts[0]) + ForestFootprint(ts[1..])
  }

  lemma {:induction false} ChildFootprint(ts: seq<SuiteTree>, i: nat)
    requires ForestLinked(ts) && i < |ts|
    ensures Footprint(ts[i]) <= ForestFootprint(ts)
    decreases |ts|
  {
    if i > 0 {
      assert ts[1..][i - 1] == ts[i];
      ChildFootprint(ts[1..], i - 1);
    }
  }

  /** Test cases have no paths to fill in. */
  lemma {:induction false} CasesHaveNoFootprint(ts: seq<SuiteTree>)
    requires AllCases(ts)
    ensures ForestLinked(ts) && ForestFootprint(ts) == {}
    decreases |ts|
  {
    if ts != [] {
      assert AllCases(ts[1..]) by {
        forall i | 0 <= i < |ts[1..]|
          ensures ts[1..][i].CaseTree?
        {
          assert ts[1..][i] == ts[i + 1];
        }
      }
      CasesHaveNoFootprint(ts[1..]);
    }
  }

  /** The unique IDs under which visiting `t` stores a file: those of its themes and sets. */
  function SuiteIDs(t: SuiteTree): set<string>
    decreases t, 1
  {
    match t
    case ThemeTree(_, theme, children) => {theme.uniqueID} + ForestSuiteIDs(children)
    case SetTree(_, tcs, children) => {tcs.uniqueID} + ForestSuiteIDs(children)
    case CaseTree(_) => {}
  }

  function ForestSuiteIDs(ts: seq<SuiteTree>): set<string>
    decreases ts, 0
  {
    if ts == [] then {} else SuiteIDs(ts[0]) + ForestSuiteIDs(ts[1..])
  }

  lemma {:induction false} ForestSuiteIDsAppend(ts: seq<SuiteTree>, t: SuiteTree)
    ensures ForestSuiteIDs(ts + [t]) == ForestSuiteIDs(ts) + SuiteIDs(t)
    decreases |ts|
  {
    if ts == [] {
      assert [t][1..] == [];
    } else {
      assert (ts + [t])[0] == ts[0];
      assert (ts + [t])[1..] == ts[1..] + [t];
      ForestSuiteIDsAppend(ts[1..], t);
    }
  }

  /**
   * From `before` to `after`, files were stored under exactly the keys
   * `ids` (new or overwritten) and every other stored file is kept.
   */
  ghost predicate StoresUnder(before: map<string, RobotFile>, after: map<string, RobotFile>, ids: set<string>)
  {
    after.Keys == before.Keys + ids &&
    forall k :: k in before && k !in ids ==> after[k] == before[k]
  }

  lemma StoresUnderCompose(a: map<string, RobotFile>, b: map<string, RobotFile>, c: map<string, RobotFile>,
                           i: set<string>, j: set<string>)
    requires StoresUnder(a, b, i) && StoresUnder(b, c, j)
    ensures StoresUnder(a, c, i + j)
  {
    forall k | k in a && k !in i + j
      ensures c[k] == a[k]
    {
      assert b[k] == a[k];
    }
  }

  /** `end_test_case_set` stores the set's file and keeps every other one. */
  lemma EndSetStores(config: Configuration, st: Bookkeeping, tcs: TestCaseSetDetails, path: seq<string>)
    ensures var r := EndSetStep(config, st, tcs, path);
            StoresUnder(st.testSuites, r.testSuites, {tcs.uniqueID}) &&
            r.testSuites[tcs.uniqueID] ==
              RobotFile(r.settingSection, Some(r.testCasesSection), r.testSuites[tcs.uniqueID].keywords, path)
  {
  }

  /** The calls inside a test case never touch the stored files. */
  lemma {:induction false} CaseLevelKeepsFiles(config: Configuration, st: Bookkeeping, cs: seq<VisitorCall>)
    requires AllCaseLevel(cs)
    ensures ApplyAll(config, st, cs).testSuites == st.testSuites
    decreases |cs|
  {
    if cs != [] {
      assert AllCaseLevel(cs[1..]) by {
        forall i | 0 <= i < |cs[1..]|
          ensures CaseLevel(cs[1..][i])
        {
          assert cs[1..][i] == cs[i + 1];
        }
      }
      CaseLevelKeepsFiles(config, Apply(config, st, cs[0]), cs[1..]);
    }
  }

  // ---------------------------------------------------------------------
  // Each visitor method performs its step on the whole state
  // ---------------------------------------------------------------------

  method PerformAtomic(n: InteractionNode, v: TestSuiteCreationVisitor)
    requires n.AtomicNode?
    modifies v
    ensures v.calls == old(v.calls) + [VisitorCall.VisitAtomicInteraction(n)]
    ensures v.Snapshot() == AtomicStep(v.config, old(v.Snapshot()), n)
  {
    v.VisitAtomicInteraction(n);
  }

  method PerformStartCompound(n: InteractionNode, v: TestSuiteCreationVisitor)
    requires n.CompoundNode?
    modifies v
    ensures v.calls == old(v.calls) + [VisitorCall.StartCompoundInteraction(n)]
    ensures v.Snapshot() == StartCompoundStep(v.config, old(v.Snapshot()), n)
  {
    v.StartCompoundInteraction(n);
  }

  method PerformEndCompound(n: InteractionNode, v: TestSuiteCreationVisitor)
    requires n.CompoundNode?
    modifies v
    ensures v.calls == old(v.calls) + [VisitorCall.EndCompoundInteraction(n)]
    ensures v.Snapshot() == old(v.Snapshot())
  {
    v.EndCompoundInteraction(n);
  }

  method PerformStartCase(tc: TestCaseNode, v: TestSuiteCreationVisitor)
    modifies v
    ensures v.calls == old(v.calls) + [VisitorCall.StartTestCase(tc.value)]
    ensures v.Snapshot() == StartCaseStep(old(v.Snapshot()), tc.value)
  {
    v.StartTestCase(tc);
  }

  method PerformEndCase(tc: TestCaseNode, v: TestSuiteCreationVisitor)
    modifies v
    ensures v.calls == old(v.calls) + [VisitorCall.EndTestCase(tc.value)]
    ensures v.Snapshot() == EndCaseStep(v.config, old(v.Snapshot()), tc.value)
  {
    v.EndTestCase(tc);
  }

  method PerformStartSet(node: SuiteNode, tcs: TestCaseSetDetails, v: TestSuiteCreationVisitor, clean: string -> string)
    requires node.Linked()
    modifies v, node.Lineage()`cachedPath
    ensures node.cachedPath.Some?
    ensures v.calls == old(v.calls) + [VisitorCall.StartTestCaseSet(tcs)]
    ensures v.Snapshot() == StartSetStep(old(v.Snapshot()), tcs, node.cachedPath.value)
  {
    v.StartTestCaseSet(node, tcs, clean);
  }

  method PerformEndSet(node: SuiteNode, tcs: TestCaseSetDetails, v: TestSuiteCreationVisitor, clean: string -> string)
    requires node.Linked()
    modifies v, node.Lineage()`cachedPath
    ensures node.cachedPath.Some?
    ensures old(node.cachedPath).Some? ==> node.cachedPath == old(node.cachedPath)
    ensures v.calls == old(v.calls) + [VisitorCall.EndTestCaseSet(tcs)]
    ensures v.Snapshot() == EndSetStep(v.config, old(v.Snapshot()), tcs, node.cachedPath.value)
  {
    v.EndTestCaseSet(node, tcs, clean);
  }

  // ---------------------------------------------------------------------
  // The visit methods
  // ---------------------------------------------------------------------

  /** `AtomicInteractionNode.visit` and `CompoundInteractionNode.visit`. */
  method VisitInteraction(n: InteractionNode, v: TestSuiteCreationVisitor)
    modifies v
    ensures v.calls == old(v.calls) + InteractionTrace(n)
    ensures AllCaseLevel(InteractionTrace(n)) &&
            v.Snapshot() == ApplyAll(v.config, old(v.Snapshot()), InteractionTrace(n))
    decreases n, 1
  {
    InteractionTraceIsCaseLevel(n);
    ghost var before := v.Snapshot();
    match n {
      case AtomicNode(_, _) =>
        PerformAtomic(n, v);
      case CompoundNode(_, _, children) =>
        ghost var calls := v.calls;
        PerformStartCompound(n, v);
        VisitInteractions(children, v);
        PerformEndCompound(n, v);
        Text.ConcatAssociates(calls, [StartCompoundInteraction(n)], InteractionsTrace(children));
        Text.ConcatAssociates(calls, [StartCompoundInteraction(n)] + InteractionsTrace(children),
                              [EndCompoundInteraction(n)]);
        InteractionsTraceIsCaseLevel(children);
        ApplyAllAppend(v.config, before, [StartCompoundInteraction(n)], InteractionsTrace(children));
        ApplyAllAppend(v.config, before, [StartCompoundInteraction(n)] + InteractionsTrace(children),
                       [EndCompoundInteraction(n)]);
    }
  }

  /** The loop over an interaction's (or a test case's) children. */
  method VisitInteractions(ns: seq<InteractionNode>, v: TestSuiteCreationVisitor)
    modifies v
    ensures v.calls == old(v.calls) + InteractionsTrace(ns)
    ensures AllCaseLevel(InteractionsTrace(ns)) &&
            v.Snapshot() == ApplyAll(v.config, old(v.Snapshot()), InteractionsTrace(ns))
    decreases ns, 0
  {
    InteractionsTraceIsCaseLevel(ns);
    for i := 0 to |ns|
      invariant AllCaseLevel(InteractionsTrace(ns[..i]))
      invariant v.calls == old(v.calls) + InteractionsTrace(ns[..i])
      invariant v.Snapshot() == ApplyAll(v.config, old(v.Snapshot()), InteractionsTrace(ns[..i]))
    {
      ghost var mid := v.Snapshot();
      VisitInteraction(ns[i], v);
      Text.ConcatAssociates(old(v.calls), InteractionsTrace(ns[..i]), InteractionTrace(ns[i]));
      assert ns[..i + 1] == ns[..i] + [ns[i]];
      InteractionsTraceAppend(ns[..i], [ns[i]]);
      assert InteractionsTrace([ns[i]]) == InteractionTrace(ns[i]) + InteractionsTrace([ns[i]][1..]);
      assert [ns[i]][1..] == [];
      assert InteractionsTrace(ns[..i + 1]) == InteractionsTrace(ns[..i]) + InteractionTrace(ns[i]);
      ApplyAllAppend(v.config, old(v.Snapshot()), InteractionsTrace(ns[..i]), InteractionTrace(ns[i]));
      assert v.Snapshot() == ApplyAll(v.config, mid, InteractionTrace(ns[i]));
      assert mid == ApplyAll(v.config, old(v.Snapshot()), InteractionsTrace(ns[..i]));
    }
    assert ns[..|ns|] == ns;
  }

  /** `TestCaseNode.visit`. */
  method VisitTestCase(tc: TestCaseNode, v: TestSuiteCreationVisitor)
    modifies v
    ensures v.calls == old(v.calls) + Trace(CaseTree(tc))
    ensures AllCaseLevel(Trace(CaseTree(tc))) &&
            v.Snapshot() == ApplyAll(v.config, old(v.Snapshot()), Trace(CaseTree(tc)))
  {
    CaseTraceIsCaseLevel(tc);
    InteractionsTraceIsCaseLevel(tc.children);
    ghost var before := v.Snapshot();
    PerformStartCase(tc, v);
    VisitInteractions(tc.children, v);
    PerformEndCase(tc, v);
    Text.ConcatAssociates(old(v.calls), [StartTestCase(tc.value)], InteractionsTrace(tc.children));
    Text.ConcatAssociates(old(v.calls), [StartTestCase(tc.value)] + InteractionsTrace(tc.children),
                          [EndTestCase(tc.value)]);
    ApplyAllAppend(v.config, before, [StartTestCase(tc.value)], InteractionsTrace(tc.children));
    ApplyAllAppend(v.config, before, [StartTestCase(tc.value)] + InteractionsTrace(tc.children),
                   [EndTestCase(tc.value)]);
  }

  /** `TestThemeNode.visit`: the theme first, then its children. */
  method VisitTheme(node: SuiteNode, theme: TestThemeDetails, children: seq<SuiteTree>,
                    v: TestSuiteCreationVisitor, clean: string -> string)
    requires node.Linked() && ForestLinked(children)
    modifies v, node.Lineage()`cachedPath, ForestFootprint(children)`cachedPath
    ensures v.calls == old(v.calls) + [VisitorCall.VisitTestTheme(theme)] + ForestTrace(children)
    ensures StoresUnder(old(v.testSuites), v.testSuites, {theme.uniqueID} + ForestSuiteIDs(children))
    ensures theme.uniqueID !in ForestSuiteIDs(children) ==>
              exists path :: v.testSuites[theme.uniqueID] == InitFile(theme, path)
    decreases children, 1
  {
    v.VisitTestTheme(node, theme, clean);
    ghost var mid := v.testSuites;
    ghost var path := node.cachedPath.value;
    assert StoresUnder(old(v.testSuites), mid, {theme.uniqueID});
    VisitForest(children, v, clean);
    StoresUnderCompose(old(v.testSuites), mid, v.testSuites, {theme.uniqueID}, ForestSuiteIDs(children));
    if theme.uniqueID !in ForestSuiteIDs(children) {
      assert v.testSuites[theme.uniqueID] == InitFile(theme, path);
    }
  }

  /**
   * `TestCaseSetNode.visit`: the children between `start_test_case_set`
   * and `end_test_case_set`. A set whose children are test cases stores
   * exactly the file of `EndSetStep`, under the path the set node has cached.
   */
  method VisitTestCaseSet(node: SuiteNode, tcs: TestCaseSetDetails, children: seq<SuiteTree>,
                          v: TestSuiteCreationVisitor, clean: string -> string)
    requires node.Linked() && ForestLinked(children)
    modifies v, node.Lineage()`cachedPath, ForestFootprint(children)`cachedPath
    ensures v.calls == old(v.calls) + [VisitorCall.StartTestCaseSet(tcs)] + ForestTrace(children) +
                                      [VisitorCall.EndTestCaseSet(tcs)]
    ensures AllCases(children) ==>
              AllCaseLevel(ForestTrace(children)) && node.cachedPath.Some? &&
              v.Snapshot() == EndSetStep(v.config,
                                ApplyAll(v.config, StartSetStep(old(v.Snapshot()), tcs, node.cachedPath.value),
                                         ForestTrace(children)),
                                tcs, node.cachedPath.value)
    ensures StoresUnder(old(v.testSuites), v.testSuites, {tcs.uniqueID} + ForestSuiteIDs(children))
    ensures node.cachedPath.Some? && tcs.uniqueID in v.testSuites &&
            v.testSuites[tcs.uniqueID] ==
              RobotFile(v.settingSection, Some(v.testCasesSection), v.testSuites[tcs.uniqueID].keywords,
                        node.cachedPath.value)
    decreases children, 1
  {
    PerformStartSet(node, tcs, v, clean);
    ghost var started := v.Snapshot();
    ghost var p := node.cachedPath.value;
    VisitForest(children, v, clean);
    ghost var visited := v.Snapshot();
    if AllCases(children) {
      CasesHaveNoFootprint(children);
      assert node.cachedPath == Some(p);
      assert visited == ApplyAll(v.config, started, ForestTrace(children));
    }
    PerformEndSet(node, tcs, v, clean);
    EndSetStores(v.config, visited, tcs, node.cachedPath.value);
    StoresUnderCompose(started.testSuites, visited.testSuites, v.testSuites, ForestSuiteIDs(children), {tcs.uniqueID});
  }

  /** `child.visit(visitor)`: the visit method of the child's own class. */
  method VisitTree(t: SuiteTree, v: TestSuiteCreationVisitor, clean: string -> string)
    requires AllLinked(t)
    modifies v, Footprint(t)`cachedPath
    ensures v.calls == old(v.calls) + Trace(t)
    ensures t.CaseTree? ==> AllCaseLevel(Trace(t)) && v.Snapshot() == ApplyAll(v.config, old(v.Snapshot()), Trace(t))
    ensures t.SetTree? && AllCases(t.children) ==>
              AllCaseLevel(ForestTrace(t.children)) && t.node.cachedPath.Some? &&
              v.Snapshot() == EndSetStep(v.config,
                                ApplyAll(v.config, StartSetStep(old(v.Snapshot()), t.testCaseSet, t.node.cachedPath.value),
                                         ForestTrace(t.children)),
                                t.testCaseSet, t.node.cachedPath.value)
    ensures StoresUnder(old(v.testSuites), v.testSuites, SuiteIDs(t))
    decreases t, 2
  {
    match t {
      case ThemeTree(node, theme, children) =>
        VisitTheme(node, theme, children, v, clean);
        Text.ConcatAssociates(old(v.calls), [VisitorCall.VisitTestTheme(theme)], ForestTrace(children));
      case SetTree(node, tcs, children) =>
        VisitTestCaseSet(node, tcs, children, v, clean);
        Text.ConcatAssociates(old(v.calls), [VisitorCall.StartTestCaseSet(tcs)], ForestTrace(children));
        Text.ConcatAssociates(old(v.calls), [VisitorCall.StartTestCaseSet(tcs)] + ForestTrace(children),
                              [VisitorCall.EndTestCaseSet(tcs)]);
      case CaseTree(tc) =>
        VisitTestCase(tc, v);
        CaseLevelKeepsFiles(v.config, old(v.Snapshot()), Trace(t));
    }
  }

  /** `RootNode.visit` and the loops of `TestThemeNode.visit` and `TestCaseSetNode.visit` over their children. */
  method VisitForest(ts: seq<SuiteTree>, v: TestSuiteCreationVisitor, clean: string -> string)
    requires ForestLinked(ts)
    modifies v, ForestFootprint(ts)`cachedPath
    ensures v.calls == old(v.calls) + ForestTrace(ts)
    ensures AllCases(ts) ==>
              AllCaseLevel(ForestTrace(ts)) && v.Snapshot() == ApplyAll(v.config, old(v.Snapshot()), ForestTrace(ts))
    ensures StoresUnder(old(v.testSuites), v.testSuites, ForestSuiteIDs(ts))
    decreases ts, 0
  {
    for i := 0 to |ts|
      invariant v.calls == old(v.calls) + ForestTrace(ts[..i])
      invariant StoresUnder(old(v.testSuites), v.testSuites, ForestSuiteIDs(ts[..i]))
      invariant AllCases(ts) ==>
                  AllCaseLevel(ForestTrace(ts[..i])) &&
                  v.Snapshot() == ApplyAll(v.config, old(v.Snapshot()), ForestTrace(ts[..i]))
    {
      ghost var mid := v.Snapshot();
      ChildFootprint(ts, i);
      VisitTree(ts[i], v, clean);
      StoresUnderCompose(old(v.testSuites), mid.testSuites, v.testSuites, ForestSuiteIDs(ts[..i]), SuiteIDs(ts[i]));
      ForestSuiteIDsAppend(ts[..i], ts[i]);
      Text.ConcatAssociates(old(v.calls), ForestTrace(ts[..i]), Trace(ts[i]));
      assert ts[..i + 1] == ts[..i] + [ts[i]];
      ForestTraceAppend(ts[..i], [ts[i]]);
      assert ForestTrace([ts[i]]) == Trace(ts[i]) + ForestTrace([ts[i]][1..]);
      assert [ts[i]][1..] == [];
      assert ForestTrace(ts[..i + 1]) == ForestTrace(ts[..i]) + Trace(ts[i]);
      if AllCases(ts) {
        assert ts[i].CaseTree?;
        ApplyAllAppend(v.config, old(v.Snapshot()), ForestTrace(ts[..i]), Trace(ts[i]));
        assert v.Snapshot() == ApplyAll(v.config, mid, Trace(ts[i]));
      }
    }
    assert ts[..|ts|] == ts;
  }
}
