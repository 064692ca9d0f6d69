// Building Robot Framework suites from the test theme tree
// (test_suite_creation.py, TestSuiteCreationVisitor). The visitor's
// attributes are gathered in `Bookkeeping`; every visitor call is a step
// function on it, the class methods are proved to perform those steps, and
// the properties of whole test cases and test case sets are lemmas about
// the steps.

module SuiteCreation {
  import opened Wrappers
  import opened SuitePaths
  import opened SuiteTree
  import opened RobotArguments
  import opened RobotImports
  import opened Sorting
  import Text

  /** `SEPARATOR`: four spaces. */
  const Separator: string := "    "

  /**
   * The configuration the visitor reads. `resourcePath` stands for
   * `_create_resource_path`, which maps a resource name (and the current
   * test case set path) through the subdivision mapping, the resource
   * directory and the file system.
   */
  datatype Configuration = Configuration(
    rules: ImportRules,
    fullyQualified: bool,
    logCompoundInteractions: bool,
    forcedLibraries: seq<string>,
    forcedResources: seq<string>,
    forcedVariables: seq<string>,
    resourcePath: (seq<string>, string) -> string)

  // ---------------------------------------------------------------------
  // Robot Framework statements, as records
  // ---------------------------------------------------------------------

  /** What a Setup or Teardown names: a keyword name, or (as written) an interaction node. */
  datatype Target = Named(name: string) | NodeObject(node: InteractionNode)

  datatype Statement =
    | TagsLine(tags: seq<string>)
    | SetupLine(target: Target, args: seq<string>)
    | TeardownLine(target: Target, args: seq<string>)
    | KeywordCallLine(name: string, args: seq<string>, indent: string)
    | CommentLine(comment: string, indent: string)

  datatype TestCaseBlock = TestCaseBlock(name: string, body: seq<Statement>)

  datatype KeywordBlock = KeywordBlock(name: string, body: seq<Statement>)

  datatype CaseSectionItem = CaseItem(testCase: TestCaseBlock) | CaseBlank

  datatype KeywordSectionItem = KeywordItem(keyword: KeywordBlock) | KeywordBlank

  /** Lines of a settings section; `NoTestTags` is the `None` appended when there are no tags. */
  datatype Setting =
    | LibraryLine(library: string)
    | ResourceLine(resource: string)
    | VariablesLine(file: string)
    | UnknownComment(comment: string)
    | TestTagsLine(tags: seq<string>)
    | NoTestTags
    | MetadataLine(key: string, value: string)
    | SettingBlank

  /** A generated file: settings, optional test cases and keywords sections, and its source path. */
  datatype RobotFile = RobotFile(
    settings: seq<Setting>,
    testCases: Option<seq<CaseSectionItem>>,
    keywords: Option<seq<KeywordSectionItem>>,
    source: seq<string>)

  // ---------------------------------------------------------------------
  // Rendering single interactions
  // ---------------------------------------------------------------------

  /** `" " * n`. */
  function Spaces(n: int): (s: string)
    ensures |s| == if n <= 0 then 0 else n
    ensures forall i :: 0 <= i < |s| ==> s[i] == ' '
    decreases n
  {
    if n <= 0 then "" else " " + Spaces(n - 1)
  }

  function CbvArguments(d: InteractionDetails): seq<string>
  {
    RenderArguments(CbvItems(d.parameters), false, d.cbvNames)
  }

  /** The keyword name, prefixed by its library when calls are fully qualified. */
  function CallName(config: Configuration, d: InteractionDetails): (name: string)
    ensures |d.name| <= |name| && name[|name| - |d.name|..] == d.name
    ensures !config.fullyQualified ==> name == d.name
    ensures config.fullyQualified ==> |name| > |d.name| && name[|name| - |d.name| - 1] == '.'
  {
    (if config.fullyQualified then GetRfImport(config.rules, d.path).1 + "." else "") + d.name
  }

  function CallIndent(config: Configuration, n: InteractionNode): string
  {
    if config.logCompoundInteractions then Spaces(n.indent * 4) else Separator
  }

  /** The statement `_add_keyword_to_current_test` appends, for either kind of node. */
  function KeywordCall(config: Configuration, n: InteractionNode): (s: Statement)
    ensures s.KeywordCallLine? && s.name == CallName(config, n.value)
    ensures forall i :: 0 <= i < |s.indent| ==> s.indent[i] == ' '
    ensures |s.indent| == if !config.logCompoundInteractions then 4 else if n.indent <= 0 then 0 else 4 * n.indent
  {
    KeywordCallLine(CallName(config, n.value), CbvArguments(n.value), CallIndent(config, n))
  }

  /** `_interaction_2_keyword_call`: a comment for a compound, a keyword call for an atomic. */
  function GroupedLine(config: Configuration, n: InteractionNode): (s: Statement)
    ensures n.CompoundNode? ==> s == CommentLine("# " + n.value.name, Spaces(n.indent * 4))
    ensures n.AtomicNode? ==> s == KeywordCall(config, n)
  {
    match n
    case CompoundNode(v, indent, _) => CommentLine("# " + v.name, Spaces(indent * 4))
    case AtomicNode(_, _) => KeywordCall(config, n)
  }

  /**
   * The statement `_add_setup_keyword_to_current_test` appends: an atomic
   * interaction is called by name with its call-by-value arguments; any
   * other target (a keyword name, or a compound node as written) is the
   * setup's name, without arguments.
   */
  function SetupStatement(setup: Target): (s: Statement)
    ensures s.SetupLine? && s.target.Named? == (setup.Named? || setup.node.AtomicNode?)
    ensures setup.Named? ==> s == SetupLine(setup, [])
    ensures s.args != [] ==> setup.NodeObject? && setup.node.AtomicNode?
    ensures setup.NodeObject? && setup.node.AtomicNode? ==> s.target == Named(setup.node.value.name)
  {
    if setup.NodeObject? && setup.node.AtomicNode? then SetupLine(Named(setup.node.value.name), CbvArguments(setup.node.value))
    else SetupLine(setup, [])
  }

  /** `_add_teardown_keyword_to_current_test`, the same rule for teardowns. */
  function TeardownStatement(teardown: Target): (s: Statement)
    ensures s.TeardownLine? && s.target.Named? == (teardown.Named? || teardown.node.AtomicNode?)
    ensures teardown.Named? ==> s == TeardownLine(teardown, [])
    ensures s.args != [] ==> teardown.NodeObject? && teardown.node.AtomicNode?
    ensures teardown.NodeObject? && teardown.node.AtomicNode? ==> s.target == Named(teardown.node.value.name)
  {
    if teardown.NodeObject? && teardown.node.AtomicNode? then TeardownLine(Named(teardown.node.value.name), CbvArguments(teardown.node.value))
    else TeardownLine(teardown, [])
  }

  // ---------------------------------------------------------------------
  // The visitor's attributes and its steps
  // ---------------------------------------------------------------------

  /** Where `visit_atomic_interaction` and `start_compound_interaction` put a node. */
  datatype Bucket = SetupBucket | FlowBucket | TeardownBucket

  function Route(isSetup: bool, isTeardown: bool, phase: SequencePhase): (b: Bucket)
    ensures b == SetupBucket <==> isSetup || phase == Setup
    ensures b == TeardownBucket <==> !(isSetup || phase == Setup) && (isTeardown || phase == Teardown)
    ensures b == FlowBucket <==> !(isSetup || phase == Setup) && !(isTeardown || phase == Teardown)
  {
    if isSetup || phase == Setup then SetupBucket
    else if isTeardown || phase == Teardown then TeardownBucket
    else FlowBucket
  }

  /**
   * The visitor's attributes. `imports` maps an import type to its names,
   * a set kept as a sequence without repetitions.
   */
  datatype Bookkeeping = Bookkeeping(
    testSuites: map<string, RobotFile>,
    imports: map<ImportType, seq<string>>,
    keywords: seq<KeywordBlock>,
    tcsPath: seq<string>,
    testCaseCount: int,
    currentTestIndex: int,
    settingSection: seq<Setting>,
    testCasesSection: seq<CaseSectionItem>,
    testCase: TestCaseBlock,
    setupInteractions: seq<InteractionNode>,
    flowInteractions: seq<InteractionNode>,
    teardownInteractions: seq<InteractionNode>,
    isSetup: bool,
    isTeardown: bool)

  function Place(st: Bookkeeping, n: InteractionNode): (r: Bookkeeping)
  {
    match Route(st.isSetup, st.isTeardown, n.value.phase)
    case SetupBucket => st.(setupInteractions := st.setupInteractions + [n])
    case TeardownBucket => st.(teardownInteractions := st.teardownInteractions + [n])
    case FlowBucket => st.(flowInteractions := st.flowInteractions + [n])
  }

  /** `_create_interaction_library_import`: the name joins the set of its import type. */
  function AddImport(imports: map<ImportType, seq<string>>, kind: ImportType, name: string): (r: map<ImportType, seq<string>>)
    ensures r.Keys == imports.Keys + {kind}
  {
    if kind in imports && |imports[kind]| > 0 then
      imports[kind := if name in imports[kind] then imports[kind] else imports[kind] + [name]]
    else imports[kind := [name]]
  }

  /**
   * Each import type holds a set: the name is added once, the other names
   * stay, nothing else appears, and the other types are untouched.
   */
  lemma AddImportKeepsASet(imports: map<ImportType, seq<string>>, kind: ImportType, name: string)
    ensures var r := AddImport(imports, kind, name);
      (forall k :: k in imports && k != kind ==> r[k] == imports[k]) &&
      name in r[kind] &&
      ((kind in imports ==> Distinct(imports[kind])) ==> Distinct(r[kind])) &&
      (kind in imports ==> forall x :: x in imports[kind] ==> x in r[kind]) &&
      (forall x :: x in r[kind] ==> x == name || (kind in imports && x in imports[kind]))
  {
  }

  predicate Distinct(xs: seq<string>)
  {
    forall i, j :: 0 <= i < j < |xs| ==> xs[i] != xs[j]
  }

  function ImportsOf(imports: map<ImportType, seq<string>>, kind: ImportType): seq<string>
  {
    if kind in imports then imports[kind] else []
  }

  /** The new test case of `start_test_case`: named by its unique ID, with a Tags line when it has tags. */
  function CaseHeader(tc: TestCaseDetails): (b: TestCaseBlock)
    ensures b.name == tc.uniqueID && |b.body| <= 1
    ensures b.body == [] <==> tc.keywordNames == [] && forall t :: t in tc.udfRobotTags ==> t == ""
    ensures b.body != [] ==>
              b.body[0].TagsLine? &&
              forall x :: x in b.body[0].tags <==> x in tc.keywordNames || (x in tc.udfRobotTags && x != "")
  {
    var kept := NonEmpty(tc.udfRobotTags);
    assert kept != [] ==> kept[0] in kept;
    var tags := tc.keywordNames + kept;
    TestCaseBlock(tc.uniqueID, if tags != [] then [TagsLine(tags)] else [])
  }

  function StartCaseStep(st: Bookkeeping, tc: TestCaseDetails): (r: Bookkeeping)
    ensures r.testCase == CaseHeader(tc) && r.currentTestIndex == st.currentTestIndex + 1
    ensures r.setupInteractions == [] && r.flowInteractions == [] && r.teardownInteractions == []
    ensures !r.isSetup && !r.isTeardown
    ensures r.testSuites == st.testSuites && r.imports == st.imports && r.keywords == st.keywords &&
            r.tcsPath == st.tcsPath && r.testCaseCount == st.testCaseCount &&
            r.settingSection == st.settingSection && r.testCasesSection == st.testCasesSection
  {
    st.(testCase := CaseHeader(tc),
        setupInteractions := [], flowInteractions := [], teardownInteractions := [],
        isSetup := false, isTeardown := false,
        currentTestIndex := st.currentTestIndex + 1)
  }

  function NonEmpty(xs: seq<string>): (r: seq<string>)
    ensures forall x :: x in r <==> x in xs && x != ""
  {
    if xs == [] then [] else (if xs[0] != "" then [xs[0]] else []) + NonEmpty(xs[1..])
  }

  function StartCompoundStep(config: Configuration, st: Bookkeeping, n: InteractionNode): (r: Bookkeeping)
    ensures r.isSetup <==> n.value.phase == Setup
    ensures r.isTeardown <==> n.value.phase == Teardown
    ensures r.imports == st.imports && r.testCase == st.testCase && r.keywords == st.keywords &&
            r.testCasesSection == st.testCasesSection && r.currentTestIndex == st.currentTestIndex
    ensures var placed := config.logCompoundInteractions;
            var b := Route(r.isSetup, r.isTeardown, n.value.phase);
            r.setupInteractions == st.setupInteractions + (if placed && b == SetupBucket then [n] else []) &&
            r.teardownInteractions == st.teardownInteractions + (if placed && b == TeardownBucket then [n] else []) &&
            r.flowInteractions == st.flowInteractions + (if placed && b == FlowBucket then [n] else [])
  {
    var flagged := st.(isSetup := n.value.phase == Setup, isTeardown := n.value.phase == Teardown);
    if config.logCompoundInteractions then Place(flagged, n) else flagged
  }

  function AtomicStep(config: Configuration, st: Bookkeeping, n: InteractionNode): (r: Bookkeeping)
    ensures r.imports == AddImport(st.imports, GetRfImport(config.rules, n.value.path).0, GetRfImport(config.rules, n.value.path).1)
    ensures r.isSetup == st.isSetup && r.isTeardown == st.isTeardown && r.testCase == st.testCase
    ensures var b := Route(st.isSetup, st.isTeardown, n.value.phase);
            r.setupInteractions == st.setupInteractions + (if b == SetupBucket then [n] else []) &&
            r.teardownInteractions == st.teardownInteractions + (if b == TeardownBucket then [n] else []) &&
            r.flowInteractions == st.flowInteractions + (if b == FlowBucket then [n] else [])
  {
    var (kind, name) := GetRfImport(config.rules, n.value.path);
    Place(st.(imports := AddImport(st.imports, kind, name)), n)
  }

  /** The lines and keywords `end_test_case` makes of the setup (or teardown) interactions. */
  datatype Part = Part(lines: seq<Statement>, keywords: seq<KeywordBlock>)

  function SetupPart(config: Configuration, uid: string, setups: seq<InteractionNode>): Part
  {
    if |setups| > 1 then
      Part([SetupStatement(Named("Setup-" + uid))], [KeywordBlock("Setup-" + uid, Grouped(config, setups))])
    else Part(SetupLines(setups), [])
  }

  function TeardownPart(config: Configuration, uid: string, teardowns: seq<InteractionNode>): Part
  {
    if |teardowns| > 1 then
      Part([TeardownStatement(Named("Teardown-" + uid))], [KeywordBlock("Teardown-" + uid, Grouped(config, teardowns))])
    else Part(TeardownLines(teardowns), [])
  }

  /** One Setup per interaction, when there are not several. */
  function SetupLines(xs: seq<InteractionNode>): seq<Statement>
  {
    seq(|xs|, i requires 0 <= i < |xs| => SetupStatement(NodeObject(xs[i])))
  }

  function TeardownLines(xs: seq<InteractionNode>): seq<Statement>
  {
    seq(|xs|, i requires 0 <= i < |xs| => TeardownStatement(NodeObject(xs[i])))
  }

  /** The body of a grouped setup or teardown keyword. */
  function Grouped(config: Configuration, xs: seq<InteractionNode>): seq<Statement>
  {
    seq(|xs|, i requires 0 <= i < |xs| => GroupedLine(config, xs[i]))
  }

  function FlowLines(config: Configuration, flows: seq<InteractionNode>): seq<Statement>
  {
    seq(|flows|, i requires 0 <= i < |flows| => KeywordCall(config, flows[i]))
  }

  /** The test case `end_test_case` completes: setup, flow and teardown statements appended. */
  function FinishedCase(config: Configuration, st: Bookkeeping, uid: string): TestCaseBlock
  {
    st.testCase.(body := st.testCase.body + SetupPart(config, uid, st.setupInteractions).lines +
                         FlowLines(config, st.flowInteractions) + TeardownPart(config, uid, st.teardownInteractions).lines)
  }

  /** The keywords `end_test_case` adds for grouped setups and teardowns. */
  function CaseKeywords(config: Configuration, st: Bookkeeping, uid: string): seq<KeywordBlock>
  {
    SetupPart(config, uid, st.setupInteractions).keywords + TeardownPart(config, uid, st.teardownInteractions).keywords
  }

  function EndCaseStep(config: Configuration, st: Bookkeeping, tc: TestCaseDetails): (r: Bookkeeping)
    ensures r.testCase.name == st.testCase.name && st.testCase.body <= r.testCase.body
    ensures |r.keywords| <= |st.keywords| + 2 && st.keywords <= r.keywords
    ensures |r.testCasesSection| == |st.testCasesSection| + (if st.currentTestIndex < st.testCaseCount then 2 else 1)
    ensures st.testCasesSection <= r.testCasesSection
    ensures r.testCasesSection[|st.testCasesSection|] == CaseItem(r.testCase)
    ensures r.currentTestIndex == st.currentTestIndex && r.testSuites == st.testSuites && r.imports == st.imports
  {
    var finished := FinishedCase(config, st, tc.uniqueID);
    st.(testCase := finished,
        keywords := st.keywords + CaseKeywords(config, st, tc.uniqueID),
        testCasesSection := st.testCasesSection + [CaseItem(finished)] +
                            (if st.currentTestIndex < st.testCaseCount then [CaseBlank] else []))
  }

  function StartSetStep(st: Bookkeeping, tcs: TestCaseSetDetails, path: seq<string>): (r: Bookkeeping)
    ensures r.imports == map[] && r.keywords == [] && r.settingSection == [] && r.testCasesSection == []
    ensures r.tcsPath == path && r.testCaseCount == tcs.testCaseCount && r.currentTestIndex == 0
    ensures r.testSuites == st.testSuites
  {
    st.(imports := map[], keywords := [], tcsPath := path, testCaseCount := tcs.testCaseCount,
        currentTestIndex := 0, settingSection := [], testCasesSection := [])
  }

  function Libraries(names: seq<string>): seq<Setting>
  {
    seq(|names|, i requires 0 <= i < |names| => LibraryLine(names[i]))
  }

  function Resources(names: seq<string>): seq<Setting>
  {
    seq(|names|, i requires 0 <= i < |names| => ResourceLine(names[i]))
  }

  function UnknownComments(names: seq<string>): seq<Setting>
  {
    seq(|names|, i requires 0 <= i < |names| => UnknownComment("# UNKNOWN    " + names[i]))
  }

  function Variables(files: seq<string>): seq<Setting>
  {
    seq(|files|, i requires 0 <= i < |files| => VariablesLine(files[i]))
  }

  /** `_create_test_tags`: the tags line, or `None` without tags. */
  function TestTagsOf(tcs: TestCaseSetDetails): (s: Setting)
    ensures s.NoTestTags? || s.TestTagsLine?
    ensures s.NoTestTags? <==> tcs.keywordNames == [] && forall t :: t in tcs.udfRobotTags ==> t == ""
    ensures s.TestTagsLine? ==>
              forall x :: x in s.tags <==> x in tcs.keywordNames || (x in tcs.udfRobotTags && x != "")
  {
    var kept := NonEmpty(tcs.udfRobotTags);
    assert kept != [] ==> kept[0] in kept;
    var tags := tcs.keywordNames + kept;
    if tags != [] then TestTagsLine(tags) else NoTestTags
  }

  /** Each resource name as `_create_resource_path` makes it relative to the set's directory. */
  function ResourcePaths(config: Configuration, tcsPath: seq<string>, names: seq<string>): (r: seq<string>)
    ensures |r| == |names|
  {
    seq(|names|, i requires 0 <= i < |names| => config.resourcePath(tcsPath, names[i]))
  }

  /** A line of the import block of the settings section. */
  predicate IsImportLine(s: Setting)
  {
    s.LibraryLine? || s.ResourceLine? || s.VariablesLine? || s.UnknownComment?
  }

  /** The import lines: given libraries, forced libraries, resources, forced resources, variables, unknown imports. */
  function ImportLinesFor(config: Configuration, tcsPath: seq<string>, libraries: seq<string>, resources: seq<string>, unknowns: seq<string>): (r: seq<Setting>)
    ensures forall i :: 0 <= i < |r| ==> IsImportLine(r[i])
  {
    Libraries(libraries) +
    Libraries(config.forcedLibraries) +
    Resources(ResourcePaths(config, tcsPath, resources)) +
    Resources(config.forcedResources) +
    Variables(config.forcedVariables) +
    UnknownComments(unknowns)
  }

  /** The import lines of a set, each kind sorted. */
  function ImportSettings(config: Configuration, imports: map<ImportType, seq<string>>, tcsPath: seq<string>): (r: seq<Setting>)
    ensures forall i :: 0 <= i < |r| ==> IsImportLine(r[i])
  {
    ImportLinesFor(config, tcsPath, Sort(ImportsOf(imports, LibraryImport)), Sort(ImportsOf(imports, ResourceImport)),
                   Sort(ImportsOf(imports, UnknownImport)))
  }

  /** What `end_test_case_set` appends to the settings section, in order. */
  function SettingsTail(config: Configuration, imports: map<ImportType, seq<string>>, tcsPath: seq<string>, tcs: TestCaseSetDetails): (r: seq<Setting>)
    ensures |r| >= 6
    ensures r[|r| - 6] == TestTagsOf(tcs) && r[|r| - 5] == MetadataLine("UniqueID", tcs.uniqueID) &&
            r[|r| - 4] == MetadataLine("Name", tcs.name) && r[|r| - 3] == MetadataLine("Numbering", tcs.numbering) &&
            r[|r| - 2] == SettingBlank && r[|r| - 1] == SettingBlank
    ensures forall i :: 0 <= i < |r| - 6 ==> IsImportLine(r[i])
  {
    ImportSettings(config, imports, tcsPath) +
    [TestTagsOf(tcs),
     MetadataLine("UniqueID", tcs.uniqueID),
     MetadataLine("Name", tcs.name),
     MetadataLine("Numbering", tcs.numbering),
     SettingBlank, SettingBlank]
  }

  /** The keywords section body: the keywords with a blank line between each two. */
  function KeywordItems(kws: seq<KeywordBlock>): (r: seq<KeywordSectionItem>)
    ensures kws != [] ==> |r| == 2 * |kws| - 1
    ensures kws == [] ==> r == []
    ensures forall i :: 0 <= i < |r| ==> (r[i].KeywordBlank? <==> i % 2 == 1)
    ensures forall i :: 0 <= i < |kws| ==> r[2 * i] == KeywordItem(kws[i])
  {
    if |kws| <= 1 then seq(|kws|, i requires 0 <= i < |kws| => KeywordItem(kws[i]))
    else
      var front := KeywordItems(kws[..|kws| - 1]);
      assert forall i :: 0 <= i < |kws| - 1 ==> kws[..|kws| - 1][i] == kws[i];
      front + [KeywordBlank, KeywordItem(kws[|kws| - 1])]
  }

  function EndSetStep(config: Configuration, st: Bookkeeping, tcs: TestCaseSetDetails, path: seq<string>): (r: Bookkeeping)
    ensures r.testSuites.Keys == st.testSuites.Keys + {tcs.uniqueID}
    ensures forall k :: k in st.testSuites && k != tcs.uniqueID ==> r.testSuites[k] == st.testSuites[k]
    ensures r.testSuites[tcs.uniqueID].source == path
    ensures r.testSuites[tcs.uniqueID].settings == r.settingSection
    ensures r.testSuites[tcs.uniqueID].testCases == Some(r.testCasesSection)
    ensures r.testSuites[tcs.uniqueID].keywords.Some? <==> st.keywords != []
    ensures st.settingSection <= r.settingSection
    ensures st.testCasesSection <= r.testCasesSection
  {
    var settings := st.settingSection + SettingsTail(config, st.imports, st.tcsPath, tcs);
    var cases := st.testCasesSection + (if st.keywords != [] then [CaseBlank, CaseBlank] else []);
    var file := RobotFile(settings, Some(cases), if st.keywords != [] then Some(KeywordItems(st.keywords)) else None, path);
    st.(settingSection := settings, testCasesSection := cases,
        testSuites := st.testSuites[tcs.uniqueID := file])
  }

  /** `RobotInitFileBuilder(...).create_file()`: the theme's metadata, stored as `<path>/__init__`. */
  function InitFile(theme: TestThemeDetails, path: seq<string>): (f: RobotFile)
    ensures f.source == path + ["__init__"] && f.testCases.None? && f.keywords.None?
    ensures |f.settings| == (if theme.specificationStatus.Some? then 3 else 2)
    ensures forall i :: 0 <= i < |f.settings| ==> f.settings[i].MetadataLine?
    ensures f.settings[0] == MetadataLine("UniqueID", theme.uniqueID)
  {
    RobotFile([MetadataLine("UniqueID", theme.uniqueID), MetadataLine("Numbering", theme.numbering)] +
              (if theme.specificationStatus.Some? then [MetadataLine("Specification Status", theme.specificationStatus.value)] else []),
              None, None, path + ["__init__"])
  }

  function ThemeStep(st: Bookkeeping, theme: TestThemeDetails, path: seq<string>): Bookkeeping
  {
    st.(testSuites := st.testSuites[theme.uniqueID := InitFile(theme, path)])
  }

  /** The calls inside a test case set: those that need no path. */
  predicate CaseLevel(c: VisitorCall)
  {
    c.StartTestCase? || c.EndTestCase? || c.StartCompoundInteraction? ||
    c.EndCompoundInteraction? || c.VisitAtomicInteraction?
  }

  function Apply(config: Configuration, st: Bookkeeping, c: VisitorCall): Bookkeeping
    requires CaseLevel(c)
  {
    match c
    case StartTestCase(tc) => StartCaseStep(st, tc)
    case EndTestCase(tc) => EndCaseStep(config, st, tc)
    case StartCompoundInteraction(n) => StartCompoundStep(config, st, n)
    case EndCompoundInteraction(_) => st
    case VisitAtomicInteraction(n) => AtomicStep(config, st, n)
  }

  ghost predicate AllCaseLevel(cs: seq<VisitorCall>)
  {
    forall i :: 0 <= i < |cs| ==> CaseLevel(cs[i])
  }

  function ApplyAll(config: Configuration, st: Bookkeeping, cs: seq<VisitorCall>): Bookkeeping
    requires AllCaseLevel(cs)
    decreases |cs|
  {
    if cs == [] then st else ApplyAll(config, Apply(config, st, cs[0]), cs[1..])
  }

  lemma {:induction false} ApplyAllAppend(config: Configuration, st: Bookkeeping, a: seq<VisitorCall>, b: seq<VisitorCall>)
    requires AllCaseLevel(a) && AllCaseLevel(b)
    ensures AllCaseLevel(a + b)
    ensures ApplyAll(config, st, a + b) == ApplyAll(config, ApplyAll(config, st, a), b)
    decreases |a|
  {
    if a == [] {
      assert a + b == b;
    } else {
      assert (a + b)[0] == a[0];
      assert (a + b)[1..] == a[1..] + b;
      ApplyAllAppend(config, Apply(config, st, a[0]), a[1..], b);
    }
  }

  lemma {:induction false} InteractionTraceIsCaseLevel(n: InteractionNode)
    ensures AllCaseLevel(InteractionTrace(n))
    decreases n, 1
  {
    if n.CompoundNode? {
      InteractionsTraceIsCaseLevel(n.children);
    }
  }

  lemma {:induction false} InteractionsTraceIsCaseLevel(ns: seq<InteractionNode>)
    ensures AllCaseLevel(InteractionsTrace(ns))
    decreases ns, 0
  {
    if ns != [] {
      InteractionTraceIsCaseLevel(ns[0]);
      InteractionsTraceIsCaseLevel(ns[1..]);
    }
  }

  lemma CaseTraceIsCaseLevel(tc: TestCaseNode)
    ensures AllCaseLevel(Trace(CaseTree(tc)))
  {
    InteractionsTraceIsCaseLevel(tc.children);
  }

  // ---------------------------------------------------------------------
  // Properties of whole interactions and test cases
  // ---------------------------------------------------------------------

  /** Interactions touch only the imports, the three interaction lists and the phase flags. */
  lemma {:induction false} InteractionKeepsTheRest(config: Configuration, st: Bookkeeping, n: InteractionNode)
    ensures AllCaseLevel(InteractionTrace(n))
    ensures var r := ApplyAll(config, st, InteractionTrace(n));
      r.(imports := st.imports, setupInteractions := st.setupInteractions, flowInteractions := st.flowInteractions,
         teardownInteractions := st.teardownInteractions, isSetup := st.isSetup, isTeardown := st.isTeardown) == st
    decreases n, 1
  {
    InteractionTraceIsCaseLevel(n);
    match n
    case AtomicNode(_, _) =>
    case CompoundNode(_, _, children) =>
      var start := Apply(config, st, StartCompoundInteraction(n));
      InteractionsKeepTheRest(config, start, children);
      ApplyAllAppend(config, st, [StartCompoundInteraction(n)], InteractionsTrace(children));
      ApplyAllAppend(config, st, [StartCompoundInteraction(n)] + InteractionsTrace(children), [EndCompoundInteraction(n)]);
  }

  lemma {:induction false} InteractionsKeepTheRest(config: Configuration, st: Bookkeeping, ns: seq<InteractionNode>)
    ensures AllCaseLevel(InteractionsTrace(ns))
    ensures var r := ApplyAll(config, st, InteractionsTrace(ns));
      r.(imports := st.imports, setupInteractions := st.setupInteractions, flowInteractions := st.flowInteractions,
         teardownInteractions := st.teardownInteractions, isSetup := st.isSetup, isTeardown := st.isTeardown) == st
    decreases ns, 0
  {
    InteractionsTraceIsCaseLevel(ns);
    if ns != [] {
      InteractionKeepsTheRest(config, st, ns[0]);
      InteractionsKeepTheRest(config, ApplyAll(config, st, InteractionTrace(ns[0])), ns[1..]);
      ApplyAllAppend(config, st, InteractionTrace(ns[0]), InteractionsTrace(ns[1..]));
    }
  }

  /**
   * While `is_setup` holds, every atomic interaction goes to the setup
   * list, whatever its own phase, and the flags stay as they are.
   */
  lemma {:induction false} AtomicsFollowTheSetupFlag(config: Configuration, st: Bookkeeping, ns: seq<InteractionNode>)
    requires st.isSetup
    requires forall i :: 0 <= i < |ns| ==> ns[i].AtomicNode?
    ensures AllCaseLevel(InteractionsTrace(ns))
    ensures var r := ApplyAll(config, st, InteractionsTrace(ns));
      r.setupInteractions == st.setupInteractions + ns && r.flowInteractions == st.flowInteractions &&
      r.teardownInteractions == st.teardownInteractions && r.isSetup && r.isTeardown == st.isTeardown
    decreases |ns|
  {
    InteractionsTraceIsCaseLevel(ns);
    if ns != [] {
      var next := AtomicStep(config, st, ns[0]);
      assert InteractionTrace(ns[0]) == [VisitAtomicInteraction(ns[0])];
      AtomicsFollowTheSetupFlag(config, next, ns[1..]);
      InteractionsTraceIsCaseLevel(ns[1..]);
      ApplyAllAppend(config, st, InteractionTrace(ns[0]), InteractionsTrace(ns[1..]));
      assert ns == [ns[0]] + ns[1..];
    }
  }

  /** A setup compound whose children are atomic puts all of them, in order, into the setup list. */
  lemma SetupCompoundCollectsItsAtomics(config: Configuration, st: Bookkeeping, n: InteractionNode)
    requires n.CompoundNode? && n.value.phase == Setup
    requires forall i :: 0 <= i < |n.children| ==> n.children[i].AtomicNode?
    ensures AllCaseLevel(InteractionTrace(n))
    ensures var r := ApplyAll(config, st, InteractionTrace(n));
      r.setupInteractions == st.setupInteractions + (if config.logCompoundInteractions then [n] else []) + n.children &&
      r.flowInteractions == st.flowInteractions && r.teardownInteractions == st.teardownInteractions &&
      r.isSetup && !r.isTeardown
  {
    InteractionTraceIsCaseLevel(n);
    var start := Apply(config, st, StartCompoundInteraction(n));
    AtomicsFollowTheSetupFlag(config, start, n.children);
    ApplyAllAppend(config, st, [StartCompoundInteraction(n)], InteractionsTrace(n.children));
    ApplyAllAppend(config, st, [StartCompoundInteraction(n)] + InteractionsTrace(n.children), [EndCompoundInteraction(n)]);
  }

  /**
   * `end_compound_interaction` does not clear the flags: an atomic
   * test-step interaction that follows a setup compound in the same test
   * case still goes to the setup list.
   */
  lemma SetupFlagOutlivesItsCompound(config: Configuration, st: Bookkeeping, n: InteractionNode, a: InteractionNode)
    requires n.CompoundNode? && n.value.phase == Setup
    requires forall i :: 0 <= i < |n.children| ==> n.children[i].AtomicNode?
    requires a.AtomicNode? && a.value.phase == TestStep
    ensures AllCaseLevel(InteractionsTrace([n, a]))
    ensures var r := ApplyAll(config, st, InteractionsTrace([n, a]));
      r.setupInteractions == st.setupInteractions + (if config.logCompoundInteractions then [n] else []) + n.children + [a] &&
      r.flowInteractions == st.flowInteractions
  {
    SetupCompoundCollectsItsAtomics(config, st, n);
    InteractionsTraceIsCaseLevel([n, a]);
    assert [n, a][1..] == [a];
    assert InteractionsTrace([a]) == [VisitAtomicInteraction(a)];
    ApplyAllAppend(config, st, InteractionTrace(n), InteractionsTrace([a]));
  }

  function CountSetups(ss: seq<Statement>): nat
  {
    if ss == [] then 0 else (if ss[0].SetupLine? then 1 else 0) + CountSetups(ss[1..])
  }

  function CountTeardowns(ss: seq<Statement>): nat
  {
    if ss == [] then 0 else (if ss[0].TeardownLine? then 1 else 0) + CountTeardowns(ss[1..])
  }

  lemma {:induction false} CountAppend(a: seq<Statement>, b: seq<Statement>)
    ensures CountSetups(a + b) == CountSetups(a) + CountSetups(b)
    ensures CountTeardowns(a + b) == CountTeardowns(a) + CountTeardowns(b)
    decreases |a|
  {
    if a == [] {
      assert a + b == b;
    } else {
      assert (a + b)[0] == a[0];
      assert (a + b)[1..] == a[1..] + b;
      CountAppend(a[1..], b);
    }
  }

  lemma {:induction false} FlowLinesHaveNoSetups(config: Configuration, flows: seq<InteractionNode>)
    ensures CountSetups(FlowLines(config, flows)) == 0 && CountTeardowns(FlowLines(config, flows)) == 0
    decreases |flows|
  {
    if flows != [] {
      assert FlowLines(config, flows)[1..] == FlowLines(config, flows[1..]);
      FlowLinesHaveNoSetups(config, flows[1..]);
    }
  }

  /** A setup part is one statement: the interaction itself, or the grouping keyword for several. */
  lemma SetupPartShape(config: Configuration, uid: string, setups: seq<InteractionNode>)
    ensures var p := SetupPart(config, uid, setups);
      CountSetups(p.lines) == (if setups == [] then 0 else 1) && CountTeardowns(p.lines) == 0 &&
      |p.lines| == (if setups == [] then 0 else 1) &&
      (|setups| > 1 ==> p.lines == [SetupLine(Named("Setup-" + uid), [])]) &&
      (|setups| == 1 ==> p.lines == [SetupStatement(NodeObject(setups[0]))]) &&
      p.keywords == (if |setups| > 1 then [KeywordBlock("Setup-" + uid, Grouped(config, setups))] else [])
  {
    var p := SetupPart(config, uid, setups);
    if |p.lines| == 1 {
      assert p.lines[1..] == [];
    }
  }

  lemma TeardownPartShape(config: Configuration, uid: string, teardowns: seq<InteractionNode>)
    ensures var p := TeardownPart(config, uid, teardowns);
      CountTeardowns(p.lines) == (if teardowns == [] then 0 else 1) && CountSetups(p.lines) == 0 &&
      |p.lines| == (if teardowns == [] then 0 else 1) &&
      (|teardowns| > 1 ==> p.lines == [TeardownLine(Named("Teardown-" + uid), [])]) &&
      (|teardowns| == 1 ==> p.lines == [TeardownStatement(NodeObject(teardowns[0]))]) &&
      p.keywords == (if |teardowns| > 1 then [KeywordBlock("Teardown-" + uid, Grouped(config, teardowns))] else [])
  {
    var p := TeardownPart(config, uid, teardowns);
    if |p.lines| == 1 {
      assert p.lines[1..] == [];
    }
  }

  /**
   * `end_test_case`: the test case gets at most one Setup, first, and at
   * most one Teardown, last, each present exactly when there are
   * interactions of that phase; several become a keyword named
   * "Setup-<id>" (or "Teardown-<id>") that calls them in order.
   */
  lemma EndTestCaseGroups(config: Configuration, st: Bookkeeping, tc: TestCaseDetails)
    ensures var r := FinishedCase(config, st, tc.uniqueID);
      var setups, teardowns := st.setupInteractions, st.teardownInteractions;
      |r.body| >= |st.testCase.body| &&
      var added := r.body[|st.testCase.body|..];
      r.body == st.testCase.body + added &&
      CountSetups(added) == (if setups == [] then 0 else 1) &&
      CountTeardowns(added) == (if teardowns == [] then 0 else 1) &&
      |added| == (if setups == [] then 0 else 1) + |st.flowInteractions| + (if teardowns == [] then 0 else 1) &&
      (|setups| > 1 ==> added[0] == SetupLine(Named("Setup-" + tc.uniqueID), [])) &&
      (|setups| == 1 ==> added[0] == SetupStatement(NodeObject(setups[0]))) &&
      (|teardowns| > 1 ==> added[|added| - 1] == TeardownLine(Named("Teardown-" + tc.uniqueID), [])) &&
      (|teardowns| == 1 ==> added[|added| - 1] == TeardownStatement(NodeObject(teardowns[0]))) &&
      CaseKeywords(config, st, tc.uniqueID) ==
        (if |setups| > 1 then [KeywordBlock("Setup-" + tc.uniqueID, Grouped(config, setups))] else []) +
        (if |teardowns| > 1 then [KeywordBlock("Teardown-" + tc.uniqueID, Grouped(config, teardowns))] else [])
  {
    var setup := SetupPart(config, tc.uniqueID, st.setupInteractions);
    var teardown := TeardownPart(config, tc.uniqueID, st.teardownInteractions);
    var flows := FlowLines(config, st.flowInteractions);
    var added := setup.lines + flows + teardown.lines;
    var r := FinishedCase(config, st, tc.uniqueID);
    assert r.body == st.testCase.body + added;
    assert r.body[|st.testCase.body|..] == added;
    SetupPartShape(config, tc.uniqueID, st.setupInteractions);
    TeardownPartShape(config, tc.uniqueID, st.teardownInteractions);
    CountAppend(setup.lines, flows);
    CountAppend(setup.lines + flows, teardown.lines);
    FlowLinesHaveNoSetups(config, st.flowInteractions);
  }

  // ---------------------------------------------------------------------
  // The test cases section of a test case set
  // ---------------------------------------------------------------------

  /** Test case (true) or blank line (false), item by item. */
  function Kinds(items: seq<CaseSectionItem>): (k: seq<bool>)
    ensures |k| == |items|
  {
    seq(|items|, i requires 0 <= i < |items| => items[i].CaseItem?)
  }

  lemma KindsAppend(a: seq<CaseSectionItem>, b: seq<CaseSectionItem>)
    ensures Kinds(a + b) == Kinds(a) + Kinds(b)
  {
  }

  lemma LayoutSplit(j: int, m: nat, count: int)
    requires m > 0
    ensures Layout(j, m, count) == Layout(j, 1, count) + Layout(j + 1, m - 1, count)
  {
  }

  lemma CaseAddsItsKind(config: Configuration, st: Bookkeeping, tc: TestCaseNode)
    ensures AllCaseLevel(Trace(CaseTree(tc)))
    ensures var r := ApplyAll(config, st, Trace(CaseTree(tc)));
      r.currentTestIndex == st.currentTestIndex + 1 && r.testCaseCount == st.testCaseCount &&
      Kinds(r.testCasesSection) == Kinds(st.testCasesSection) + Layout(st.currentTestIndex, 1, st.testCaseCount)
  {
    CaseAddsItself(config, st, tc);
    var r := ApplyAll(config, st, Trace(CaseTree(tc)));
    var blank := if st.currentTestIndex + 1 < st.testCaseCount then [CaseBlank] else [];
    KindsAppend(st.testCasesSection, [CaseItem(r.testCase)]);
    KindsAppend(st.testCasesSection + [CaseItem(r.testCase)], blank);
  }

  /** The kinds `m` test cases add, the first of them entered with `current_test_index == j`. */
  function Layout(j: int, m: nat, count: int): seq<bool>
    decreases m
  {
    if m == 0 then [] else [true] + (if j + 1 < count then [false] else []) + Layout(j + 1, m - 1, count)
  }

  /** Visiting a test case advances the index and adds it, with a blank line unless it is the last one. */
  lemma CaseAddsItself(config: Configuration, st: Bookkeeping, tc: TestCaseNode)
    ensures AllCaseLevel(Trace(CaseTree(tc)))
    ensures var r := ApplyAll(config, st, Trace(CaseTree(tc)));
      r.currentTestIndex == st.currentTestIndex + 1 && r.testCaseCount == st.testCaseCount &&
      r.tcsPath == st.tcsPath && r.settingSection == st.settingSection && r.testSuites == st.testSuites &&
      r.testCasesSection == st.testCasesSection + [CaseItem(r.testCase)] +
        (if st.currentTestIndex + 1 < st.testCaseCount then [CaseBlank] else [])
  {
    CaseTraceIsCaseLevel(tc);
    var start := StartCaseStep(st, tc.value);
    InteractionsKeepTheRest(config, start, tc.children);
    ApplyAllAppend(config, st, [StartTestCase(tc.value)], InteractionsTrace(tc.children));
    ApplyAllAppend(config, st, [StartTestCase(tc.value)] + InteractionsTrace(tc.children), [EndTestCase(tc.value)]);
  }

  predicate AllCases(ts: seq<SuiteTree>)
  {
    forall i :: 0 <= i < |ts| ==> ts[i].CaseTree?
  }

  /** Test cases in a row advance the index by their number and leave the set's path, settings and files alone. */
  lemma {:induction false} CasesKeepTheSet(config: Configuration, st: Bookkeeping, ts: seq<SuiteTree>)
    requires AllCases(ts)
    ensures AllCaseLevel(ForestTrace(ts))
    ensures var r := ApplyAll(config, st, ForestTrace(ts));
      r.currentTestIndex == st.currentTestIndex + |ts| && r.testCaseCount == st.testCaseCount &&
      r.tcsPath == st.tcsPath && r.settingSection == st.settingSection && r.testSuites == st.testSuites
    decreases |ts|
  {
    if ts != [] {
      CaseAddsItself(config, st, ts[0].testCase);
      var first := ApplyAll(config, st, Trace(ts[0]));
      CasesKeepTheSet(config, first, ts[1..]);
      ApplyAllAppend(config, st, Trace(ts[0]), ForestTrace(ts[1..]));
    }
  }

  /** ... and add themselves to the test cases section in the order of `Layout`. */
  lemma {:induction false} CasesSection(config: Configuration, st: Bookkeeping, ts: seq<SuiteTree>)
    requires AllCases(ts)
    ensures AllCaseLevel(ForestTrace(ts))
    ensures Kinds(ApplyAll(config, st, ForestTrace(ts)).testCasesSection) ==
              Kinds(st.testCasesSection) + Layout(st.currentTestIndex, |ts|, st.testCaseCount)
    decreases |ts|
  {
    if ts != [] {
      assert ts[0] == CaseTree(ts[0].testCase);
      CaseAddsItsKind(config, st, ts[0].testCase);
      var first := ApplyAll(config, st, Trace(ts[0]));
      CasesSection(config, first, ts[1..]);
      ApplyAllAppend(config, st, Trace(ts[0]), ForestTrace(ts[1..]));
      LayoutSplit(st.currentTestIndex, |ts|, st.testCaseCount);
      Text.ConcatAssociates(Kinds(st.testCasesSection), Layout(st.currentTestIndex, 1, st.testCaseCount),
                            Layout(st.currentTestIndex + 1, |ts| - 1, st.testCaseCount));
    }
  }

  /** When the count is right, test cases and blank lines alternate, starting and ending with a test case. */
  lemma {:induction false} LayoutAlternates(j: int, m: nat)
    requires m > 0
    ensures |Layout(j, m, j + m)| == 2 * m - 1
    ensures forall i :: 0 <= i < 2 * m - 1 ==> Layout(j, m, j + m)[i] == (i % 2 == 0)
    decreases m
  {
    if m > 1 {
      LayoutAlternates(j + 1, m - 1);
      assert Layout(j + 1, m - 1, j + m) == Layout(j + 1, m - 1, (j + 1) + (m - 1));
      var rest := Layout(j + 1, m - 1, j + m);
      assert Layout(j, m, j + m) == [true, false] + rest;
      forall i | 2 <= i < 2 * m - 1
        ensures Layout(j, m, j + m)[i] == (i % 2 == 0)
      {
        assert Layout(j, m, j + m)[i] == rest[i - 2];
        assert (i - 2) % 2 == i % 2;
      }
    }
  }

  /**
   * The file `end_test_case_set` stores for a set of `len(testCases)` test
   * cases: its test cases separated by single blank lines, two more blank
   * lines when a keywords section follows, and the keywords separated by
   * single blank lines.
   */
  lemma SetFileLayout(config: Configuration, st: Bookkeeping, tcs: TestCaseSetDetails, path: seq<string>, ts: seq<SuiteTree>)
    requires AllCases(ts) && |ts| == tcs.testCaseCount && |ts| > 0
    ensures AllCaseLevel(ForestTrace(ts))
    ensures var inner := ApplyAll(config, StartSetStep(st, tcs, path), ForestTrace(ts));
      var file := EndSetStep(config, inner, tcs, path).testSuites[tcs.uniqueID];
      var extra := if inner.keywords != [] then 2 else 0;
      file.source == path && file.testCases.Some? &&
      |file.testCases.value| == 2 * |ts| - 1 + extra &&
      (forall i :: 0 <= i < 2 * |ts| - 1 ==> (file.testCases.value[i].CaseItem? <==> i % 2 == 0)) &&
      (forall i :: 2 * |ts| - 1 <= i < |file.testCases.value| ==> file.testCases.value[i] == CaseBlank) &&
      (file.keywords.Some? <==> inner.keywords != []) &&
      (file.keywords.Some? ==> file.keywords.value == KeywordItems(inner.keywords))
  {
    var start := StartSetStep(st, tcs, path);
    CasesSection(config, start, ts);
    LayoutAlternates(0, |ts|);
    var inner := ApplyAll(config, start, ForestTrace(ts));
    assert Kinds(inner.testCasesSection) == Layout(0, |ts|, |ts|);
    forall i | 0 <= i < 2 * |ts| - 1
      ensures inner.testCasesSection[i].CaseItem? <==> i % 2 == 0
    {
      assert Kinds(inner.testCasesSection)[i] == inner.testCasesSection[i].CaseItem?;
    }
  }

  /** The settings begin with the collected libraries, sorted and each once. */
  lemma SettingsBeginWithSortedLibraries(config: Configuration, st: Bookkeeping, tcs: TestCaseSetDetails)
    ensures var libs := Sort(ImportsOf(st.imports, LibraryImport));
      Sorted(libs) && multiset(libs) == multiset(ImportsOf(st.imports, LibraryImport)) &&
      SettingsTail(config, st.imports, st.tcsPath, tcs)[..|libs|] == Libraries(libs)
  {
    SortIsSortedPermutation(ImportsOf(st.imports, LibraryImport));
  }

  // ---------------------------------------------------------------------
  // The visitor
  // ---------------------------------------------------------------------

  // The loops of `end_test_case` and `end_test_case_set`, each proved to
  // build the sequence its function describes.

  method GroupedBody(config: Configuration, xs: seq<InteractionNode>) returns (body: seq<Statement>)
    ensures body == Grouped(config, xs)
  {
    body := [];
    for i := 0 to |xs|
      invariant body == Grouped(config, xs[..i])
    {
      assert Grouped(config, xs[..i + 1]) == Grouped(config, xs[..i]) + [GroupedLine(config, xs[i])];
      body := body + [GroupedLine(config, xs[i])];
    }
    assert xs[..|xs|] == xs;
  }

  method SetupStatements(lines: seq<Statement>, xs: seq<InteractionNode>) returns (r: seq<Statement>)
    ensures r == lines + SetupLines(xs)
  {
    r := lines;
    for i := 0 to |xs|
      invariant r == lines + SetupLines(xs[..i])
    {
      assert SetupLines(xs[..i + 1]) == SetupLines(xs[..i]) + [SetupStatement(NodeObject(xs[i]))];
      r := r + [SetupStatement(NodeObject(xs[i]))];
    }
    assert xs[..|xs|] == xs;
  }

  method TeardownStatements(lines: seq<Statement>, xs: seq<InteractionNode>) returns (r: seq<Statement>)
    ensures r == lines + TeardownLines(xs)
  {
    r := lines;
    for i := 0 to |xs|
      invariant r == lines + TeardownLines(xs[..i])
    {
      assert TeardownLines(xs[..i + 1]) == TeardownLines(xs[..i]) + [TeardownStatement(NodeObject(xs[i]))];
      r := r + [TeardownStatement(NodeObject(xs[i]))];
    }
    assert xs[..|xs|] == xs;
  }

  method FlowStatements(config: Configuration, lines: seq<Statement>, xs: seq<InteractionNode>) returns (r: seq<Statement>)
    ensures r == lines + FlowLines(config, xs)
  {
    r := lines;
    for i := 0 to |xs|
      invariant r == lines + FlowLines(config, xs[..i])
    {
      assert FlowLines(config, xs[..i + 1]) == FlowLines(config, xs[..i]) + [KeywordCall(config, xs[i])];
      r := r + [KeywordCall(config, xs[i])];
    }
    assert xs[..|xs|] == xs;
  }

  method LibraryImports(settings: seq<Setting>, names: seq<string>) returns (r: seq<Setting>)
    ensures r == settings + Libraries(names)
  {
    r := settings;
    for i := 0 to |names|
      invariant r == settings + Libraries(names[..i])
    {
      assert Libraries(names[..i + 1]) == Libraries(names[..i]) + [LibraryLine(names[i])];
      r := r + [LibraryLine(names[i])];
    }
    assert names[..|names|] == names;
  }

  /** The import lines of `end_test_case_set`, with the per-kind loops. */
  method ImportLines(config: Configuration, tcsPath: seq<string>, settings: seq<Setting>,
                     libraries: seq<string>, resources: seq<string>, unknowns: seq<string>) returns (r: seq<Setting>)
    ensures r == settings + ImportLinesFor(config, tcsPath, libraries, resources, unknowns)
  {
    r := LibraryImports(settings, libraries);
    r := r + Libraries(config.forcedLibraries);
    r := ResourceImports(config, tcsPath, r, resources);
    r := r + Resources(config.forcedResources);
    if config.forcedVariables != [] {
      r := r + Variables(config.forcedVariables);
    }
    r := UnknownImportComments(r, unknowns);
  }

  method ResourceImports(config: Configuration, tcsPath: seq<string>, settings: seq<Setting>, names: seq<string>) returns (r: seq<Setting>)
    ensures r == settings + Resources(ResourcePaths(config, tcsPath, names))
  {
    ghost var paths := ResourcePaths(config, tcsPath, names);
    r := settings;
    for i := 0 to |names|
      invariant r == settings + Resources(paths[..i])
    {
      assert Resources(paths[..i + 1]) == Resources(paths[..i]) + [ResourceLine(paths[i])];
      r := r + [ResourceLine(config.resourcePath(tcsPath, names[i]))];
    }
    assert paths[..|names|] == paths;
  }

  method UnknownImportComments(settings: seq<Setting>, names: seq<string>) returns (r: seq<Setting>)
    ensures r == settings + UnknownComments(names)
  {
    r := settings;
    for i := 0 to |names|
      invariant r == settings + UnknownComments(names[..i])
    {
      assert UnknownComments(names[..i + 1]) == UnknownComments(names[..i]) + [UnknownComment("# UNKNOWN    " + names[i])];
      r := r + [UnknownComment("# UNKNOWN    " + names[i])];
    }
    assert names[..|names|] == names;
  }

  method KeywordSectionBody(kws: seq<KeywordBlock>) returns (body: seq<KeywordSectionItem>)
    ensures body == KeywordItems(kws)
  {
    body := [];
    for index := 0 to |kws|
      invariant body == KeywordItems(kws[..index])
    {
      if index > 0 {
        body := body + [KeywordBlank];
      }
      body := body + [KeywordItem(kws[index])];
      assert kws[..index + 1][..index] == kws[..index];
    }
    assert kws[..|kws|] == kws;
  }

  /** The attributes before any call. */
  const Initial: Bookkeeping := Bookkeeping(map[], map[], [], [], 0, 0, [], [], TestCaseBlock("", []), [], [], [], false, false)

  /**
   * `TestSuiteCreationVisitor`. `calls` records the calls received so far.
   * Each method changes only the attributes its source method assigns and
   * states their new values; the drivers below show that together they
   * perform the step functions.
   */
  class TestSuiteCreationVisitor {
    const config: Configuration
    var testSuites: map<string, RobotFile>
    var imports: map<ImportType, seq<string>>
    var keywords: seq<KeywordBlock>
    var tcsPath: seq<string>
    var testCaseCount: int
    var currentTestIndex: int
    var settingSection: seq<Setting>
    var testCasesSection: seq<CaseSectionItem>
    var testCase: TestCaseBlock
    var setupInteractions: seq<InteractionNode>
    var flowInteractions: seq<InteractionNode>
    var teardownInteractions: seq<InteractionNode>
    var isSetup: bool
    var isTeardown: bool
    ghost var calls: seq<VisitorCall>

    function Snapshot(): Bookkeeping
      reads this
    {
      Bookkeeping(testSuites, imports, keywords, tcsPath, testCaseCount, currentTestIndex, settingSection,
                  testCasesSection, testCase, setupInteractions, flowInteractions, teardownInteractions,
                  isSetup, isTeardown)
    }

    constructor (config: Configuration)
      ensures this.config == config && Snapshot() == Initial && calls == []
    {
      this.config := config;
      testSuites, imports, keywords, tcsPath := map[], map[], [], [];
      testCaseCount, currentTestIndex, settingSection, testCasesSection := 0, 0, [], [];
      testCase := TestCaseBlock("", []);
      setupInteractions, flowInteractions, teardownInteractions := [], [], [];
      isSetup, isTeardown := false, false;
      calls := [];
    }

    /** `visit_test_theme`: the theme's `__init__` file under its path. */
    method VisitTestTheme(node: SuiteNode, theme: TestThemeDetails, clean: string -> string)
      requires node.Linked()
      modifies this`testSuites, this`calls, node.Lineage()`cachedPath
      ensures node.cachedPath.Some?
      ensures old(node.cachedPath).Some? ==> node.cachedPath == old(node.cachedPath)
      ensures testSuites == old(testSuites)[theme.uniqueID := InitFile(theme, node.cachedPath.value)]
      ensures calls == old(calls) + [VisitorCall.VisitTestTheme(theme)]
    {
      var path := node.Path(clean);
      testSuites := testSuites[theme.uniqueID := InitFile(theme, path)];
      calls := calls + [VisitorCall.VisitTestTheme(theme)];
    }

    /** `start_test_case_set`: fresh imports, keywords and sections for the set. */
    method StartTestCaseSet(node: SuiteNode, tcs: TestCaseSetDetails, clean: string -> string)
      requires node.Linked()
      modifies this`imports, this`keywords, this`tcsPath, this`testCaseCount, this`currentTestIndex,
               this`settingSection, this`testCasesSection, this`calls, node.Lineage()`cachedPath
      ensures node.cachedPath.Some?
      ensures old(node.cachedPath).Some? ==> node.cachedPath == old(node.cachedPath)
      ensures imports == map[] && keywords == [] && tcsPath == node.cachedPath.value
      ensures testCaseCount == tcs.testCaseCount && currentTestIndex == 0
      ensures settingSection == [] && testCasesSection == []
      ensures calls == old(calls) + [VisitorCall.StartTestCaseSet(tcs)]
    {
      var path := node.Path(clean);
      OpenSet(tcs, path);
      calls := calls + [VisitorCall.StartTestCaseSet(tcs)];
    }

    /** The attributes `start_test_case_set` resets, for a set stored under `path`. */
    method OpenSet(tcs: TestCaseSetDetails, path: seq<string>)
      modifies this`imports, this`keywords, this`tcsPath, this`testCaseCount, this`currentTestIndex,
               this`settingSection, this`testCasesSection
      ensures imports == map[] && keywords == [] && tcsPath == path
      ensures testCaseCount == tcs.testCaseCount && currentTestIndex == 0
      ensures settingSection == [] && testCasesSection == []
    {
      imports, keywords, tcsPath, testCaseCount := map[], [], path, tcs.testCaseCount;
      currentTestIndex, settingSection, testCasesSection := 0, [], [];
    }

    /** `end_test_case_set`: the settings, the sections and the stored file. */
    method EndTestCaseSet(node: SuiteNode, tcs: TestCaseSetDetails, clean: string -> string)
      requires node.Linked()
      modifies this`settingSection, this`testCasesSection, this`testSuites, this`calls, node.Lineage()`cachedPath
      ensures node.cachedPath.Some?
      ensures old(node.cachedPath).Some? ==> node.cachedPath == old(node.cachedPath)
      ensures settingSection == old(settingSection) + SettingsTail(config, imports, tcsPath, tcs)
      ensures testCasesSection == old(testCasesSection) + (if keywords != [] then [CaseBlank, CaseBlank] else [])
      ensures testSuites == old(testSuites)[tcs.uniqueID :=
                RobotFile(settingSection, Some(testCasesSection),
                          if keywords != [] then Some(KeywordItems(keywords)) else None, node.cachedPath.value)]
      ensures calls == old(calls) + [VisitorCall.EndTestCaseSet(tcs)]
    {
      var path := node.Path(clean);
      CloseSet(tcs, path);
      calls := calls + [VisitorCall.EndTestCaseSet(tcs)];
    }

    /** The sections `end_test_case_set` completes and the file it stores under `path`. */
    method CloseSet(tcs: TestCaseSetDetails, path: seq<string>)
      modifies this`settingSection, this`testCasesSection, this`testSuites
      ensures settingSection == old(settingSection) + SettingsTail(config, imports, tcsPath, tcs)
      ensures testCasesSection == old(testCasesSection) + (if keywords != [] then [CaseBlank, CaseBlank] else [])
      ensures testSuites == old(testSuites)[tcs.uniqueID :=
                RobotFile(settingSection, Some(testCasesSection),
                          if keywords != [] then Some(KeywordItems(keywords)) else None, path)]
    {
      var settings := Settings(tcs);
      var keywordSection: Option<seq<KeywordSectionItem>> := None;
      var blanks: seq<CaseSectionItem> := [];
      if keywords != [] {
        var body := KeywordSectionBody(keywords);
        blanks := [CaseBlank, CaseBlank];
        keywordSection := Some(body);
      }
      var cases := testCasesSection + blanks;
      settingSection, testCasesSection := settings, cases;
      testSuites := testSuites[tcs.uniqueID := RobotFile(settings, Some(cases), keywordSection, path)];
    }

    /** The settings section `end_test_case_set` writes: the imports sorted by kind, the forced ones, tags and metadata. */
    method Settings(tcs: TestCaseSetDetails) returns (settings: seq<Setting>)
      ensures settings == settingSection + SettingsTail(config, imports, tcsPath, tcs)
    {
      settings := ImportLines(config, tcsPath, settingSection, Sort(ImportsOf(imports, LibraryImport)),
                              Sort(ImportsOf(imports, ResourceImport)), Sort(ImportsOf(imports, UnknownImport)));
      settings := settings + [TestTagsOf(tcs)];
      settings := settings + [MetadataLine("UniqueID", tcs.uniqueID), MetadataLine("Name", tcs.name), MetadataLine("Numbering", tcs.numbering)];
      settings := settings + [SettingBlank, SettingBlank];
    }

    /** `start_test_case`: a new test case with its tags, empty lists, cleared flags. */
    method StartTestCase(tc: TestCaseNode)
      modifies this`testCase, this`setupInteractions, this`flowInteractions, this`teardownInteractions,
               this`isSetup, this`isTeardown, this`currentTestIndex, this`calls
      ensures testCase == CaseHeader(tc.value)
      ensures setupInteractions == [] && flowInteractions == [] && teardownInteractions == []
      ensures !isSetup && !isTeardown && currentTestIndex == old(currentTestIndex) + 1
      ensures calls == old(calls) + [VisitorCall.StartTestCase(tc.value)]
    {
      var header := TestCaseBlock(tc.value.uniqueID, []);
      var tags := tc.value.keywordNames + NonEmpty(tc.value.udfRobotTags);
      if tags != [] {
        header := header.(body := header.body + [TagsLine(tags)]);
      }
      testCase, setupInteractions, flowInteractions, teardownInteractions := header, [], [], [];
      isSetup, isTeardown, currentTestIndex := false, false, currentTestIndex + 1;
      calls := calls + [VisitorCall.StartTestCase(tc.value)];
    }

    /** `end_test_case`: setups, flows and teardowns become statements; the test case joins the section. */
    method EndTestCase(tc: TestCaseNode)
      modifies this`testCase, this`keywords, this`testCasesSection, this`calls
      ensures testCase == FinishedCase(config, old(Snapshot()), tc.value.uniqueID)
      ensures keywords == old(keywords) + CaseKeywords(config, old(Snapshot()), tc.value.uniqueID)
      ensures testCasesSection == old(testCasesSection) + [CaseItem(testCase)] +
                                  (if currentTestIndex < testCaseCount then [CaseBlank] else [])
      ensures calls == old(calls) + [VisitorCall.EndTestCase(tc.value)]
    {
      var uid := tc.value.uniqueID;
      var lines := testCase.body;
      var kws := keywords;
      if |setupInteractions| > 1 {
        var setupName := "Setup-" + uid;
        var body := GroupedBody(config, setupInteractions);
        kws := kws + [KeywordBlock(setupName, body)];
        lines := lines + [SetupStatement(Named(setupName))];
      } else {
        lines := SetupStatements(lines, setupInteractions);
      }
      lines := FlowStatements(config, lines, flowInteractions);
      if |teardownInteractions| > 1 {
        var teardownName := "Teardown-" + uid;
        var body := GroupedBody(config, teardownInteractions);
        kws := kws + [KeywordBlock(teardownName, body)];
        lines := lines + [TeardownStatement(Named(teardownName))];
      } else {
        lines := TeardownStatements(lines, teardownInteractions);
      }
      var finished := testCase.(body := lines);
      var cases := testCasesSection + [CaseItem(finished)];
      if currentTestIndex < testCaseCount {
        cases := cases + [CaseBlank];
      }
      testCase, keywords, testCasesSection := finished, kws, cases;
      calls := calls + [VisitorCall.EndTestCase(tc.value)];
    }

    /** `start_compound_interaction`: the flags follow the compound's phase; the compound itself is routed only when compounds are logged. */
    method StartCompoundInteraction(n: InteractionNode)
      requires n.CompoundNode?
      modifies this`isSetup, this`isTeardown, this`setupInteractions, this`flowInteractions, this`teardownInteractions, this`calls
      ensures isSetup == (n.value.phase == Setup) && isTeardown == (n.value.phase == Teardown)
      ensures var placed := config.logCompoundInteractions;
        var b := Route(isSetup, isTeardown, n.value.phase);
        setupInteractions == old(setupInteractions) + (if placed && b == SetupBucket then [n] else []) &&
        teardownInteractions == old(teardownInteractions) + (if placed && b == TeardownBucket then [n] else []) &&
        flowInteractions == old(flowInteractions) + (if placed && b == FlowBucket then [n] else [])
      ensures calls == old(calls) + [VisitorCall.StartCompoundInteraction(n)]
    {
      isSetup, isTeardown := n.value.phase == Setup, n.value.phase == Teardown;
      calls := calls + [VisitorCall.StartCompoundInteraction(n)];
      if !config.logCompoundInteractions {
        return;
      }
      if isSetup || n.value.phase == Setup {
        setupInteractions := setupInteractions + [n];
      } else if isTeardown || n.value.phase == Teardown {
        teardownInteractions := teardownInteractions + [n];
      } else {
        flowInteractions := flowInteractions + [n];
      }
    }

    /** `end_compound_interaction` does nothing. */
    method EndCompoundInteraction(n: InteractionNode)
      requires n.CompoundNode?
      modifies this`calls
      ensures calls == old(calls) + [VisitorCall.EndCompoundInteraction(n)]
    {
      calls := calls + [VisitorCall.EndCompoundInteraction(n)];
    }

    /** `visit_atomic_interaction`: record the import, then route by flags and phase. */
    method VisitAtomicInteraction(n: InteractionNode)
      requires n.AtomicNode?
      modifies this`imports, this`setupInteractions, this`flowInteractions, this`teardownInteractions, this`calls
      ensures imports == AddImport(old(imports), GetRfImport(config.rules, n.value.path).0, GetRfImport(config.rules, n.value.path).1)
      ensures var b := Route(isSetup, isTeardown, n.value.phase);
        setupInteractions == old(setupInteractions) + (if b == SetupBucket then [n] else []) &&
        teardownInteractions == old(teardownInteractions) + (if b == TeardownBucket then [n] else []) &&
        flowInteractions == old(flowInteractions) + (if b == FlowBucket then [n] else [])
      ensures calls == old(calls) + [VisitorCall.VisitAtomicInteraction(n)]
    {
      var (kind, name) := GetRfImport(config.rules, n.value.path);
      imports := AddImport(imports, kind, name);
      if isSetup || n.value.phase == Setup {
        setupInteractions := setupInteractions + [n];
      } else if isTeardown || n.value.phase == Teardown {
        teardownInteractions := teardownInteractions + [n];
      } else {
        flowInteractions := flowInteractions + [n];
      }
      calls := calls + [VisitorCall.VisitAtomicInteraction(n)];
    }
  }
}
