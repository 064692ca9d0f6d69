# TestBench test generation and import, modelled in Dafny

This project models the core of a Visual Studio Code extension that works
with a TestBench server. The extension has four jobs:

- It logs in to the server and browses projects, versions and test cycles
  in a project management tree. A test cycle's themes and test case sets
  go to a second tree, the test theme tree.
- It asks the server for a JSON report of a cycle and polls the report
  job until the report is ready.
- It runs the bundled testbench2robotframework library, which turns the
  report's test theme tree into Robot Framework suite files.
- It imports execution results back into the cycle and polls that import
  job in the same way.

The model covers these parts:

| file | module | what it models |
|---|---|---|
| job_status.dfy | JobStatus | the job-status record and the three completion checks |
| job_poller.dfy | JobPoller | `pollJobStatus`: the loop, its outcomes, its progress reports and its waits |
| generation.dfy | Generation | the generation run's file handling and the replay of the last generation parameters |
| tree_items.dfy | TreeItems | `ProjectManagementTreeItem` and the walk along its parent links |
| cycle_tree.dfy | CycleTree | `getChildrenOfCycle`'s key map and its recursive `buildTree` |
| project_tree_view.dfy | ProjectTreeView | `ProjectManagementTreeDataProvider` |
| theme_tree_view.dfy | ThemeTreeView | `TestThemeTreeDataProvider` |
| theme_selection.dfy | ThemeSelection | `findTestThemeNodes` and the theme pick list |
| connection.dfy | Connection | the base URL, project selection, the upload and import status tables, server and port choice |
| cycle_search.dfy | CycleSearch | `findCycleKeyFromCycleName` |
| suite_paths.dfy | SuitePaths | the numbering prefixes and the memoised paths of the suite tree |
| suite_tree.dfy | SuiteTree | the suite tree's nodes and the visitor calls a visit makes |
| suite_visit.dfy | SuiteVisit | the `visit` methods, driving the suite-creation visitor |
| suite_creation.dfy | SuiteCreation | `TestSuiteCreationVisitor` and the Robot Framework file it builds |
| robot_escaping.dfy | RobotEscaping | `escape_argument_value` |
| robot_arguments.dfy | RobotArguments | `get_cbv_parameters` |
| robot_imports.dfy | RobotImports | `get_rf_import` |
| sorting.dfy | Sorting | Python's `sorted` on strings |
| text.dfy, wrappers.dfy | Text, Wrappers | string helpers; `Option` and `Result` |

State the source changes in place is modelled by classes:

- the tree items and the two tree providers;
- the connection object;
- the suite nodes with their cached paths;
- the suite-creation visitor;
- the generation workspace, meaning the set of existing files and the record of the last generation.

Loops in the source become methods with loop invariants. Each such method
is proved equal to a function that specifies it, and the lemmas are about
those functions. Examples:

- `PollJobStatus` is proved equal to `Poll`;
- `IndexByKey` is proved equal to `Indexed`;
- `GetCbvParameters` is proved equal to `RenderArguments`.

The polling loop reads the server, the user and the clock. Here they are
one `Tick` value per iteration: a cancellation flag, the connection flag,
the outcome of the status read, and the two elapsed times the loop reads,
one for the time-limit check (src/reportHandler.ts line 229) and one for
the choice of delay (line 238).

Where the written specification and the code disagree, the model follows
the code:

- The progress increment is `(percentage - last) / 3`, and nothing clamps
  it. A handled count that goes down yields a negative increment (see
  `JobPoller.IncrementCanBeNegative`).
- A report job has no failure branch. It stops only on success,
  cancellation, a missing connection, a null status or the time limit.
- The replay guard rejects a recorded `executionBased` of `false` as
  missing (reportHandler.ts line 988).

## Model

| member | source | states |
|---|---|---|
| JobStatus.ResultOf | src/reportHandler.ts:48-60 | the `completion.result` lookup the three checks share gives a result exactly when both `completion` and `result` are present, and then it is that `result` |
| JobStatus.IsReportJobCompletedSuccessfully | src/reportHandler.ts:48-50 | a report job counts as done only once it has a completion with a result, and exactly when that result names a non-empty report file |
| JobStatus.IsImportJobCompletedSuccessfully | src/reportHandler.ts:53-55 | an import job counts as successful only once it has a completion with a result, and exactly when that result carries a success member |
| JobStatus.IsImportJobFailed | src/reportHandler.ts:58-60 | an import job counts as failed only once it has a completion with a result, and exactly when that result carries a failure member |
| JobStatus.UnfinishedJobIsUnclassified | src/reportHandler.ts:48-60 | a status without a completion or without a result is neither a finished report nor a successful or failed import |
| JobStatus.ReportClassifierReadsOnlyReportName | src/reportHandler.ts:48-50 | a report job counts as finished exactly when its reporting-success member names a non-empty report file |
| JobStatus.ImportClassifiersCanBothHold | src/reportHandler.ts:53-60 | the success and failure checks of an import are independent: one status can satisfy both |
| JobPoller.Interval | src/reportHandler.ts:236-241 | the wait before the next attempt is 200 ms while less than 10000 ms have elapsed and 1000 ms from then on |
| JobPoller.PollAttempt | src/reportHandler.ts:166-241 | one loop iteration decides as the step function `StepOf` does, in the source's order: cancellation, connection, status read, progress report, job-type checks, time limit, then the wait |
| JobPoller.StepOf | src/reportHandler.ts:166-241 | an iteration is cancelled exactly when cancellation was requested, and then reads nothing; a stop attempted a read exactly when the iteration got past the cancellation and connection checks; a wait happens only after a successful or thrown read with the time limit not reached, lasts the interval for the elapsed time, and keeps the new status after a successful read or the previous one after a thrown read; a stop for the time limit happens only once the limit is reached |
| JobPoller.Poll | src/reportHandler.ts:152-245 | a run makes at most one read per iteration and waits at most once per read; it reports progress at most once per iteration; it is still polling exactly when every iteration waited |
| JobPoller.PollJobStatus | src/reportHandler.ts:152-245 | the loop, started with no status and the bar at 0, produces the run `Poll` specifies: the same outcome, attempt count, progress reports and waits |
| JobPoller.LeadingContinues | src/reportHandler.ts:166-242 | counts the leading iterations that end in a wait; every one before the count waits, and the one at the count (if any) does not |
| JobPoller.PollDecidedByFirstDecisiveTick | src/reportHandler.ts:166-244 | a run returns what its first non-waiting iteration decides, seeing the status the earlier reads left; it makes one read per earlier iteration plus that iteration's own; without such an iteration it is still polling when the ticks run out |
| JobPoller.PollRunsOut | src/reportHandler.ts:166-242 | when every iteration waits, the run is still polling, holds the last status read, and has made one attempt per iteration |
| JobPoller.PollStopsAtDecisiveTick | src/reportHandler.ts:166-244 | when some iteration does not wait, the run's outcome is the one that iteration's step decides |
| JobPoller.CancellationBeforeRead | src/reportHandler.ts:166-171 | a cancellation seen at the top of an iteration the run reaches throws `CancellationError`, after the reads of the earlier iterations only |
| JobPoller.FirstDecisiveIndex | src/reportHandler.ts:166-242 | if iterations before k all wait and iteration k does not, then k is the number of leading waits |
| JobPoller.ReportJobReturnsFirstNamedStatus | src/reportHandler.ts:205-211 | a report job returns a status exactly when the deciding iteration read one that names a report file, and then returns that status; no status read before it named a report |
| JobPoller.ImportJobSuccessBeforeFailure | src/reportHandler.ts:212-218 | an import job returns the status on importing-success and null on importing-failure; success is checked first, so a status carrying both counts as success |
| JobPoller.NullReadAndMissingConnectionReturnNull | src/reportHandler.ts:173-222 | a missing connection returns null before any read, and a null status returns null right after its read; a read that throws never ends the run on its own |
| JobPoller.TimeLimitReturnsLastObservedStatus | src/reportHandler.ts:227-244 | the time limit ends the run only when a limit is given and the elapsed time has reached it; the run then returns the last status it observed, not an error |
| JobPoller.LastReceivedSnoc | src/reportHandler.ts:180-185 | one more iteration sets the status variable to what its read returned, and leaves it unchanged when the read throws |
| JobPoller.WaitsFollowIntervalRule | src/reportHandler.ts:236-241 | every iteration that waits waits by the interval rule, and only iterations that wait do so |
| JobPoller.ReportsFormChain | src/reportHandler.ts:187-200 | progress is reported only for statuses whose two counts are both non-zero; each report carries the rounded percentage, and its increment is a third of the step from the previously reported percentage |
| JobPoller.StepReportFollows | src/reportHandler.ts:187-200 | a single iteration's report, if it makes one, follows the bar's previous position |
| JobPoller.ChainTelescopes | src/reportHandler.ts:196-200 | in a chain of reports, three times the sum of the increments equals the last percentage minus the starting one |
| JobPoller.ProgressIncrementsSumToLastPercentage | src/reportHandler.ts:163-200 | the increments a whole run reports add up to a third of the last reported percentage |
| JobPoller.IncrementCanBeNegative | src/reportHandler.ts:196 | some run reports a negative increment: nothing clamps the step when the handled count drops |
| JobPoller.RoundedPercentageIsNearest | src/reportHandler.ts:190-192 | the integer percentage is `Math.round` of the exact ratio times 100: the nearest integer, with halves rounded up |
| Generation.JoinPath | src/reportHandler.ts:733 | `path.join` of a directory and a file name ends with that file name |
| Generation.StripTrailingSlashes | src/reportHandler.ts:839 | the stripped path is a prefix of the input and does not end in "/" |
| Generation.Basename | src/reportHandler.ts:839 | `path.basename` contains no "/" |
| Generation.Extname | src/reportHandler.ts:840 | `path.extname` is "" or a "." followed by no further ".", ending the basename and shorter than it |
| Generation.IsZipPath | src/reportHandler.ts:840-843 | a path passes the zip check only when its basename ends in ".zip" |
| Generation.ZipPathIffZipSuffix | src/reportHandler.ts:840-845 | the zip check passes exactly when the basename ends in ".zip" and has at least one character before it |
| Generation.GetConfigurationFilePath | src/reportHandler.ts:1235-1239 | the configuration path ends with "testbench2robotframeworkConfig.json" |
| Generation.BasenameOfJoin | src/reportHandler.ts:1237 | joining a plain file name to a directory gives a path whose basename is that name |
| Generation.ConfigurationFileIsNotAZip | src/reportHandler.ts:1235-1239 | the configuration file's extension is ".json", so the zip clean-up never deletes it |
| Generation.SelectedElement | src/reportHandler.ts:603-608 | generation uses the given UID when there is one, else the picked one; an empty or missing choice aborts it, and a chosen element is never empty |
| Generation.GenerationRequest | src/reportHandler.ts:610-613 | the request keeps the execution-based flag; its tree root is empty exactly when "Generate all" (or nothing) was chosen, and is the chosen UID otherwise |
| Generation.ReplayRequestAsWritten | src/reportHandler.ts:987-1000 | the replay fails with "Last generated report parameters are missing." exactly when a recorded field is missing (a recorded `false` counts as missing); otherwise it sends the recorded flag and the recorded UID unchanged |
| Generation.ReplayRequest | src/reportHandler.ts:987-1000 | the replay with the generation's own "Generate all" mapping applied; it fails in exactly the same cases |
| Generation.ReplayRepeatsGenerationRequest | src/reportHandler.ts:610-613 | replaying what a successful execution-based generation recorded asks for the same report the generation asked for |
| Generation.ReplayAsWrittenDiffersAfterGenerateAll | src/reportHandler.ts:998 | after "Generate all", the replay as written asks for a tree root named "Generate all", while the generation asked for the whole tree (root "") |
| Generation.Workspace.DeleteConfigurationFile | src/reportHandler.ts:1246-1262 | the file is gone afterwards; a missing file yields the "Configuration file not found" error; nothing else changes |
| Generation.Workspace.RemoveReportZipFile | src/reportHandler.ts:834-858 | the file is deleted only when it exists and passes the zip check; a missing file yields the warning, and a wrong extension yields the error and leaves the file in place |
| Generation.Workspace.HandleExecutionError | src/reportHandler.ts:561-573 | returns whether the tool run succeeded; after a failure it deletes the configuration file and then the zip, and the notices are exactly those the two deletions report in that order (the zip's checked against the files left after the first); after a success it changes nothing |
| Generation.Workspace.UpdateLastGeneratedReportParams | src/reportHandler.ts:759-764 | the record of the last generation holds exactly the four given values; the files are untouched |
| Generation.Workspace.CleanUp | src/reportHandler.ts:769-782 | deletes the configuration file, deletes the zip only when so configured, and ends with the "Test generation done." message |
| Generation.Workspace.RunTestGenerationProcess | src/reportHandler.ts:701-754 | a cancelled or failed download changes nothing; without a configuration the downloaded zip stays and the run stops; after the tool run the configuration file is gone, the zip follows the failure or clean-up rule, and the record is updated exactly when the tool succeeded |
| Generation.FilesAfterRun | src/reportHandler.ts:747-779 | after a run the configuration file never remains and unrelated files stay; after a failed run the zip stays only when it fails the zip check; after a success it stays unless clean-up was configured and it passes the check |
| Generation.RunLeavesFilesAfterRun | src/reportHandler.ts:747-779 | the handler and clean-up methods, run in sequence, leave exactly the files `FilesAfterRun` describes |
| ThemeSelection.EntryOf | src/reportHandler.ts:674-677 | only TestThemeNode items add an entry; a missing name becomes "Unnamed" and a missing ID becomes "No ID", and the numbering is copied as it is |
| ThemeSelection.ThemesArePreOrderFilter | src/reportHandler.ts:671-687 | the collected entries are those of the TestThemeNode items of the tree, in pre-order |
| ThemeSelection.FindTestThemeNodes | src/reportHandler.ts:671-687 | the entries of the item and of its whole subtree are appended to `results`, node first and then each child in order |
| ThemeSelection.VisitChildren | src/reportHandler.ts:679-684 | the `forEach` over an item's children appends each child's subtree entries in order |
| ThemeSelection.ThemeLabel | src/reportHandler.ts:652 | a theme's label ends with its name, and is the name alone exactly when the numbering is missing or empty |
| ThemeSelection.PickItems | src/reportHandler.ts:649-656 | the pick list is the "Generate all" item followed by one item per theme, in order, each with its label, "ID: <uniqueID>" and its unique ID |
| ThemeSelection.PickedValue | src/reportHandler.ts:662 | a dismissed pick returns nothing; a pick captioned "Generate all" returns "Generate all"; any other value returned is the picked item's unique ID |
| ThemeSelection.PickReturnsChoice | src/reportHandler.ts:662 | picking the first item returns "Generate all"; picking a theme returns its unique ID, unless that theme's label reads "Generate all"; a dismissed pick returns nothing |
| TreeItems.ItemKey | src/projectManagementTreeView.ts:211-234 | `item.key` is present exactly for project-tree payloads (Project, Version, Cycle), and is their key |
| TreeItems.TreeItem.constructor | src/projectManagementTreeView.ts:240-256 | the item stores its label, type, payload, parent and state, has no children yet, and its parent chain is finite |
| TreeItems.FirstOfContext | src/projectManagementTreeView.ts:211-217 | finds the first item of the chain with the given type, and finds none exactly when no item on the chain has that type |
| TreeItems.KeyOfFirstOnChain | src/projectManagementTreeView.ts:211-217 | the `while (currentElement)` walk along the parent links returns the key of the nearest item of the given type, or none when no such item exists or it has no key |
| CycleTree.KeyIndex | src/projectManagementTreeView.ts:118-121 | the position of the first node with a key, or none exactly when no node has it |
| CycleTree.MapSet | src/projectManagementTreeView.ts:120 | `map.set` stores the node, keeps every entry with another key in place, and grows the map by one exactly when the key was new |
| CycleTree.Indexed | src/projectManagementTreeView.ts:118-121 | the map has at most as many values as there were nodes, and the last node set is among them |
| CycleTree.LastWithKey | src/projectManagementTreeView.ts:118-121 | the last node carrying a key, or none exactly when no node carries it |
| CycleTree.IndexByKey | src/projectManagementTreeView.ts:118-121 | the `forEach` that fills the key map yields the map values `Indexed` specifies |
| CycleTree.IndexedKeysAreDistinct | src/projectManagementTreeView.ts:118-121 | the map holds each key once |
| CycleTree.IndexedHasExactlyTheKeys | src/projectManagementTreeView.ts:118-121 | a key is in the map exactly when some node of the cycle carries it |
| CycleTree.IndexedKeepsFirstPosition | src/projectManagementTreeView.ts:118-121 | keys keep the order of their first occurrence: re-setting a key does not move it |
| CycleTree.IndexedKeepsLastValue | src/projectManagementTreeView.ts:118-121 | the value stored under each key is the last node carrying that key |
| CycleTree.IndexedValuesAreNodes | src/projectManagementTreeView.ts:118-121 | every map value is one of the cycle's nodes |
| CycleTree.HasChildren | src/projectManagementTreeView.ts:130-132 | the `some` test holds exactly when a map value names the key as its parent |
| CycleTree.Matching | src/projectManagementTreeView.ts:127-128 | a node is selected at a level exactly when it is in the map, names the level's key as its parent, and is not a TestCaseNode |
| CycleTree.ItemSpec | src/projectManagementTreeView.ts:129-154 | a built item carries its node, element type and label; it gets children exactly when some node names it as parent; it is Collapsed exactly when it has children and is not a TestCaseSetNode, and is never Expanded |
| CycleTree.LevelIsTheSelectedNodes | src/projectManagementTreeView.ts:124-156 | each level of the built tree holds exactly the selected nodes, in map order |
| CycleTree.TreeHasNoTestCases | src/projectManagementTreeView.ts:124-159 | no TestCaseNode appears at any depth; the top level hangs below the root key, and every child names its parent's key |
| CycleTree.BuildTree | src/projectManagementTreeView.ts:124-156 | allocates fresh items whose fields and children mirror the level `LevelSpec` specifies, each with the clicked item as parent |
| CycleTree.LevelSpec | src/projectManagementTreeView.ts:124-156 | a level has at most as many items as there are nodes to filter |
| CycleTree.TreeSpec | src/projectManagementTreeView.ts:159 | the top level of the tree has at most one item per node, and each item is a server node that names the root key as parent and is not a TestCaseNode |
| CycleTree.LevelSpecFuel | src/projectManagementTreeView.ts:124-156 | below a tree whose parent links end within `h` levels, every depth bound of at least `h` builds the same level |
| CycleTree.TreeSpecBoundSuffices | src/projectManagementTreeView.ts:159 | when the parent links below the root end within as many levels as there are nodes, the bound of `TreeSpec` cuts nothing off: a larger bound builds the same tree |
| CycleTree.MakeItem | src/projectManagementTreeView.ts:129-154 | allocates one fresh item, and its children when it has any, realising `ItemSpec` |
| ProjectTreeView.ProjectNodeState | src/projectManagementTreeView.ts:46-50 | a project-tree item is not collapsible exactly when it is a Cycle, and is never Expanded |
| ProjectTreeView.CreateTreeItem | src/projectManagementTreeView.ts:37-53 | a missing payload gives null; otherwise a fresh item with the node's name, its type as context value, the node as payload and the given parent |
| ProjectTreeView.ChildData | src/projectManagementTreeView.ts:85 | a cycle-structure payload has no project children |
| ProjectTreeView.CreateChildItems | src/projectManagementTreeView.ts:85-91 | one fresh item per child node of the payload, in order, each with the element as parent |
| ProjectTreeView.FindProjectKeyOfCycleElement | src/projectManagementTreeView.ts:206-220 | only a Cycle item has a project key: the key of the nearest Project on its parent chain |
| ProjectTreeView.FindCycleKeyOfTreeElement | src/projectManagementTreeView.ts:223-237 | only theme and test case set items have a cycle key: the key of the nearest Cycle on their parent chain |
| ProjectTreeView.CycleChildrenComeFromTheCycle | src/projectManagementTreeView.ts:95-162 | when a cycle yields children, the cycle data has nodes; every child hangs below the structure's root, no TestCaseNode appears at any depth, and all nodes come from the server's list |
| ProjectTreeView.CycleBuildSpec | src/projectManagementTreeView.ts:95-162 | a cycle yields a tree only when the item is a Cycle, the connection is present and the cycle data has nodes, and the tree has at most one top-level item per node |
| ProjectTreeView.GetChildrenOfCycle | src/projectManagementTreeView.ts:95-162 | returns [] without a project key, a connection or cycle nodes; otherwise fresh items realising the tree `buildTree` builds from the root key; the cycle item's own state is untouched |
| ProjectTreeView.ProjectManagementTreeDataProvider.constructor | src/projectManagementTreeView.ts:20-27 | starts without a root item, with the given project key and theme view |
| ProjectTreeView.ProjectManagementTreeDataProvider.Refresh | src/projectManagementTreeView.ts:29-31 | fires one change event and changes nothing else |
| ProjectTreeView.ProjectManagementTreeDataProvider.HandleTestCycleClick | src/projectManagementTreeView.ts:189-196 | for a Cycle, the theme view is cleared and then set to the cycle's built children, two change events in all; those roots are fresh items that realise the tree `CycleBuildSpec` builds, item by item, and they also become the cycle item's children. When the cycle yields nothing, the theme view stays empty. Any other item leaves the theme view and the item untouched |
| ProjectTreeView.ProjectManagementTreeDataProvider.GetChildren | src/projectManagementTreeView.ts:55-92 | without a connection, no children; with no element and no root, the fetched project tree's root item; for a Cycle, [] is returned and the theme view holds fresh items realising the tree `CycleBuildSpec` builds, item by item; otherwise the children built from the payload, an existing (even empty) `children` list being returned as it is |
| ProjectTreeView.ProjectManagementTreeDataProvider.MakeRoot | src/projectManagementTreeView.ts:169-172 | the item becomes the root and one change event fires |
| ProjectTreeView.ProjectManagementTreeDataProvider.HandleExpansion | src/projectManagementTreeView.ts:174-186 | the item's state becomes Expanded or Collapsed as asked; expanding a Cycle also fills the theme view with fresh items realising the tree `CycleBuildSpec` builds, item by item; anything else leaves the theme view and the children alone |
| ProjectTreeView.ProjectManagementTreeDataProvider.ClearTree | src/projectManagementTreeView.ts:198-202 | the root is removed and both views fire a change event; the theme view is emptied |
| ThemeTreeView.TestThemeTreeDataProvider.constructor | src/testThemeTreeView.ts:9 | starts with no roots and no change events |
| ThemeTreeView.TestThemeTreeDataProvider.Refresh | src/testThemeTreeView.ts:11-13 | fires one change event and keeps the roots |
| ThemeTreeView.TestThemeTreeDataProvider.GetChildren | src/testThemeTreeView.ts:19-25 | returns the roots for no element, the element's children when set, and none otherwise |
| ThemeTreeView.TestThemeTreeDataProvider.SetRoots | src/testThemeTreeView.ts:32-35 | the roots become exactly the given items and one change event fires |
| ThemeTreeView.TestThemeTreeDataProvider.MakeRoot | src/testThemeTreeView.ts:38-41 | the element becomes the only root and one change event fires |
| ThemeTreeView.TestThemeTreeDataProvider.HandleExpansion | src/testThemeTreeView.ts:43-48 | the element's state becomes Expanded or Collapsed as asked; its children and the view are untouched |
| ThemeTreeView.TestThemeTreeDataProvider.ClearTree | src/testThemeTreeView.ts:51-54 | the roots are emptied and one change event fires |
| Connection.BaseURLDeterminesServerAndPort | src/testBenchConnection.ts:41 | the base URL `https://<server>:<port>/api` parses back to the server name and port it was built from |
| Connection.BaseURL | src/testBenchConnection.ts:41 | the base URL is an https URL ending in "/api" whose host part starts with the server name followed by ":" |
| Connection.ParseBaseURL | src/testBenchConnection.ts:41 | a URL reads back only when it has the https prefix and the "/api" suffix, and the server name read back is the text between the prefix and the last ":" |
| Connection.PlayServerConnection.constructor | src/testBenchConnection.ts:36-56 | stores the server, port and token, builds the base URL from them, and starts the keep-alive interval |
| Connection.PlayServerConnection.ClearSessionData | src/testBenchConnection.ts:78-85 | every session field is reset: empty URL, server and token, port 0, and the keep-alive id reset (the interval itself is not cleared here) |
| Connection.PlayServerConnection.BaseURLMatchesFields | src/testBenchConnection.ts:41-81 | the stored base URL always parses to the stored server and port, and to nothing once cleared |
| Connection.FindByName | src/testBenchConnection.ts:98 | `find` returns the index of the first project with the name, and -1 exactly when no project has it |
| Connection.SelectProjectKeyIsFirstByName | src/testBenchConnection.ts:87-106 | a key is returned exactly when a non-empty name was picked and some project has it, and it is the key of the first such project |
| Connection.SelectProjectKey | src/testBenchConnection.ts:87-106 | a dismissed or empty pick selects nothing, and a selected key belongs to a project with the picked name |
| Connection.UploadOutcome | src/testBenchConnection.ts:319-341 | the upload succeeds exactly on status 201 with a non-empty file name, and returns that name |
| Connection.ImportOutcome | src/testBenchConnection.ts:379-406 | the import succeeds exactly on status 200 with a non-empty job ID, and returns that ID |
| Connection.ErrorsIdentifyTheStatus | src/testBenchConnection.ts:319-406 | within each of the two status tables, two different failing statuses never throw the same error |
| Connection.TablesAgreeElsewhere | src/testBenchConnection.ts:319-406 | the upload and import tables throw the same kind of error (`CallError`) on every status except 200, 201 and 400; the upload treats 400 and 200 as unexpected, and the import treats 201 as unexpected |
| Connection.ValidatePort | src/testBenchConnection.ts:619-624 | the port box accepts exactly the empty input and inputs made only of decimal digits |
| Connection.ChooseServerName | src/testBenchConnection.ts:597-610 | the login is cancelled exactly when the box is dismissed or both input and setting are empty; otherwise a non-empty input wins over the configured name |
| Connection.ChoosePort | src/testBenchConnection.ts:613-631 | the login is cancelled exactly when the box is dismissed or the input is empty with no configured port (0 counts as none); an empty input falls back to the configured port |
| Connection.TypedPortIsUsed | src/testBenchConnection.ts:631 | a typed port is read back as exactly the number it spells |
| CycleSearch.ChildrenOf | src/testBenchConnection.ts:845 | the children searched (the wrapped node's, else the element's own) are smaller than the element, so the search ends |
| CycleSearch.Matches | src/testBenchConnection.ts:837-840 | only a cycle matches, through the element itself or its wrapped node; an element without a wrapped node matches exactly when it is a Cycle with the name |
| CycleSearch.KeyOfMatch | src/testBenchConnection.ts:841 | a match never returns null; a returned key is the element's own key or, under the corrected rule, the wrapped node's; as written the result is undefined exactly when the element has no key |
| CycleSearch.Find | src/testBenchConnection.ts:835-852 | null is returned only when no element of the list matches |
| CycleSearch.FindCycleKeyFromCycleName | src/testBenchConnection.ts:835-852 | the recursive loop returns what the search function `Find` specifies |
| CycleSearch.FindIsFirstPreorderMatch | src/testBenchConnection.ts:835-852 | when every match carries a key, the search returns the key of the first matching element in pre-order, and null when nothing matches |
| CycleSearch.NullOnlyWithoutMatch | src/testBenchConnection.ts:835-852 | when every match carries a key, the search returns null exactly when no element in the pre-order matches |
| CycleSearch.WrappedCycleHasNoKeyAsWritten | src/testBenchConnection.ts:838-841 | a tree-item wrapper holding the sought cycle matches through `item`, yet the search returns the wrapper's own absent key |
| CycleSearch.WrappedCycleKeyOfMatchedNode | src/testBenchConnection.ts:838-841 | taking the key of the node that matched returns the wrapped cycle's key |
| CycleSearch.RulesAgreeOnJson | src/testBenchConnection.ts:838-841 | on plain JSON nodes both key rules give the same result, so they differ only on wrappers |
| SuitePaths.GetTseIndex | bundled/libs/testbench2robotframework/test_theme_tree.py:55-56 | the index is the text after the last "." of the numbering (the whole numbering when it has none), and contains no "." |
| SuitePaths.Zfill | bundled/libs/testbench2robotframework/test_theme_tree.py:67 | `str.zfill` never shortens; it pads to the width with zeros, placed after a leading sign, and keeps the text after them |
| SuitePaths.ZfillKeepsNumber | bundled/libs/testbench2robotframework/test_theme_tree.py:67 | zero-padding a digit string keeps it a digit string with the same value |
| SuitePaths.GetPaddedIndex | bundled/libs/testbench2robotframework/test_theme_tree.py:59-67 | the padded index is as long as the longer of the index and the decimal child count, and is the index unchanged when that is already long enough |
| SuitePaths.PaddedIndexReadsBack | bundled/libs/testbench2robotframework/test_theme_tree.py:59-67 | a numeric last segment keeps its value after padding and is at least as wide as the child count |
| SuitePaths.FilePrefix | bundled/libs/testbench2robotframework/test_theme_tree.py:70-74 | the prefix is the padded index followed by "_" with suite numbering, and by "__" without it |
| SuitePaths.RootNode.constructor | bundled/libs/testbench2robotframework/test_theme_tree.py:77-79 | a new root has no children |
| SuitePaths.SuiteNode.constructor | bundled/libs/testbench2robotframework/test_theme_tree.py:86-92 | a new theme or set node stores its fields, has no children and no cached path, and its parent chain is finite |
| SuitePaths.SuiteNode.FreshPath | bundled/libs/testbench2robotframework/test_theme_tree.py:99-138 | the path has one segment per level below the root |
| SuitePaths.SuiteNode.Path | bundled/libs/testbench2robotframework/test_theme_tree.py:99-138 | a cached path is returned as it is; otherwise the path is computed (the segment alone at the root, the parent's path plus the segment below it) and cached; on an uncached lineage it equals the path `FreshPath` computes from the current child counts |
| SuitePaths.RootPathAsWritten | bundled/libs/testbench2robotframework/test_theme_tree.py:108-137 | at the root a theme gets a `PurePath`, while a test case set gets a plain string |
| SuitePaths.JoinAsWritten | bundled/libs/testbench2robotframework/test_theme_tree.py:103-134 | `parent_path / segment` succeeds exactly when the parent's path is a `PurePath` |
| SuitePaths.NestedUnderRootCaseSetFails | bundled/libs/testbench2robotframework/test_theme_tree.py:129-137 | a set below a root-level set cannot compute its path as written, while a node below a root-level theme can |
| SuiteTree.Kept | bundled/libs/testbench2robotframework/test_theme_tree.py:145-149 | the kept interactions are exactly the compound and atomic ones |
| SuiteTree.ChildNodes | bundled/libs/testbench2robotframework/test_theme_tree.py:163-167 | at most one child node per interaction, and none when every interaction is textual |
| SuiteTree.ChildNodesKeepCompoundsAndAtomics | bundled/libs/testbench2robotframework/test_theme_tree.py:145-167 | the built child nodes carry exactly the compound and atomic interactions, in their order; textual ones are dropped |
| SuiteTree.ChildNodesAreIndented | bundled/libs/testbench2robotframework/test_theme_tree.py:145-167 | every built node sits at its level's indent, and its children one level deeper |
| SuiteTree.NewCompoundNode | bundled/libs/testbench2robotframework/test_theme_tree.py:158-167 | a compound node keeps its interaction and indent, and its children are built one level deeper |
| SuiteTree.BuildChildren | bundled/libs/testbench2robotframework/test_theme_tree.py:163-167 | the loop builds exactly the child nodes `ChildNodes` specifies |
| SuiteTree.NewTestCaseNode | bundled/libs/testbench2robotframework/test_theme_tree.py:141-149 | a test case node's children are built at indent 1 |
| SuiteTree.InteractionsTraceAppend | bundled/libs/testbench2robotframework/test_theme_tree.py:169-173 | visiting two lists of interactions in turn makes the calls of each in turn |
| SuiteTree.ForestTraceAppend | bundled/libs/testbench2robotframework/test_theme_tree.py:81-83 | visiting two lists of children in turn makes the calls of each in turn |
| SuiteTree.RunOpenClose | bundled/libs/testbench2robotframework/test_theme_tree.py:122-173 | a start call, balanced inner calls and the matching end call leave the open brackets as they were |
| SuiteTree.InteractionTraceIsBalanced | bundled/libs/testbench2robotframework/test_theme_tree.py:169-182 | the calls of one interaction close every compound they open, in any context |
| SuiteTree.TraceIsBalanced | bundled/libs/testbench2robotframework/test_theme_tree.py:94-155 | the calls of a theme, set or test case close every set, case and compound they open; a theme's calls begin with `visit_test_theme` |
| SuiteTree.Trace | bundled/libs/testbench2robotframework/test_theme_tree.py:94-155 | a visit makes at least one call, and at least two for a set or a test case; its first call is `visit_test_theme`, `start_test_case_set` or `start_test_case` for the node visited |
| SuiteTree.ForestTraceIsBalanced | bundled/libs/testbench2robotframework/test_theme_tree.py:81-83 | visiting the root's children makes a balanced sequence of calls |
| SuiteVisit.PerformAtomic | bundled/libs/testbench2robotframework/test_suite_creation.py:195-202 | one `visit_atomic_interaction` call changes the visitor's state as the step `AtomicStep` specifies and logs the call |
| SuiteVisit.PerformStartCompound | bundled/libs/testbench2robotframework/test_suite_creation.py:180-190 | one `start_compound_interaction` call performs `StartCompoundStep` |
| SuiteVisit.PerformEndCompound | bundled/libs/testbench2robotframework/test_suite_creation.py:192-193 | `end_compound_interaction` changes nothing but the log |
| SuiteVisit.PerformStartCase | bundled/libs/testbench2robotframework/test_suite_creation.py:137-148 | one `start_test_case` call performs `StartCaseStep` |
| SuiteVisit.PerformEndCase | bundled/libs/testbench2robotframework/test_suite_creation.py:150-178 | one `end_test_case` call performs `EndCaseStep` |
| SuiteVisit.PerformStartSet | bundled/libs/testbench2robotframework/test_suite_creation.py:75-86 | one `start_test_case_set` call performs `StartSetStep` with the set's path |
| SuiteVisit.PerformEndSet | bundled/libs/testbench2robotframework/test_suite_creation.py:88-135 | one `end_test_case_set` call performs `EndSetStep` with the set's path |
| SuiteVisit.VisitInteraction | bundled/libs/testbench2robotframework/test_theme_tree.py:169-182 | visiting an interaction makes exactly its calls, and the visitor's state is the one those calls produce in order |
| SuiteVisit.VisitInteractions | bundled/libs/testbench2robotframework/test_theme_tree.py:171-172 | the loop over the children makes their calls in order, with the state they produce |
| SuiteVisit.VisitTestCase | bundled/libs/testbench2robotframework/test_theme_tree.py:151-155 | `start_test_case`, the children's calls, then `end_test_case`, with the state they produce |
| SuiteVisit.VisitTheme | bundled/libs/testbench2robotframework/test_theme_tree.py:94-97 | `visit_test_theme` first, then the children's calls in order; files are stored exactly under the theme's and its descendants' unique IDs, every other stored file is kept, and unless a descendant shares its ID the theme's entry is its `__init__` file |
| SuiteVisit.VisitTestCaseSet | bundled/libs/testbench2robotframework/test_theme_tree.py:122-126 | `start_test_case_set`, the children's calls, then `end_test_case_set`; whatever the children, files are stored exactly under the set's and its descendants' unique IDs, every other stored file is kept, and the set's entry is the file of its final settings and test cases under its cached path; for a set of test cases, the whole state is the one those calls produce |
| SuiteVisit.VisitTree | bundled/libs/testbench2robotframework/test_theme_tree.py:94-182 | a child's visit makes exactly the calls `Trace` lists and stores files exactly under the unique IDs of the tree's themes and sets, keeping every other stored file; for a test case, and for a set of test cases, the whole state is the one those calls produce |
| SuiteVisit.CaseLevelKeepsFiles | bundled/libs/testbench2robotframework/test_suite_creation.py:137-202 | the calls made inside a test case never change the stored files |
| SuiteVisit.VisitForest | bundled/libs/testbench2robotframework/test_theme_tree.py:81-83 | the children's visits make their calls in order and store files exactly under the unique IDs of their themes and sets, keeping every other stored file; for a list of test cases, the whole state is the one those calls produce |
| SuiteCreation.Spaces | bundled/libs/testbench2robotframework/test_suite_creation.py:207-209 | `" " * n` is n spaces, and empty for n <= 0 |
| SuiteCreation.CallName | bundled/libs/testbench2robotframework/test_suite_creation.py:205-206 | the keyword name ends with the interaction's name; without full qualification it is that name, with it a "." separates the library name from it |
| SuiteCreation.KeywordCall | bundled/libs/testbench2robotframework/test_suite_creation.py:204-219 | the appended call is named by `CallName`, and its indent is spaces only: four per level when compounds are logged, the four-space separator otherwise |
| SuiteCreation.SetupStatement | bundled/libs/testbench2robotframework/test_suite_creation.py:245-256 | a Setup line; an atomic interaction is called by its name with its call-by-value arguments, a keyword name stands alone, and only an atomic interaction gets arguments |
| SuiteCreation.TeardownStatement | bundled/libs/testbench2robotframework/test_suite_creation.py:258-273 | the same rule for the Teardown line |
| SuiteCreation.CaseHeader | bundled/libs/testbench2robotframework/test_suite_creation.py:138-147 | the new test case is named by its unique ID and has at most a Tags line, present exactly when there are keyword names or non-empty UDF tags, and holding exactly those |
| SuiteCreation.GroupedLine | bundled/libs/testbench2robotframework/test_suite_creation.py:221-243 | inside a grouping keyword a compound becomes a "# <name>" comment indented four spaces per level, and an atomic becomes its keyword call |
| SuiteCreation.Route | bundled/libs/testbench2robotframework/test_suite_creation.py:180-202 | an interaction goes to the setup list exactly when the setup flag is on or its own phase is Setup; otherwise to the teardown list exactly when the teardown flag is on or its phase is Teardown; otherwise to the flow list |
| SuiteCreation.AddImport | bundled/libs/testbench2robotframework/test_suite_creation.py:311-317 | recording an import adds its type to the map's keys and nothing else |
| SuiteCreation.AddImportKeepsASet | bundled/libs/testbench2robotframework/test_suite_creation.py:311-317 | each import type holds a set: the name is added once, the other names stay, nothing else appears, and the other types are untouched |
| SuiteCreation.NonEmpty | bundled/libs/testbench2robotframework/test_suite_creation.py:145 | the UDF tags kept are exactly the non-empty ones |
| SuiteCreation.StartCaseStep | bundled/libs/testbench2robotframework/test_suite_creation.py:137-148 | `start_test_case` sets the new test case, empties the three interaction lists, clears both flags and advances the index by one, leaving the set's fields alone |
| SuiteCreation.StartCompoundStep | bundled/libs/testbench2robotframework/test_suite_creation.py:180-190 | the flags follow the compound's own phase; the compound is appended only when compounds are logged, and then to exactly one list chosen by `Route`: the setup list for a Setup phase, the teardown list for a Teardown phase, the flow list otherwise; the other two lists are unchanged; imports, the test case and the sections are untouched |
| SuiteCreation.AtomicStep | bundled/libs/testbench2robotframework/test_suite_creation.py:195-202 | the interaction's import is recorded, the flags stay, and the interaction is appended to exactly one list chosen by `Route`, the other two being unchanged: the setup list under the setup flag or a Setup phase, else the teardown list under the teardown flag or a Teardown phase, else the flow list |
| SuiteCreation.EndCaseStep | bundled/libs/testbench2robotframework/test_suite_creation.py:150-178 | the test case keeps its name and earlier lines, at most two grouping keywords are added after the earlier ones, and the section gains the case followed by a blank line unless it is the last, the earlier items kept |
| SuiteCreation.StartSetStep | bundled/libs/testbench2robotframework/test_suite_creation.py:75-86 | `start_test_case_set` empties the imports, keywords and sections, takes the set's path and test count, resets the index to 0 and keeps the stored files |
| SuiteCreation.EndSetStep | bundled/libs/testbench2robotframework/test_suite_creation.py:88-135 | the file stored under the set's unique ID has the set's path, the completed settings and test cases sections, and a keywords section exactly when keywords were collected; the other stored files and the earlier section items are kept |
| SuiteCreation.InitFile | bundled/libs/testbench2robotframework/test_suite_creation.py:401-440 | a theme's `__init__` file has only a settings section of metadata lines, beginning with its unique ID, three lines with a specification status and two without |
| SuiteCreation.TestTagsOf | bundled/libs/testbench2robotframework/test_suite_creation.py:338-344 | the Test Tags line is absent exactly when there are no keyword names and no non-empty UDF tags, and otherwise holds exactly those |
| SuiteCreation.SettingsTail | bundled/libs/testbench2robotframework/test_suite_creation.py:88-123 | `end_test_case_set` appends import lines only, then the Test Tags line, the UniqueID, Name and Numbering metadata, and two blank lines |
| SuiteCreation.ResourcePaths | bundled/libs/testbench2robotframework/test_suite_creation.py:96-99 | one resource path per collected resource name |
| SuiteCreation.KeywordItems | bundled/libs/testbench2robotframework/test_suite_creation.py:124-132 | the keywords section lists the keywords in order with one blank line between each two: keywords at even positions, blank lines at odd ones |
| SuiteCreation.InteractionKeepsTheRest | bundled/libs/testbench2robotframework/test_suite_creation.py:180-202 | interaction calls change only the imports, the three interaction lists and the two phase flags |
| SuiteCreation.AtomicsFollowTheSetupFlag | bundled/libs/testbench2robotframework/test_suite_creation.py:195-202 | while the setup flag is on, every atomic interaction goes to the setup list, whatever its own phase, and the flags stay |
| SuiteCreation.SetupCompoundCollectsItsAtomics | bundled/libs/testbench2robotframework/test_suite_creation.py:180-202 | a Setup compound with atomic children puts itself (when compounds are logged) and then all its children, in order, into the setup list; the flags end as Setup |
| SuiteCreation.SetupFlagOutlivesItsCompound | bundled/libs/testbench2robotframework/test_suite_creation.py:180-202 | `end_compound_interaction` clears no flag: an atomic TestStep interaction after a Setup compound still goes to the setup list |
| SuiteCreation.FlowLinesHaveNoSetups | bundled/libs/testbench2robotframework/test_suite_creation.py:162-163 | flow interactions add neither Setup nor Teardown lines |
| SuiteCreation.SetupPartShape | bundled/libs/testbench2robotframework/test_suite_creation.py:151-160 | the setups give no line when there are none, a Setup of the interaction itself when there is one, and a Setup of "Setup-<id>" plus a keyword calling them in order when there are several |
| SuiteCreation.TeardownPartShape | bundled/libs/testbench2robotframework/test_suite_creation.py:165-174 | the same rule for teardowns, with "Teardown-<id>" |
| SuiteCreation.EndTestCaseGroups | bundled/libs/testbench2robotframework/test_suite_creation.py:150-174 | `end_test_case` adds at most one Setup, first, and at most one Teardown, last, each present exactly when there are interactions of that phase, with one line per flow interaction between them; several become a keyword named "Setup-<id>" or "Teardown-<id>" that calls them in order |
| SuiteCreation.Kinds | bundled/libs/testbench2robotframework/test_suite_creation.py:176-178 | one kind per item of the test cases section |
| SuiteCreation.CaseAddsItself | bundled/libs/testbench2robotframework/test_suite_creation.py:137-178 | visiting a test case advances the index by one and appends the finished test case, followed by a blank line unless it is the set's last; the set's path, settings and files are untouched |
| SuiteCreation.CasesKeepTheSet | bundled/libs/testbench2robotframework/test_suite_creation.py:137-178 | visiting test cases in a row advances the index by their number and leaves the set's path, settings and files alone |
| SuiteCreation.CasesSection | bundled/libs/testbench2robotframework/test_suite_creation.py:176-178 | the test cases add themselves to the section in the order the layout gives: a case, then a blank line unless the count is reached |
| SuiteCreation.LayoutAlternates | bundled/libs/testbench2robotframework/test_suite_creation.py:176-178 | when the count is right, test cases and blank lines alternate, starting and ending with a test case |
| SuiteCreation.SetFileLayout | bundled/libs/testbench2robotframework/test_suite_creation.py:75-135 | the file stored for a set of test cases has the set's path; its test cases alternate with single blank lines; two blank lines follow when a keywords section exists; that section exists exactly when keywords were collected, and lists them with blank lines between |
| SuiteCreation.SettingsBeginWithSortedLibraries | bundled/libs/testbench2robotframework/test_suite_creation.py:89-90 | the settings begin with the collected library imports, sorted, each once |
| SuiteCreation.GroupedBody | bundled/libs/testbench2robotframework/test_suite_creation.py:154-155 | the loop builds the grouping keyword's body that `Grouped` specifies |
| SuiteCreation.SetupStatements | bundled/libs/testbench2robotframework/test_suite_creation.py:159-160 | the loop appends one Setup per setup interaction |
| SuiteCreation.TeardownStatements | bundled/libs/testbench2robotframework/test_suite_creation.py:173-174 | the loop appends one Teardown per teardown interaction |
| SuiteCreation.FlowStatements | bundled/libs/testbench2robotframework/test_suite_creation.py:162-163 | the loop appends one keyword call per flow interaction |
| SuiteCreation.LibraryImports | bundled/libs/testbench2robotframework/test_suite_creation.py:89-90 | the loop appends one library import per name, in order |
| SuiteCreation.ImportLines | bundled/libs/testbench2robotframework/test_suite_creation.py:89-114 | the import lines in source order: the sorted libraries, the forced libraries, the sorted resources, the forced resources, the variable files, and the unknown imports as comments |
| SuiteCreation.ResourceImports | bundled/libs/testbench2robotframework/test_suite_creation.py:96-99 | the loop appends one resource import per name, with the resource path made relative to the set |
| SuiteCreation.UnknownImportComments | bundled/libs/testbench2robotframework/test_suite_creation.py:111-114 | the loop appends one "# UNKNOWN    <name>" comment per unknown import |
| SuiteCreation.KeywordSectionBody | bundled/libs/testbench2robotframework/test_suite_creation.py:125-130 | the loop builds the keywords section body `KeywordItems` specifies |
| SuiteCreation.TestSuiteCreationVisitor.constructor | bundled/libs/testbench2robotframework/test_suite_creation.py:63-68 | a new visitor has the configuration, no stored files and no calls |
| SuiteCreation.TestSuiteCreationVisitor.VisitTestTheme | bundled/libs/testbench2robotframework/test_suite_creation.py:70-73 | stores the theme's `__init__` file, built from its metadata, under the theme's unique ID and path |
| SuiteCreation.TestSuiteCreationVisitor.StartTestCaseSet | bundled/libs/testbench2robotframework/test_suite_creation.py:75-86 | fresh imports, keywords, path and sections; the test count is the set's and the index is 0 |
| SuiteCreation.TestSuiteCreationVisitor.EndTestCaseSet | bundled/libs/testbench2robotframework/test_suite_creation.py:88-135 | the settings gain the imports, tags, metadata and separator; two blank lines end the test cases when keywords follow; the file is stored under the set's unique ID |
| SuiteCreation.TestSuiteCreationVisitor.Settings | bundled/libs/testbench2robotframework/test_suite_creation.py:88-123 | the settings section `end_test_case_set` writes: the imports sorted by type, the forced ones, the tags and the metadata |
| SuiteCreation.TestSuiteCreationVisitor.StartTestCase | bundled/libs/testbench2robotframework/test_suite_creation.py:137-148 | a new test case named by its unique ID, with a Tags line only when there are tags; empty interaction lists; both flags off; the index advanced by one |
| SuiteCreation.TestSuiteCreationVisitor.EndTestCase | bundled/libs/testbench2robotframework/test_suite_creation.py:150-178 | the test case gets its setup, flow and teardown statements, the grouping keywords are collected, and the case joins the section, followed by a blank line unless it is the last |
| SuiteCreation.TestSuiteCreationVisitor.StartCompoundInteraction | bundled/libs/testbench2robotframework/test_suite_creation.py:180-190 | the flags follow the compound's phase; the compound itself is routed only when compounds are logged |
| SuiteCreation.TestSuiteCreationVisitor.EndCompoundInteraction | bundled/libs/testbench2robotframework/test_suite_creation.py:192-193 | changes nothing but the call log |
| SuiteCreation.TestSuiteCreationVisitor.VisitAtomicInteraction | bundled/libs/testbench2robotframework/test_suite_creation.py:195-202 | records the interaction's import, then appends it to the list the flags and its phase select |
| RobotEscaping.EscapeLeadingHash | bundled/libs/testbench2robotframework/test_suite_creation.py:398 | the result never starts with "#": a leading "#" gets a backslash in front, and any other value is unchanged |
| RobotEscaping.EscapeSpaces | bundled/libs/testbench2robotframework/test_suite_creation.py:395 | space escaping only inserts characters, and leaves a value without spaces unchanged |
| RobotEscaping.EscapeEquals | bundled/libs/testbench2robotframework/test_suite_creation.py:397 | equal-sign escaping only inserts characters, leaves every "=" with a backslash before it, and leaves a value without "=" unchanged |
| RobotEscaping.EscapeArgumentValue | bundled/libs/testbench2robotframework/test_suite_creation.py:393-398 | the escaped value never starts with "#", and a value with no space, no "=" and no leading "#" is unchanged |
| RobotEscaping.EscapingOnlyInserts | bundled/libs/testbench2robotframework/test_suite_creation.py:393-398 | whatever the flags, escaping only inserts characters: the value is a subsequence of its escaped form |
| RobotEscaping.SpacesAreSeparated | bundled/libs/testbench2robotframework/test_suite_creation.py:395 | after space escaping no two spaces are adjacent, the value neither starts nor ends with a space, and a value without spaces is unchanged |
| RobotEscaping.SpaceEscapingCases | bundled/libs/testbench2robotframework/test_suite_creation.py:395 | a backslash goes exactly where the pattern matches: before a space at the start, at the end, or after another space |
| RobotEscaping.EqualEscapingIsIdempotent | bundled/libs/testbench2robotframework/test_suite_creation.py:397 | after equal-sign escaping every "=" has a backslash before it; escaping again changes nothing; a value without "=" is unchanged |
| RobotEscaping.EqualEscapingCases | bundled/libs/testbench2robotframework/test_suite_creation.py:397 | an "=" that already has a backslash stays as it is; a bare one after any other character, or at the start, is escaped |
| RobotEscaping.EscapedArgumentProperties | bundled/libs/testbench2robotframework/test_suite_creation.py:393-398 | the escaped argument never starts with "#", and with equal-sign escaping every "=" in it has a backslash |
| RobotArguments.EntryIndex | bundled/libs/testbench2robotframework/test_suite_creation.py:361-365 | the position of a dict key, or none exactly when the key is absent |
| RobotArguments.LastCbvValue | bundled/libs/testbench2robotframework/test_suite_creation.py:361-365 | none exactly when no call-by-value parameter has the name |
| RobotArguments.DictSetKeys | bundled/libs/testbench2robotframework/test_suite_creation.py:364 | `d[k] = v` keeps the keys distinct and in place, and stores v under k |
| RobotArguments.CbvItemsAreTheLastValues | bundled/libs/testbench2robotframework/test_suite_creation.py:361-365 | the dict has each name once; a name is present exactly when some call-by-value parameter has it, with the value of the last such parameter |
| RobotArguments.CbvItems | bundled/libs/testbench2robotframework/test_suite_creation.py:361-365 | the dict has at most one item per parameter, and none when no parameter is call-by-value |
| RobotArguments.PureName | bundled/libs/testbench2robotframework/test_suite_creation.py:381 | stripping the name never lengthens it, and leaves a name the pattern does not match unchanged |
| RobotArguments.ForcesNamed | bundled/libs/testbench2robotframework/test_suite_creation.py:379 | a name forcing named rendering is non-empty and starts with "-" or contains "=" |
| RobotArguments.RenderOne | bundled/libs/testbench2robotframework/test_suite_creation.py:368-389 | "undef." emits nothing and forces named rendering; "**name" emits the value with only a leading "#" escaped and leaves the flag as it was; "*name" emits the value and forces named rendering; a forcing name or an earlier force emits "name=value"; otherwise the escaped value is positional |
| RobotArguments.GetCbvParameters | bundled/libs/testbench2robotframework/test_suite_creation.py:360-390 | the loop over the dict items renders exactly the arguments `RenderArguments` specifies, starting unforced |
| RobotArguments.RenderArguments | bundled/libs/testbench2robotframework/test_suite_creation.py:366-390 | at most one argument per dict item, and exactly one per item when no value is "undef." |
| RobotArguments.RenderArgumentsAppend | bundled/libs/testbench2robotframework/test_suite_creation.py:368-389 | rendering two runs of items in turn gives the first run's arguments, then the second's, with the flag carried across |
| RobotArguments.ForceNamedIsNeverReset | bundled/libs/testbench2robotframework/test_suite_creation.py:368-389 | once named rendering is forced it stays forced |
| RobotArguments.ForcedRenderingIsPerArgument | bundled/libs/testbench2robotframework/test_suite_creation.py:368-389 | with the flag on, each argument is rendered on its own, independently of the others |
| RobotArguments.UndefForcesNamedAfterwards | bundled/libs/testbench2robotframework/test_suite_creation.py:369-371 | an "undef." value emits nothing and forces named rendering of every later argument |
| RobotArguments.StarForcesNamedAfterwards | bundled/libs/testbench2robotframework/test_suite_creation.py:375-378 | a name starting with "*" (but not "**") forces named rendering of every later argument |
| RobotArguments.PlainArgumentsArePositional | bundled/libs/testbench2robotframework/test_suite_creation.py:384-389 | without a forcing name or value, every argument is one positional escaped value, and the flag stays off |
| RobotImports.StripLeft | bundled/libs/testbench2robotframework/test_suite_creation.py:323 | the result is a suffix of the input, the characters removed are whitespace, and it does not start with whitespace |
| RobotImports.StripRight | bundled/libs/testbench2robotframework/test_suite_creation.py:327 | the result is a prefix of the input, the characters removed are whitespace, and it does not end with whitespace |
| RobotImports.Strip | bundled/libs/testbench2robotframework/test_suite_creation.py:323 | `strip()` leaves no whitespace at either end |
| RobotImports.Split | bundled/libs/testbench2robotframework/test_suite_creation.py:328 | `split(".")` gives at least one part, none of which contains "." |
| RobotImports.JoinOfSplit | bundled/libs/testbench2robotframework/test_suite_creation.py:328 | joining the parts with "." gives the text back; there is one part exactly when the text has no "." |
| RobotImports.FirstMatchIsFirst | bundled/libs/testbench2robotframework/test_suite_creation.py:320-327 | no pattern matches exactly when there is no result; a result is the stripped first group of the first pattern that matches |
| RobotImports.FirstMatch | bundled/libs/testbench2robotframework/test_suite_creation.py:320-327 | there is no result exactly when no pattern matches, and a result has no whitespace at either end |
| RobotImports.GetRfImportCases | bundled/libs/testbench2robotframework/test_suite_creation.py:319-336 | a library pattern's match gives a library import, else a resource pattern's a resource import; otherwise a path without "." is an unknown import of itself, and the root segment decides (library roots before resource roots), the name being the second segment |
| RobotImports.GetRfImport | bundled/libs/testbench2robotframework/test_suite_creation.py:319-336 | a library pattern's match decides first and gives a library import of the matched name; a resource import comes only when no library pattern matches; a name taken from the path's segments never contains "." |
| RobotImports.DefaultLibraryRoot | bundled/libs/testbench2robotframework/test_suite_creation.py:319-336 | with the default roots and no patterns, "RF-Library.<name>" is a library import of name |
| RobotImports.DefaultInteractionsRoot | bundled/libs/testbench2robotframework/test_suite_creation.py:319-336 | with the default roots, "Interactions.<name>.<rest>" is a library import named by its second segment |
| RobotImports.DefaultResourceRoot | bundled/libs/testbench2robotframework/test_suite_creation.py:319-336 | with the default roots, "RF-Resource.<name>" is a resource import of name |
| RobotImports.DefaultUnknownPath | bundled/libs/testbench2robotframework/test_suite_creation.py:319-336 | with the default roots, a path without "." is an unknown import of the whole path |
| Sorting.LexLeTotal | bundled/libs/testbench2robotframework/test_suite_creation.py:89 | Python's string order is total |
| Sorting.LexLeTrans | bundled/libs/testbench2robotframework/test_suite_creation.py:89 | Python's string order is transitive |
| Sorting.Insert | bundled/libs/testbench2robotframework/test_suite_creation.py:89 | insertion adds exactly the one string |
| Sorting.InsertSorted | bundled/libs/testbench2robotframework/test_suite_creation.py:89 | inserting into a sorted list keeps it sorted |
| Sorting.Sort | bundled/libs/testbench2robotframework/test_suite_creation.py:89 | `sorted` returns the same strings, each as often |
| Sorting.SortIsSortedPermutation | bundled/libs/testbench2robotframework/test_suite_creation.py:89-111 | `sorted` returns its input in order: the result is sorted and is a permutation of the input |
| Text.LastIndexOf | bundled/libs/testbench2robotframework/test_theme_tree.py:56 | the index of the last occurrence of a character, or -1 exactly when it does not occur |
| Text.IndexOf | bundled/libs/testbench2robotframework/test_suite_creation.py:384 | the index of the first occurrence of a character, or -1 exactly when it does not occur |
| Text.NatToString | bundled/libs/testbench2robotframework/test_theme_tree.py:66 | `str(n)` is a non-empty string of decimal digits |
| Text.DigitsValueOfNatToString | bundled/libs/testbench2robotframework/test_theme_tree.py:66 | reading `str(n)` back gives n |

## Left out

- HTTP requests, the VS Code user interface, file writes, zip handling, timers and the keep-alive requests are outside the model. Each appears as a parameter or as its result value.
- The helpers that start subprocesses and terminals are not modelled. The input prompt loop (re-prompting, "quit") is represented only by the value it returns.
- `get_cbr_parameters` is not modelled. As written, it assigns to an index of a string (test_suite_creation.py line 356), which raises a `TypeError` whenever a call-by-reference parameter lacks the `${` prefix. Every keyword call of a flow, setup, teardown or grouped line fills `assign=` from it (lines 212-214 and 237-239), so the modelled calls never assign return variables.
- Regular expressions given in the configuration are an abstract matcher. The model does not implement a regular-expression engine for them.
- Floating point is not modelled. Progress percentages are rounded integers, and increments are exact rationals.
- JavaScript truthiness is modelled only for the value shapes the model carries: empty strings, absent keys and booleans.
- `_create_resource_path` is a function parameter of the configuration, so resource paths are taken as given.
- Connection.UploadOutcome / Connection.ImportOutcome: the thrown messages are abstracted to `CallError` categories. The source's messages differ between the two calls on every status they share: each names its own function, and the 404 and 422 texts are worded differently.
- TablesAgreeElsewhere: the agreement it states is between `CallError` categories, not between the thrown messages, which differ on every shared status.
- ProjectTreeView.ProjectManagementTreeDataProvider.HandleExpansion: the source calls the asynchronous `handleTestCycleClick` without awaiting it (src/projectManagementTreeView.ts line 184), so the theme view is filled after `handleExpansion` has returned. The model fills it before returning and describes the settled state.
- JobPoller.PollJobStatus: when the supplied ticks run out before the job ends, the outcome is `StillPolling`. The source instead waits for as long as the server answers.
- CycleTree.BuildTree: recursion is bounded by the number of nodes. Cyclic `parentKey` data, on which the source would not terminate, ends in the model. `TreeSpecBoundSuffices` shows the bound cuts nothing off when the parent links below the root end within as many levels as there are nodes; that acyclic data always meet this condition is not proved.
- Generation.JoinPath: paths are POSIX strings joined with "/", without the normalisation Node's `path.join` does (`path.join("a//", "x")` is "a/x", the model gives "a//x"), and without the "\" separator Node uses on Windows. `Basename` and `Extname` follow the POSIX variants too.
- The declaration of `lastGeneratedReportParams` is not part of this model. Its fields are taken from how they are used.
- Icons, tooltips, `updateIcon`, `getTreeItem` and `getParent` are left out, since they only affect presentation.
- SuiteVisit.VisitTree: the whole resulting visitor state is stated only for a test case and for a test case set whose children are test cases. For other trees, the contract states the calls made and which stored files change, not the imports, sections and other attributes left behind.
- SuiteVisit.VisitForest: the whole resulting state is stated only for a list of test cases. Otherwise it states the calls and which stored files change.
- SuiteVisit.VisitTheme: the attributes other than the stored files are not stated after a theme's visit, and the theme's own entry is stated only when no descendant shares its unique ID.
- SuiteVisit.VisitTestCaseSet: for a set holding other sets or themes, the contract states the calls, which stored files change and the set's own file, but not the remaining attributes.
- The `Setup` and `Teardown` keyword names are computed from the interaction node as the source passes it, including a compound node.

## Findings

| source | as written | input that shows it | evidently intended | confidence | as-written member | corrected member |
|---|---|---|---|---|---|---|
| src/reportHandler.ts:998 | the result import replays the recorded UID as `treeRootUID`, and the recorded UID is "Generate all" after a full generation (line 751) | generate with "Generate all", then import results | replay the request the generation made, where "Generate all" maps to the empty root UID (line 612) | medium, not executed | Generation.ReplayAsWrittenDiffersAfterGenerateAll | Generation.ReplayRepeatsGenerationRequest |
| src/testBenchConnection.ts:836-841 | a node matched through its `item` returns the wrapper's `key`, which a tree item does not have | a wrapped cycle named "C" with key "7", searched by "C" | return the key of the node that matched | medium, not executed | CycleSearch.WrappedCycleHasNoKeyAsWritten | CycleSearch.WrappedCycleKeyOfMatchedNode |
| bundled/libs/testbench2robotframework/test_theme_tree.py:137 | a root-level node's path is a plain `str`, so a test case set nested under a root-level test case set fails on `/` | a test case set at the root that holds another test case set | every path is a `PurePath`, as for nested nodes (lines 132-134) | low, not executed | SuitePaths.NestedUnderRootCaseSetFails | SuitePaths.SuiteNode.Path |
