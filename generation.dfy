/**
 * The file-safety side of test generation in the report handler: which
 * paths the cleanup may delete, what happens after the generator tool
 * succeeds or fails, and the parameters recorded for a later replay.
 *
 * The file system is the set of path strings that exist; paths are
 * compared as strings (no normalisation), as the model of `path.join` below
 * does not normalise either.
 */
module Generation {
  import opened Wrappers
  import opened Text
  import ThemeSelection

  const ConfigFileName: string := "testbench2robotframeworkConfig.json"
  const ReportZipExtension: string := ".zip"

  // ---------------------------------------------------------------------
  // POSIX path helpers

  /** `path.join(dir, name)` for a plain file name: one "/" between the parts. */
  function JoinPath(dir: string, name: string): (p: string)
    ensures EndsWith(p, name)
  {
    if dir == "" then name
    else if dir[|dir| - 1] == '/' then dir + name
    else dir + "/" + name
  }

  function StripTrailingSlashes(p: string): (q: string)
    ensures |q| <= |p| && q == p[..|q|]
    ensures |q| == 0 || q[|q| - 1] != '/'
    decreases |p|
  {
    if |p| > 0 && p[|p| - 1] == '/' then StripTrailingSlashes(p[..|p| - 1]) else p
  }

  /** `path.basename`: the last segment, trailing slashes ignored. */
  function Basename(p: string): (b: string)
    ensures forall i :: 0 <= i < |b| ==> b[i] != '/'
  {
    var q := StripTrailingSlashes(p);
    q[LastIndexOf(q, '/') + 1..]
  }

  /**
   * `path.extname`: the basename from its last "." on, or "" when the
   * basename has no ".", starts with its only leading dots, or is "..".
   */
  function Extname(p: string): (e: string)
    ensures e == "" || (e[0] == '.' && EndsWith(Basename(p), e) && |e| < |Basename(p)| && '.' !in e[1..])
  {
    var b := Basename(p);
    var d := LastIndexOf(b, '.');
    if d <= 0 || b == ".." then "" else b[d..]
  }

  predicate IsZipPath(p: string): (z: bool)
    ensures z ==> EndsWith(Basename(p), ReportZipExtension)
  {
    Extname(p) == ReportZipExtension
  }

  /**
   * A path counts as a report zip exactly when its basename ends in ".zip"
   * and has at least one character before that.
   */
  lemma ZipPathIffZipSuffix(p: string)
    ensures IsZipPath(p) <==> EndsWith(Basename(p), ".zip") && |Basename(p)| > 4
  {
    var b := Basename(p);
    var d := LastIndexOf(b, '.');
    if EndsWith(b, ".zip") && |b| > 4 {
      assert b[|b| - 4] == '.';
      assert d == |b| - 4;
      assert b[d..] == ".zip";
    }
    if IsZipPath(p) {
      assert b[d..] == ".zip";
      assert d == |b| - 4;
    }
  }

  /** The generator's configuration file inside a working directory. */
  function GetConfigurationFilePath(dir: string): (p: string)
    ensures EndsWith(p, ConfigFileName)
  {
    JoinPath(dir, ConfigFileName)
  }

  /** A path ending in "/" + name, or equal to name, has basename name. */
  lemma BasenameOfLastSegment(p: string, name: string)
    requires |name| > 0 && '/' !in name && EndsWith(p, name)
    requires |p| == |name| || p[|p| - |name| - 1] == '/'
    ensures Basename(p) == name
  {
    var start := |p| - |name|;
    assert p[|p| - 1] == name[|name| - 1];
    assert StripTrailingSlashes(p) == p;
    forall i | start <= i < |p|
      ensures p[i] != '/'
    {
      assert p[i] == name[i - start];
    }
    var k := LastIndexOf(p, '/');
    assert k == start - 1;
  }

  /** Joining a plain file name to a directory gives a path whose basename is that name. */
  lemma BasenameOfJoin(dir: string, name: string)
    requires |name| > 0 && '/' !in name
    ensures Basename(JoinPath(dir, name)) == name
  {
    var p := JoinPath(dir, name);
    if dir != "" {
      assert p[|p| - |name| - 1] == '/';
    }
    BasenameOfLastSegment(p, name);
  }

  /** The configuration file has the extension ".json", so the zip clean-up never removes it. */
  lemma ConfigurationFileIsNotAZip(dir: string)
    ensures Extname(GetConfigurationFilePath(dir)) == ".json"
    ensures !IsZipPath(GetConfigurationFilePath(dir))
  {
    ConfigFileNameParts();
    BasenameOfJoin(dir, ConfigFileName);
    var stem := "testbench2robotframeworkConfig";
    LastIndexOfSeparator(stem, '.', "json");
    assert ConfigFileName[|stem|..] == ".json";
  }

  lemma ConfigFileNameParts()
    ensures ConfigFileName == "testbench2robotframeworkConfig" + ['.'] + "json"
    ensures '/' !in ConfigFileName
  {
  }

  // ---------------------------------------------------------------------
  // Request parameters

  datatype OptionalJobIdRequestParameter = OptionalJobIdRequestParameter(basedOnExecution: bool, treeRootUID: string)

  datatype LastGeneratedReportParams = LastGeneratedReportParams(
    uid: string, projectKey: string, cycleKey: string, executionBased: bool)

  /**
   * The element to generate for: the given UID, else the picked one; an
   * empty or missing choice aborts the generation.
   */
  function SelectedElement(given: string, picked: Option<string>): (r: Option<string>)
    ensures r.Some? ==> r.value != ""
    ensures given != "" ==> r == Some(given)
    ensures given == "" ==> (r.Some? <==> picked.Some? && picked.value != "")
  {
    if given != "" then Some(given)
    else if picked.Some? && picked.value != "" then picked
    else None
  }

  /** The report request of a generation: "Generate all" asks for the whole tree. */
  function GenerationRequest(selected: string, executionBased: bool): (r: OptionalJobIdRequestParameter)
    ensures r.basedOnExecution == executionBased
    ensures r.treeRootUID == "" <==> selected == ThemeSelection.GenerateAllChoice || selected == ""
    ensures selected != ThemeSelection.GenerateAllChoice ==> r.treeRootUID == selected
  {
    OptionalJobIdRequestParameter(executionBased, if selected == ThemeSelection.GenerateAllChoice then "" else selected)
  }

  /** Every recorded field must be set; a recorded `false` counts as missing too. */
  predicate LastParamsComplete(p: LastGeneratedReportParams)
  {
    p.executionBased && p.projectKey != "" && p.cycleKey != "" && p.uid != ""
  }

  /** The replayed report request of the result import, as the source builds it. */
  function ReplayRequestAsWritten(p: LastGeneratedReportParams): (r: Result<OptionalJobIdRequestParameter, string>)
    ensures r.Failure? <==> !LastParamsComplete(p)
    ensures r.Failure? ==> r.error == "Last generated report parameters are missing."
    ensures r.Success? ==> r.value == OptionalJobIdRequestParameter(p.executionBased, p.uid)
  {
    if !LastParamsComplete(p) then Failure("Last generated report parameters are missing.")
    else Success(OptionalJobIdRequestParameter(p.executionBased, p.uid))
  }

  /** The replayed request with the generation's own UID mapping applied. */
  function ReplayRequest(p: LastGeneratedReportParams): (r: Result<OptionalJobIdRequestParameter, string>)
    ensures r.Failure? <==> !LastParamsComplete(p)
    ensures r.Failure? ==> r.error == "Last generated report parameters are missing."
  {
    if !LastParamsComplete(p) then Failure("Last generated report parameters are missing.")
    else Success(GenerationRequest(p.uid, p.executionBased))
  }

  /**
   * Replaying the parameters a successful execution-based generation
   * recorded asks for the same report again.
   */
  lemma ReplayRepeatsGenerationRequest(selected: string, projectKey: string, cycleKey: string)
    requires selected != "" && projectKey != "" && cycleKey != ""
    ensures ReplayRequest(LastGeneratedReportParams(selected, projectKey, cycleKey, true))
            == Success(GenerationRequest(selected, true))
  {
  }

  /**
   * As written, the replay after "Generate all" asks for a tree root named
   * "Generate all" where the generation asked for the whole tree.
   */
  lemma ReplayAsWrittenDiffersAfterGenerateAll()
    ensures var p := LastGeneratedReportParams(ThemeSelection.GenerateAllChoice, "P1", "C1", true);
            && ReplayRequestAsWritten(p).Success?
            && ReplayRequestAsWritten(p).value.treeRootUID == ThemeSelection.GenerateAllChoice
            && GenerationRequest(ThemeSelection.GenerateAllChoice, true).treeRootUID == ""
  {
  }

  // ---------------------------------------------------------------------
  // The working files

  datatype Notice = Info(text: string) | Warning(text: string) | Error(text: string)

  /**
   * The existing files and the process-wide record of the last generation,
   * with the messages shown to the user.
   */
  /** What deleting the configuration file `path` reports, given the files present. */
  function DeleteNotices(files: set<string>, path: string): seq<Notice>
  {
    if path in files then [] else [Error("Configuration file not found: " + path)]
  }

  /** What removing the report zip `path` reports, given the files present. */
  function RemoveNotices(files: set<string>, path: string): seq<Notice>
  {
    if path !in files then [Warning("File not found: " + path)]
    else if !IsZipPath(path) then
      [Error("Error removing the file: Invalid file type: " + Extname(path) + ". Only zip files can be removed.")]
    else []
  }

  class Workspace {
    var files: set<string>
    var lastParams: LastGeneratedReportParams
    var notices: seq<Notice>

    constructor(files0: set<string>, params0: LastGeneratedReportParams)
      ensures files == files0 && lastParams == params0 && notices == []
    {
      files := files0;
      lastParams := params0;
      notices := [];
    }

    /** Delete a file if it exists; a missing one is reported as an error. */
    method DeleteConfigurationFile(path: string)
      modifies this
      ensures files == old(files) - {path}
      ensures lastParams == old(lastParams)
      ensures notices == old(notices) + DeleteNotices(old(files), path)
    {
      if path in files {
        files := files - {path};
      } else {
        notices := notices + [Error("Configuration file not found: " + path)];
      }
    }

    /**
     * Remove the report zip: a missing file is a warning, a path whose
     * extension is not exactly ".zip" is refused with an error and stays.
     */
    method RemoveReportZipFile(path: string)
      modifies this
      ensures files == if path in old(files) && IsZipPath(path) then old(files) - {path} else old(files)
      ensures lastParams == old(lastParams)
      ensures notices == old(notices) + RemoveNotices(old(files), path)
    {
      if path !in files {
        notices := notices + [Warning("File not found: " + path)];
        return;
      }
      var extension := Extname(path);
      if extension != ReportZipExtension {
        notices := notices + [Error("Error removing the file: Invalid file type: " + extension
                                    + ". Only zip files can be removed.")];
        return;
      }
      files := files - {path};
    }

    /** After a failed tool run, delete the configuration file and the report zip. */
    method HandleExecutionError(workingDirectoryFullPath: string, isExecutionSuccessful: bool,
                                reportZipPath: string) returns (proceed: bool)
      modifies this
      ensures proceed == isExecutionSuccessful
      ensures isExecutionSuccessful ==> files == old(files) && notices == old(notices)
      ensures !isExecutionSuccessful ==>
                files == old(files) - {GetConfigurationFilePath(workingDirectoryFullPath)}
                         - (if IsZipPath(reportZipPath) then {reportZipPath} else {})
      ensures !isExecutionSuccessful ==>
                var config := GetConfigurationFilePath(workingDirectoryFullPath);
                notices == old(notices) + DeleteNotices(old(files), config) +
                           RemoveNotices(old(files) - {config}, reportZipPath)
      ensures lastParams == old(lastParams)
    {
      if !isExecutionSuccessful {
        DeleteConfigurationFile(GetConfigurationFilePath(workingDirectoryFullPath));
        RemoveReportZipFile(reportZipPath);
      }
      proceed := isExecutionSuccessful;
    }

    method UpdateLastGeneratedReportParams(uid: string, projectKey: string, cycleKey: string, executionBased: bool)
      modifies this
      ensures lastParams == LastGeneratedReportParams(uid, projectKey, cycleKey, executionBased)
      ensures files == old(files) && notices == old(notices)
    {
      lastParams := LastGeneratedReportParams(uid, projectKey, cycleKey, executionBased);
    }

    /** After a successful run: delete the configuration, and the zip when so configured. */
    method CleanUp(configFilePath: string, reportZipPath: string, clearReportAfterProcessing: bool)
      modifies this
      ensures files == old(files) - {configFilePath}
                       - (if clearReportAfterProcessing && IsZipPath(reportZipPath) then {reportZipPath} else {})
      ensures lastParams == old(lastParams)
      ensures |notices| > 0 && notices[|notices| - 1] == Info("Test generation done.")
    {
      DeleteConfigurationFile(configFilePath);
      if clearReportAfterProcessing {
        RemoveReportZipFile(reportZipPath);
      }
      notices := notices + [Info("Test generation done.")];
    }

    /**
     * The generation run once the report request is known. `downloaded` is
     * the zip the download wrote (none when it was cancelled or failed),
     * `configurationSet` whether a generator configuration exists to be
     * written, `toolSucceeds` the generator's verdict.
     */
    method RunTestGenerationProcess(downloaded: Option<string>, workspaceLocation: string,
                                    workingDirectory: string, configurationSet: bool,
                                    toolSucceeds: bool, clearReportAfterProcessing: bool,
                                    uid: string, projectKey: string, cycleKey: string, executionBased: bool)
      modifies this
      ensures var config := GetConfigurationFilePath(JoinPath(workspaceLocation, workingDirectory));
              && (downloaded.None? ==> files == old(files) && lastParams == old(lastParams))
              && (downloaded.Some? && !configurationSet ==>
                    files == old(files) + {downloaded.value} && lastParams == old(lastParams))
              && (downloaded.Some? && configurationSet && !toolSucceeds ==>
                    && files == old(files) + {downloaded.value} + {config} - {config}
                                - (if IsZipPath(downloaded.value) then {downloaded.value} else {})
                    && lastParams == old(lastParams))
              && (downloaded.Some? && configurationSet && toolSucceeds ==>
                    && files == old(files) + {downloaded.value} + {config} - {config}
                                - (if clearReportAfterProcessing && IsZipPath(downloaded.value)
                                   then {downloaded.value} else {})
                    && lastParams == LastGeneratedReportParams(uid, projectKey, cycleKey, executionBased))
    {
      if downloaded.None? {
        return;
      }
      var zip := downloaded.value;
      files := files + {zip};
      var workingDirectoryFullPath := JoinPath(workspaceLocation, workingDirectory);
      if !configurationSet {
        return;
      }
      var configFilePath := GetConfigurationFilePath(workingDirectoryFullPath);
      files := files + {configFilePath};
      var proceed := HandleExecutionError(workingDirectoryFullPath, toolSucceeds, zip);
      if !proceed {
        return;
      }
      UpdateLastGeneratedReportParams(uid, projectKey, cycleKey, executionBased);
      CleanUp(configFilePath, zip, clearReportAfterProcessing);
    }
  }

  /**
   * The files a finished run leaves: the configuration file never stays,
   * and after a failed tool run the report zip stays only when its name
   * does not end in ".zip".
   */
  function FilesAfterRun(before: set<string>, zip: string, config: string,
                         toolSucceeds: bool, clearReportAfterProcessing: bool): (after: set<string>)
    ensures config !in after
    ensures forall f :: f in before && f != zip && f != config ==> f in after
    ensures !toolSucceeds ==> (zip in after <==> zip != config && !IsZipPath(zip))
    ensures toolSucceeds ==> (zip in after <==> zip != config && !(clearReportAfterProcessing && IsZipPath(zip)))
  {
    FilesLeft(before, zip, config, (!toolSucceeds || clearReportAfterProcessing) && IsZipPath(zip))
  }

  /** The files left once the configuration file, and the zip when `dropZip`, are deleted. */
  function FilesLeft(before: set<string>, zip: string, config: string, dropZip: bool): (after: set<string>)
    ensures config !in after
    ensures forall f :: f in before && f != zip && f != config ==> f in after
    ensures zip in after <==> zip != config && !dropZip
  {
    before + {zip} + {config} - {config} - (if dropZip then {zip} else {})
  }

  /** The method's final file set is the one `FilesAfterRun` describes. */
  lemma RunLeavesFilesAfterRun(before: set<string>, zip: string, config: string,
                               toolSucceeds: bool, clearReportAfterProcessing: bool)
    ensures (if toolSucceeds then
               before + {zip} + {config} - {config}
                 - (if clearReportAfterProcessing && IsZipPath(zip) then {zip} else {})
             else
               before + {zip} + {config} - {config} - (if IsZipPath(zip) then {zip} else {}))
            == FilesAfterRun(before, zip, config, toolSucceeds, clearReportAfterProcessing)
  {
  }
}
