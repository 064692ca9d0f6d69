/**
 * The job-status record the TestBench server returns while a report or an
 * import job runs, and the three predicates that classify a finished job.
 * Every optional member of the JSON response is an `Option`, so that the
 * optional-chaining lookups of the source have a value for each case.
 */
module JobStatus {
  import opened Wrappers

  datatype ProgressCounts = ProgressCounts(totalItemsCount: int, handledItemsCount: int)

  datatype ImportError = ImportError(code: int, message: string, description: string)

  datatype TestCaseSetResult = TestCaseSetResult(key: string, executionKey: string, finished: bool)

  datatype ReportingSuccess = ReportingSuccess(reportName: string)

  datatype ExecutionImportingFailure = ExecutionImportingFailure(error: ImportError)

  datatype ExecutionImportingSuccess = ExecutionImportingSuccess(testCaseSets: seq<TestCaseSetResult>)

  datatype JobResult = JobResult(
    reportingSuccess: Option<ReportingSuccess>,
    importingFailure: Option<ExecutionImportingFailure>,
    importingSuccess: Option<ExecutionImportingSuccess>)

  datatype Completion = Completion(time: string, result: Option<JobResult>)

  datatype JobStatusResponse = JobStatusResponse(
    id: string,
    projectKey: string,
    owner: string,
    start: string,
    progress: Option<ProgressCounts>,
    completion: Option<Completion>)

  /** The `result` member of a response, when both it and `completion` are present. */
  function ResultOf(s: JobStatusResponse): (r: Option<JobResult>)
    ensures r.Some? <==> s.completion.Some? && s.completion.value.result.Some?
    ensures r.Some? ==> r.value == s.completion.value.result.value
  {
    match s.completion
    case None => None
    case Some(c) => c.result
  }

  /** A report job has finished successfully when it names a non-empty report file. */
  predicate IsReportJobCompletedSuccessfully(s: JobStatusResponse): (ok: bool)
    ensures ok ==> s.completion.Some? && s.completion.value.result.Some?
    ensures ok <==> exists name :: name != "" && ResultOf(s).Some? &&
                                   ResultOf(s).value.reportingSuccess == Some(ReportingSuccess(name))
  {
    var r := ResultOf(s);
    r.Some? && r.value.reportingSuccess.Some? && r.value.reportingSuccess.value.reportName != ""
  }

  /** An import job has finished successfully when the success member is present at all. */
  predicate IsImportJobCompletedSuccessfully(s: JobStatusResponse): (ok: bool)
    ensures ok ==> s.completion.Some? && s.completion.value.result.Some?
    ensures ok <==> ResultOf(s).Some? && ResultOf(s).value.importingSuccess.Some?
  {
    var r := ResultOf(s);
    r.Some? && r.value.importingSuccess.Some?
  }

  /** An import job has failed when the failure member is present at all. */
  predicate IsImportJobFailed(s: JobStatusResponse): (failed: bool)
    ensures failed ==> s.completion.Some? && s.completion.value.result.Some?
    ensures failed <==> ResultOf(s).Some? && ResultOf(s).value.importingFailure.Some?
  {
    var r := ResultOf(s);
    r.Some? && r.value.importingFailure.Some?
  }

  /** A response without a completion or without a result satisfies none of the classifiers. */
  lemma UnfinishedJobIsUnclassified(s: JobStatusResponse)
    requires s.completion.None? || s.completion.value.result.None?
    ensures !IsReportJobCompletedSuccessfully(s)
    ensures !IsImportJobCompletedSuccessfully(s)
    ensures !IsImportJobFailed(s)
  {
  }

  /**
   * The report classifier depends only on the report name: two responses
   * whose reporting-success members agree classify alike, and an empty
   * name counts as not finished.
   */
  lemma ReportClassifierReadsOnlyReportName(s: JobStatusResponse, name: string)
    requires ResultOf(s).Some?
    requires ResultOf(s).value.reportingSuccess == Some(ReportingSuccess(name))
    ensures IsReportJobCompletedSuccessfully(s) <==> name != ""
  {
  }

  /**
   * The import classifiers are independent: a response can carry both a
   * success and a failure member, and then the poller's order of checks
   * (success first) decides.
   */
  lemma ImportClassifiersCanBothHold()
    ensures exists s: JobStatusResponse :: IsImportJobCompletedSuccessfully(s) && IsImportJobFailed(s)
  {
    var s := JobStatusResponse("1", "p", "o", "t", None,
      Some(Completion("t", Some(JobResult(None,
        Some(ExecutionImportingFailure(ImportError(1, "m", "d"))),
        Some(ExecutionImportingSuccess([])))))));
    assert IsImportJobCompletedSuccessfully(s) && IsImportJobFailed(s);
  }
}
