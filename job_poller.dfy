/**
 * The job-status poller of the report handler. The server, the user and the
 * clock are replaced by one `Tick` per loop iteration: whether cancellation
 * was requested at the top of the iteration, whether the connection object
 * was present, what the status read produced, and the elapsed time read by
 * the two `Date.now()` calls (time-limit check, then interval choice).
 *
 * `Poll` is the specification of a whole run; `PollJobStatus` is the loop
 * of the source, proved equal to it. The lemmas below `Poll` state what a
 * run returns, which progress it reports and how long it waits.
 */
module JobPoller {
  import opened Wrappers
  import opened JobStatus

  datatype JobType = Report | Import

  /** The outcome of one `getJobStatus` call: a record, a null record, or a thrown error. */
  datatype StatusRead = Received(status: JobStatusResponse) | NotReceived | ReadFailed

  datatype Tick = Tick(
    cancellationRequested: bool,
    connected: bool,
    read: StatusRead,
    elapsedAtLimitCheck: int,
    elapsedAtDelay: int)

  /** One `progress.report` call: the counts shown, the rounded percentage, and the increment. */
  datatype ProgressReport = ProgressReport(handled: int, total: int, percentage: int, increment: real)

  /** Why a run returned; the source returns only the status, the reason names the exit taken. */
  datatype StopReason = JobCompleted | ImportFailed | StatusMissing | ConnectionMissing | TimeLimit

  /**
   * `Cancelled` is the thrown `CancellationError`. `StillPolling` means the
   * ticks ran out while the source would go on waiting.
   */
  datatype Outcome =
    | Cancelled
    | Returned(status: Option<JobStatusResponse>, reason: StopReason)
    | StillPolling(lastStatus: Option<JobStatusResponse>)

  datatype PollRun = PollRun(outcome: Outcome, attempts: nat, reports: seq<ProgressReport>, delays: seq<int>)

  /** `Math.round(handled / total * 100)` in exact arithmetic: round half up. */
  function RoundedPercentage(handled: int, total: int): int
    requires total != 0
  {
    if total > 0 then (200 * handled + total) / (2 * total)
    else (-(200 * handled + total)) / (-2 * total)
  }

  /** The wait before the next attempt: 200 ms during the first ten seconds, 1000 ms after. */
  function Interval(elapsed: int): (ms: int)
    ensures ms == 200 || ms == 1000
    ensures ms == 200 <==> elapsed < 10000
  {
    if elapsed < 10000 then 200 else 1000
  }

  /** Whether a received status ends the loop through the job-type branch. */
  predicate Completed(kind: JobType, s: JobStatusResponse)
  {
    match kind
    case Report => IsReportJobCompletedSuccessfully(s)
    case Import => IsImportJobCompletedSuccessfully(s)
  }

  predicate TimeLimitReached(maxTime: Option<int>, elapsed: int)
  {
    maxTime.Some? && elapsed >= maxTime.value
  }

  /** The progress report of a received status, when both counts are non-zero. */
  function ProgressOf(s: JobStatusResponse, lastIncrement: int): Option<ProgressReport>
  {
    match s.progress
    case None => None
    case Some(c) =>
      if c.totalItemsCount != 0 && c.handledItemsCount != 0 then
        var p := RoundedPercentage(c.handledItemsCount, c.totalItemsCount);
        Some(ProgressReport(c.handledItemsCount, c.totalItemsCount, p, (p - lastIncrement) as real / 3.0))
      else None
  }

  function ReportsOf(r: Option<ProgressReport>): seq<ProgressReport>
  {
    if r.Some? then [r.value] else []
  }

  function NextIncrement(r: Option<ProgressReport>, lastIncrement: int): int
  {
    if r.Some? then r.value.percentage else lastIncrement
  }

  /**
   * What one iteration of the loop decides: stop with an outcome (and say
   * whether a status read was attempted and which progress was reported),
   * or wait `delay` ms and go on with the new status and percentage.
   */
  datatype Step =
    | Stop(outcome: Outcome, readAttempted: bool, report: Option<ProgressReport>)
    | Wait(report: Option<ProgressReport>, status: Option<JobStatusResponse>, increment: int, delay: int)

  /** One iteration, when the status variable holds `last` and the bar stands at `lastIncrement`. */
  function StepOf(kind: JobType, t: Tick, maxTime: Option<int>,
                  last: Option<JobStatusResponse>, lastIncrement: int): (st: Step)
    ensures t.cancellationRequested <==> st == Stop(Cancelled, false, None)
    ensures st.Stop? ==> !st.outcome.StillPolling?
    ensures st.Stop? ==> (st.readAttempted <==> !t.cancellationRequested && t.connected)
    ensures st.Wait? ==> !t.cancellationRequested && t.connected && !t.read.NotReceived? &&
                         !TimeLimitReached(maxTime, t.elapsedAtLimitCheck) && st.delay == Interval(t.elapsedAtDelay)
    ensures st.Wait? ==> st.status == (if t.read.Received? then Some(t.read.status) else last)
    ensures st.Stop? && st.outcome.Returned? && st.outcome.reason == TimeLimit ==>
              TimeLimitReached(maxTime, t.elapsedAtLimitCheck)
  {
    if t.cancellationRequested then Stop(Cancelled, false, None)
    else if !t.connected then Stop(Returned(None, ConnectionMissing), false, None)
    else match t.read
      case NotReceived => Stop(Returned(None, StatusMissing), true, None)
      case ReadFailed =>
        if TimeLimitReached(maxTime, t.elapsedAtLimitCheck) then Stop(Returned(last, TimeLimit), true, None)
        else Wait(None, last, lastIncrement, Interval(t.elapsedAtDelay))
      case Received(s) =>
        var r := ProgressOf(s, lastIncrement);
        if Completed(kind, s) then Stop(Returned(Some(s), JobCompleted), true, r)
        else if kind == Import && IsImportJobFailed(s) then Stop(Returned(None, ImportFailed), true, r)
        else if TimeLimitReached(maxTime, t.elapsedAtLimitCheck) then Stop(Returned(Some(s), TimeLimit), true, r)
        else Wait(r, Some(s), NextIncrement(r, lastIncrement), Interval(t.elapsedAtDelay))
  }

  /** Attempts, reports and waits of earlier iterations put in front of a later run. */
  function Prefix(attempts: nat, reports: seq<ProgressReport>, delays: seq<int>, run: PollRun): PollRun
  {
    PollRun(run.outcome, attempts + run.attempts, reports + run.reports, delays + run.delays)
  }

  /**
   * The run of the poller over `ticks`, when the status variable holds
   * `last` and the progress bar stands at `lastIncrement` percent.
   */
  function Poll(kind: JobType, ticks: seq<Tick>, maxTime: Option<int>,
                last: Option<JobStatusResponse>, lastIncrement: int): (run: PollRun)
    ensures |run.delays| <= run.attempts <= |ticks|
    ensures |run.reports| <= |ticks|
    ensures run.outcome.StillPolling? <==> |run.delays| == |ticks|
    decreases |ticks|
  {
    if |ticks| == 0 then PollRun(StillPolling(last), 0, [], [])
    else match StepOf(kind, ticks[0], maxTime, last, lastIncrement)
      case Stop(outcome, readAttempted, r) =>
        PollRun(outcome, if readAttempted then 1 else 0, ReportsOf(r), [])
      case Wait(r, status, increment, delay) =>
        Prefix(1, ReportsOf(r), [delay], Poll(kind, ticks[1..], maxTime, status, increment))
  }

  lemma PrefixCompose(a: nat, r: seq<ProgressReport>, d: seq<int>, r2: seq<ProgressReport>, d2: seq<int>, run: PollRun)
    ensures Prefix(a, r, d, Prefix(1, r2, d2, run)) == Prefix(a + 1, r + r2, d + d2, run)
  {
    assert r + (r2 + run.reports) == (r + r2) + run.reports;
    assert d + (d2 + run.delays) == (d + d2) + run.delays;
  }

  /**
   * One iteration of the polling loop: cancellation check, connection
   * check, status read (a thrown read is swallowed and keeps the previous
   * status), progress report when both counts are non-zero, the job-type
   * checks, the optional time limit, and the choice of the wait.
   */
  method PollAttempt(kind: JobType, t: Tick, maxTime: Option<int>,
                     jobStatus: Option<JobStatusResponse>, lastIncrement: int) returns (step: Step)
    ensures step == StepOf(kind, t, maxTime, jobStatus, lastIncrement)
  {
    if t.cancellationRequested {
      return Stop(Cancelled, false, None);
    }
    if !t.connected {
      return Stop(Returned(None, ConnectionMissing), false, None);
    }
    var status := jobStatus;
    var increment := lastIncrement;
    var report: Option<ProgressReport> := None;
    match t.read {
      case NotReceived =>
        return Stop(Returned(None, StatusMissing), true, None);
      case ReadFailed =>
      case Received(s) =>
        status := Some(s);
        var counts := s.progress;
        if counts.Some? && counts.value.totalItemsCount != 0 && counts.value.handledItemsCount != 0 {
          var p := RoundedPercentage(counts.value.handledItemsCount, counts.value.totalItemsCount);
          report := Some(ProgressReport(counts.value.handledItemsCount, counts.value.totalItemsCount,
                                        p, (p - increment) as real / 3.0));
          increment := p;
        }
        if kind == Report {
          if IsReportJobCompletedSuccessfully(s) {
            return Stop(Returned(Some(s), JobCompleted), true, report);
          }
        } else {
          if IsImportJobCompletedSuccessfully(s) {
            return Stop(Returned(Some(s), JobCompleted), true, report);
          } else if IsImportJobFailed(s) {
            return Stop(Returned(None, ImportFailed), true, report);
          }
        }
    }
    if maxTime.Some? && t.elapsedAtLimitCheck >= maxTime.value {
      return Stop(Returned(status, TimeLimit), true, report);
    }
    step := Wait(report, status, increment, Interval(t.elapsedAtDelay));
  }

  /**
   * The polling loop: attempts run one after the other until one of them
   * stops; the attempt counter, the reported progress and the waits
   * accumulate.
   */
  method PollJobStatus(kind: JobType, ticks: seq<Tick>, maxTime: Option<int>) returns (run: PollRun)
    ensures run == Poll(kind, ticks, maxTime, None, 0)
  {
    var i := 0;
    var attempt := 0;
    var jobStatus: Option<JobStatusResponse> := None;
    var lastIncrement := 0;
    var reports: seq<ProgressReport> := [];
    var delays: seq<int> := [];
    while i < |ticks|
      invariant 0 <= i <= |ticks|
      invariant attempt == i
      invariant Poll(kind, ticks, maxTime, None, 0)
                == Prefix(attempt, reports, delays, Poll(kind, ticks[i..], maxTime, jobStatus, lastIncrement))
      decreases |ticks| - i
    {
      var step := PollAttempt(kind, ticks[i], maxTime, jobStatus, lastIncrement);
      assert ticks[i..][1..] == ticks[i + 1..];
      match step {
        case Stop(outcome, readAttempted, report) =>
          return PollRun(outcome, attempt + (if readAttempted then 1 else 0), reports + ReportsOf(report), delays);
        case Wait(report, status, increment, delayMs) =>
          PrefixCompose(attempt, reports, delays, ReportsOf(report), [delayMs],
                        Poll(kind, ticks[i + 1..], maxTime, status, increment));
          attempt := attempt + 1;
          reports := reports + ReportsOf(report);
          jobStatus := status;
          lastIncrement := increment;
          delays := delays + [delayMs];
          i := i + 1;
      }
    }
    run := PollRun(StillPolling(jobStatus), attempt, reports, delays);
  }

  // ---------------------------------------------------------------------
  // What a run returns

  /** Whether an iteration over `t` ends in a wait rather than a return or a throw. */
  predicate Continues(kind: JobType, t: Tick, maxTime: Option<int>)
  {
    && !t.cancellationRequested
    && t.connected
    && !t.read.NotReceived?
    && (t.read.Received? ==>
          !Completed(kind, t.read.status) && !(kind == Import && IsImportJobFailed(t.read.status)))
    && !TimeLimitReached(maxTime, t.elapsedAtLimitCheck)
  }

  /** The number of leading iterations that end in a wait. */
  function LeadingContinues(kind: JobType, ticks: seq<Tick>, maxTime: Option<int>): (k: nat)
    ensures k <= |ticks|
    ensures forall j :: 0 <= j < k ==> Continues(kind, ticks[j], maxTime)
    ensures k < |ticks| ==> !Continues(kind, ticks[k], maxTime)
    decreases |ticks|
  {
    if |ticks| == 0 || !Continues(kind, ticks[0], maxTime) then 0
    else 1 + LeadingContinues(kind, ticks[1..], maxTime)
  }

  /** The value of the status variable after the reads of `ticks`: a failed read keeps the old one. */
  function LastReceived(ticks: seq<Tick>, last: Option<JobStatusResponse>): Option<JobStatusResponse>
    decreases |ticks|
  {
    if |ticks| == 0 then last
    else LastReceived(ticks[1..], if ticks[0].read.Received? then Some(ticks[0].read.status) else last)
  }

  /**
   * A run is decided by its first iteration that does not wait: the run
   * returns (or throws) what that iteration decides, with the status
   * variable as the earlier reads left it, and it has made one status read
   * per earlier iteration plus the decisive one's. Without such an
   * iteration the run is still polling when the ticks run out.
   */
  lemma {:induction false} PollDecidedByFirstDecisiveTick(kind: JobType, ticks: seq<Tick>, maxTime: Option<int>,
                                                          last: Option<JobStatusResponse>, lastIncrement: int)
    ensures var k := LeadingContinues(kind, ticks, maxTime);
            var run := Poll(kind, ticks, maxTime, last, lastIncrement);
            && (k == |ticks| ==> run.outcome == StillPolling(LastReceived(ticks, last)) && run.attempts == k)
            && (k < |ticks| ==>
                  var step := StepOf(kind, ticks[k], maxTime, LastReceived(ticks[..k], last), 0);
                  step.Stop? && run.outcome == step.outcome
                  && run.attempts == k + (if step.readAttempted then 1 else 0))
  {
    if LeadingContinues(kind, ticks, maxTime) == |ticks| {
      PollRunsOut(kind, ticks, maxTime, last, lastIncrement);
    } else {
      PollStopsAtDecisiveTick(kind, ticks, maxTime, last, lastIncrement);
    }
  }

  lemma {:induction false} PollRunsOut(kind: JobType, ticks: seq<Tick>, maxTime: Option<int>,
                                       last: Option<JobStatusResponse>, lastIncrement: int)
    requires LeadingContinues(kind, ticks, maxTime) == |ticks|
    ensures Poll(kind, ticks, maxTime, last, lastIncrement).outcome == StillPolling(LastReceived(ticks, last))
    ensures Poll(kind, ticks, maxTime, last, lastIncrement).attempts == |ticks|
    decreases |ticks|
  {
    if |ticks| > 0 {
      var step := StepOf(kind, ticks[0], maxTime, last, lastIncrement);
      PollRunsOut(kind, ticks[1..], maxTime, step.status, step.increment);
    }
  }

  lemma {:induction false} PollStopsAtDecisiveTick(kind: JobType, ticks: seq<Tick>, maxTime: Option<int>,
                                                   last: Option<JobStatusResponse>, lastIncrement: int)
    requires LeadingContinues(kind, ticks, maxTime) < |ticks|
    ensures var k := LeadingContinues(kind, ticks, maxTime);
            var run := Poll(kind, ticks, maxTime, last, lastIncrement);
            var step := StepOf(kind, ticks[k], maxTime, LastReceived(ticks[..k], last), 0);
            step.Stop? && run.outcome == step.outcome && run.attempts == k + (if step.readAttempted then 1 else 0)
    decreases |ticks|
  {
    if Continues(kind, ticks[0], maxTime) {
      var step := StepOf(kind, ticks[0], maxTime, last, lastIncrement);
      var k := LeadingContinues(kind, ticks, maxTime);
      PollStopsAtDecisiveTick(kind, ticks[1..], maxTime, step.status, step.increment);
      assert ticks[..k][1..] == ticks[1..][..k - 1];
    } else {
      assert ticks[..0] == [];
    }
  }

  /**
   * Cancellation requested at the top of an iteration the run reaches ends
   * the run with `CancellationError`, after the reads of the earlier
   * iterations only.
   */
  lemma CancellationBeforeRead(kind: JobType, ticks: seq<Tick>, maxTime: Option<int>, k: nat)
    requires k < |ticks|
    requires forall j :: 0 <= j < k ==> Continues(kind, ticks[j], maxTime)
    requires ticks[k].cancellationRequested
    ensures Poll(kind, ticks, maxTime, None, 0).outcome == Cancelled
    ensures Poll(kind, ticks, maxTime, None, 0).attempts == k
  {
    PollDecidedByFirstDecisiveTick(kind, ticks, maxTime, None, 0);
    FirstDecisiveIndex(kind, ticks, maxTime, k);
  }

  /** `LeadingContinues` is the index of the first iteration that does not wait. */
  lemma {:induction false} FirstDecisiveIndex(kind: JobType, ticks: seq<Tick>, maxTime: Option<int>, k: nat)
    requires k < |ticks|
    requires forall j :: 0 <= j < k ==> Continues(kind, ticks[j], maxTime)
    requires !Continues(kind, ticks[k], maxTime)
    ensures LeadingContinues(kind, ticks, maxTime) == k
    decreases k
  {
    if k > 0 {
      FirstDecisiveIndex(kind, ticks[1..], maxTime, k - 1);
    }
  }

  /**
   * A report job returns a status exactly when the decisive iteration
   * received a status that names a report file, and then it returns that
   * status; every status received before it lacked a report name.
   */
  lemma ReportJobReturnsFirstNamedStatus(ticks: seq<Tick>, maxTime: Option<int>)
    ensures var k := LeadingContinues(Report, ticks, maxTime);
            var run := Poll(Report, ticks, maxTime, None, 0);
            && ((run.outcome.Returned? && run.outcome.reason == JobCompleted) <==>
                (k < |ticks| && !ticks[k].cancellationRequested && ticks[k].connected
                 && ticks[k].read.Received? && IsReportJobCompletedSuccessfully(ticks[k].read.status)))
            && (run.outcome.Returned? && run.outcome.reason == JobCompleted ==>
                  run.outcome.status == Some(ticks[k].read.status))
            && (forall j :: 0 <= j < k && ticks[j].read.Received? ==>
                  !IsReportJobCompletedSuccessfully(ticks[j].read.status))
            && run.outcome != Returned(None, ImportFailed)
  {
    PollDecidedByFirstDecisiveTick(Report, ticks, maxTime, None, 0);
  }

  /**
   * An import job returns the status on importing-success and null on
   * importing-failure; success is checked first, so a status carrying
   * both counts as success.
   */
  lemma ImportJobSuccessBeforeFailure(ticks: seq<Tick>, maxTime: Option<int>)
    ensures var k := LeadingContinues(Import, ticks, maxTime);
            var run := Poll(Import, ticks, maxTime, None, 0);
            var decisive := k < |ticks| && !ticks[k].cancellationRequested && ticks[k].connected
                            && ticks[k].read.Received?;
            && ((run.outcome.Returned? && run.outcome.reason == JobCompleted) <==>
                (decisive && IsImportJobCompletedSuccessfully(ticks[k].read.status)))
            && (run.outcome.Returned? && run.outcome.reason == JobCompleted ==>
                  run.outcome.status == Some(ticks[k].read.status))
            && ((run.outcome.Returned? && run.outcome.reason == ImportFailed) <==>
                (decisive && !IsImportJobCompletedSuccessfully(ticks[k].read.status)
                 && IsImportJobFailed(ticks[k].read.status)))
            && (run.outcome.Returned? && run.outcome.reason == ImportFailed ==> run.outcome.status.None?)
  {
    PollDecidedByFirstDecisiveTick(Import, ticks, maxTime, None, 0);
  }

  /**
   * A missing connection returns null before the read; a null status
   * returns null right after the read. A thrown read never ends the run by
   * itself.
   */
  lemma NullReadAndMissingConnectionReturnNull(kind: JobType, ticks: seq<Tick>, maxTime: Option<int>)
    ensures var k := LeadingContinues(kind, ticks, maxTime);
            var run := Poll(kind, ticks, maxTime, None, 0);
            && (k < |ticks| && !ticks[k].cancellationRequested && !ticks[k].connected ==>
                  run.outcome == Returned(None, ConnectionMissing) && run.attempts == k)
            && (k < |ticks| && !ticks[k].cancellationRequested && ticks[k].connected
                && ticks[k].read.NotReceived? ==>
                  run.outcome == Returned(None, StatusMissing) && run.attempts == k + 1)
            && (k < |ticks| && ticks[k].read.ReadFailed? && !ticks[k].cancellationRequested
                && ticks[k].connected ==>
                  run.outcome.Returned? && run.outcome.reason == TimeLimit)
  {
    PollDecidedByFirstDecisiveTick(kind, ticks, maxTime, None, 0);
  }

  /**
   * The time limit ends the run only when one is given and the elapsed
   * time has reached it; the run then returns the last status it observed,
   * not an error.
   */
  lemma TimeLimitReturnsLastObservedStatus(kind: JobType, ticks: seq<Tick>, maxTime: Option<int>)
    ensures var k := LeadingContinues(kind, ticks, maxTime);
            var run := Poll(kind, ticks, maxTime, None, 0);
            run.outcome.Returned? && run.outcome.reason == TimeLimit ==>
              && maxTime.Some?
              && k < |ticks|
              && ticks[k].elapsedAtLimitCheck >= maxTime.value
              && run.outcome.status == LastReceived(ticks[..k + 1], None)
  {
    PollDecidedByFirstDecisiveTick(kind, ticks, maxTime, None, 0);
    var k := LeadingContinues(kind, ticks, maxTime);
    if k < |ticks| {
      LastReceivedSnoc(ticks[..k], ticks[k], None);
      assert ticks[..k + 1] == ticks[..k] + [ticks[k]];
    }
  }

  lemma {:induction false} LastReceivedSnoc(ticks: seq<Tick>, t: Tick, last: Option<JobStatusResponse>)
    ensures LastReceived(ticks + [t], last)
            == if t.read.Received? then Some(t.read.status) else LastReceived(ticks, last)
    decreases |ticks|
  {
    if |ticks| > 0 {
      assert (ticks + [t])[1..] == ticks[1..] + [t];
      LastReceivedSnoc(ticks[1..], t, if ticks[0].read.Received? then Some(ticks[0].read.status) else last);
    }
  }

  // ---------------------------------------------------------------------
  // Waits and progress

  /** Every iteration that waits waits by the interval rule, and only those wait. */
  lemma {:induction false} WaitsFollowIntervalRule(kind: JobType, ticks: seq<Tick>, maxTime: Option<int>,
                                                  last: Option<JobStatusResponse>, lastIncrement: int)
    ensures var run := Poll(kind, ticks, maxTime, last, lastIncrement);
            && |run.delays| == LeadingContinues(kind, ticks, maxTime)
            && forall j :: 0 <= j < |run.delays| ==> run.delays[j] == Interval(ticks[j].elapsedAtDelay)
    decreases |ticks|
  {
    if |ticks| > 0 && Continues(kind, ticks[0], maxTime) {
      var step := StepOf(kind, ticks[0], maxTime, last, lastIncrement);
      WaitsFollowIntervalRule(kind, ticks[1..], maxTime, step.status, step.increment);
    }
  }

  /** A report of the bar: both counts non-zero, the rounded percentage, and the step from `previous`. */
  predicate ReportFollows(r: ProgressReport, previous: int)
  {
    && r.handled != 0 && r.total != 0
    && r.percentage == RoundedPercentage(r.handled, r.total)
    && r.increment == (r.percentage - previous) as real / 3.0
  }

  /** Each report follows the one before it; the first follows `start`. */
  predicate ReportChain(reports: seq<ProgressReport>, start: int)
    decreases |reports|
  {
    |reports| == 0 || (ReportFollows(reports[0], start) && ReportChain(reports[1..], reports[0].percentage))
  }

  function IncrementSum(reports: seq<ProgressReport>): real
    decreases |reports|
  {
    if |reports| == 0 then 0.0 else reports[0].increment + IncrementSum(reports[1..])
  }

  function FinalPercentage(reports: seq<ProgressReport>, start: int): int
  {
    if |reports| == 0 then start else reports[|reports| - 1].percentage
  }

  /**
   * Progress is reported only for statuses with two non-zero counts, and
   * each increment is a third of the step from the previously reported
   * percentage.
   */
  lemma {:induction false} ReportsFormChain(kind: JobType, ticks: seq<Tick>, maxTime: Option<int>,
                                           last: Option<JobStatusResponse>, lastIncrement: int)
    ensures ReportChain(Poll(kind, ticks, maxTime, last, lastIncrement).reports, lastIncrement)
    decreases |ticks|
  {
    if |ticks| > 0 {
      var step := StepOf(kind, ticks[0], maxTime, last, lastIncrement);
      StepReportFollows(kind, ticks[0], maxTime, last, lastIncrement);
      if step.Wait? {
        ReportsFormChain(kind, ticks[1..], maxTime, step.status, step.increment);
        var rest := Poll(kind, ticks[1..], maxTime, step.status, step.increment).reports;
        var all := ReportsOf(step.report) + rest;
        assert Poll(kind, ticks, maxTime, last, lastIncrement).reports == all;
        if step.report.Some? {
          assert all[1..] == rest;
        } else {
          assert all == rest;
        }
      }
    }
  }

  /** The report of one iteration, if any, follows the bar's previous position. */
  lemma StepReportFollows(kind: JobType, t: Tick, maxTime: Option<int>,
                          last: Option<JobStatusResponse>, lastIncrement: int)
    ensures var step := StepOf(kind, t, maxTime, last, lastIncrement);
            && (step.report.Some? ==> ReportFollows(step.report.value, lastIncrement))
            && (step.Wait? ==> step.increment == NextIncrement(step.report, lastIncrement))
  {
  }

  lemma {:induction false} ChainTelescopes(reports: seq<ProgressReport>, start: int)
    requires ReportChain(reports, start)
    ensures 3.0 * IncrementSum(reports) == (FinalPercentage(reports, start) - start) as real
    decreases |reports|
  {
    if |reports| > 0 {
      var rest := reports[1..];
      ChainTelescopes(rest, reports[0].percentage);
      assert FinalPercentage(rest, reports[0].percentage) == FinalPercentage(reports, start) by {
        if |rest| > 0 {
          assert rest[|rest| - 1] == reports[|reports| - 1];
        }
      }
      assert 3.0 * reports[0].increment == (reports[0].percentage - start) as real;
    }
  }

  /**
   * The increments a run reports add up to a third of the last reported
   * percentage, so the bar always stands where the last report put it.
   */
  lemma ProgressIncrementsSumToLastPercentage(kind: JobType, ticks: seq<Tick>, maxTime: Option<int>)
    ensures var reports := Poll(kind, ticks, maxTime, None, 0).reports;
            3.0 * IncrementSum(reports) == FinalPercentage(reports, 0) as real
  {
    ReportsFormChain(kind, ticks, maxTime, None, 0);
    ChainTelescopes(Poll(kind, ticks, maxTime, None, 0).reports, 0);
  }

  /** Nothing clamps the increment: a handled count that drops yields a negative one. */
  lemma IncrementCanBeNegative()
    ensures exists ticks: seq<Tick> ::
              (exists j :: 0 <= j < |Poll(Report, ticks, None, None, 0).reports|
                           && Poll(Report, ticks, None, None, 0).reports[j].increment < 0.0)
  {
    var half := JobStatusResponse("1", "p", "o", "t", Some(ProgressCounts(10, 5)), None);
    var fifth := JobStatusResponse("1", "p", "o", "t", Some(ProgressCounts(10, 2)), None);
    var ticks := [Tick(false, true, Received(half), 0, 0), Tick(false, true, Received(fifth), 0, 0)];
    assert RoundedPercentage(5, 10) == 50;
    assert RoundedPercentage(2, 10) == 20;
    assert ticks[1..] == [ticks[1]] && ticks[1..][1..] == [];
    var report := ProgressReport(2, 10, 20, (20 - 50) as real / 3.0);
    assert StepOf(Report, ticks[1], None, Some(half), 50) == Wait(Some(report), Some(fifth), 20, 200);
    assert Poll(Report, [], None, Some(fifth), 20).reports == [];
    var second := Poll(Report, ticks[1..], None, Some(half), 50);
    assert second.reports == [report];
    var run := Poll(Report, ticks, None, None, 0);
    assert run.reports == [ProgressReport(5, 10, 50, 50.0 / 3.0)] + second.reports;
    assert run.reports[1].increment < 0.0;
  }

  /** The integer rounding is round-half-up of the exact percentage. */
  lemma RoundedPercentageIsNearest(handled: int, total: int)
    requires total != 0
    ensures var p := RoundedPercentage(handled, total) as real;
            var exact := 100.0 * handled as real / total as real;
            p - 0.5 <= exact < p + 0.5
  {
    if total > 0 {
      NearestForPositiveTotal(handled, total);
    } else {
      assert RoundedPercentage(handled, total) == RoundedPercentage(-handled, -total);
      NearestForPositiveTotal(-handled, -total);
      assert 100.0 * (-handled) as real / (-total) as real == 100.0 * handled as real / total as real;
    }
  }

  lemma NearestForPositiveTotal(handled: int, total: int)
    requires total > 0
    ensures var p := RoundedPercentage(handled, total) as real;
            var exact := 100.0 * handled as real / total as real;
            p - 0.5 <= exact < p + 0.5
  {
    var n, d := 200 * handled + total, 2 * total;
    var p := RoundedPercentage(handled, total);
    assert p == n / d;
    assert d * p <= n < d * p + d;
    var tr, pr, hr := total as real, p as real, handled as real;
    assert (d * p) as real == 2.0 * tr * pr;
    assert n as real == 200.0 * hr + tr;
    var x := 100.0 * hr / tr;
    assert x * tr == 100.0 * hr;
    var m := pr * tr;
    assert (d * p) as real == 2.0 * m;
    assert 2.0 * m <= 200.0 * hr + tr < 2.0 * m + 2.0 * tr;
    HalfBounds(m, hr, tr, pr, x);
  }

  lemma HalfBounds(m: real, hr: real, tr: real, pr: real, x: real)
    requires tr > 0.0 && m == pr * tr && x * tr == 100.0 * hr
    requires 2.0 * m <= 200.0 * hr + tr < 2.0 * m + 2.0 * tr
    ensures pr - 0.5 <= x < pr + 0.5
  {
    var below, above := pr - 0.5 - x, x - pr - 0.5;
    assert below * tr == m - 0.5 * tr - 100.0 * hr <= 0.0;
    assert above * tr == 100.0 * hr - m - 0.5 * tr < 0.0;
    PositiveFactorKeepsSign(below, tr);
    PositiveFactorKeepsSign(above, tr);
  }

  lemma PositiveFactorKeepsSign(a: real, t: real)
    requires t > 0.0
    ensures a > 0.0 ==> a * t > 0.0
    ensures a >= 0.0 ==> a * t >= 0.0
  {
  }
}
