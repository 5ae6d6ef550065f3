/**
 * The batch worker and its trigger: `start_processing` checks the session
 * and the single-flight flag and resets the shared state; `run_processing`
 * opens the browser, waits for the login, runs every record through
 * `process_single_application` and writes the status report.  The worker
 * thread is modelled as a call that runs to completion.
 */
module Batch {
  import opened Wrappers
  import opened Chains
  import opened Seqs
  import opened Progress
  import opened Actions
  import opened Sequencer

  /** One row of the status report: the identifier and "Success" or "Failure". */
  datatype StatusRow = StatusRow(aadhaar: string, status: string)

  function StatusText(success: bool): string {
    if success then "Success" else "Failure"
  }

  /** How the browser behaves for one record. */
  datatype RecordScript = RecordScript(
    dashboardOk: bool,  // going back to the dashboard before every record but the first
    site: Site)

  /** How the browser behaves for one whole run. */
  datatype BatchEnv = BatchEnv(
    launchOk: bool,              // starting Playwright, the browser, its context and page
    loginPageOk: bool,           // opening the login page
    loginLog: seq<LogEntry>,     // what `manual_login` logs
    loggedIn: bool,              // `manual_login` returns True
    scripts: seq<RecordScript>,  // one per record
    saveOk: bool,                // writing the report workbook
    closeOk: bool)               // closing the browser

  /** The environment has one well-formed script per record. */
  predicate Scripted(records: seq<string>, scripts: seq<RecordScript>) {
    && |scripts| == |records|
    && forall i :: 0 <= i < |scripts| ==> WellFormed(scripts[i].site)
  }

  // ------------------------------------------------------------ one record

  /** Line 1094: the percentage shown while record i of n is processed. */
  function ProgressAt(i: nat, n: nat): real
    requires i < n
  {
    ((i + 1) as real / n as real) * 100.0
  }

  /** Navigation to the dashboard fails for this record (never tried for the first). */
  predicate NavigationFails(i: nat, script: RecordScript) {
    i > 0 && !script.dashboardOk
  }

  /** The report row of record i, or none when the navigation raised. */
  function RecordRow(i: nat, id: string, script: RecordScript): Option<StatusRow>
    requires WellFormed(script.site)
  {
    if NavigationFails(i, script) then None
    else Some(StatusRow(id, StatusText(Outcome(script.site) == Completed)))
  }

  function RecordEntries(i: nat, n: nat, id: string, script: RecordScript): seq<LogEntry>
    requires WellFormed(script.site)
  {
    [LogEntry(ProcessingRecord(id, i + 1, n), Info)] +
    (if NavigationFails(i, script) then [LogEntry(RecordError(id), Error)]
     else (RecordLog(id, script.site) +
           [if Outcome(script.site) == Completed then LogEntry(RecordSucceeded(id), Success)
            else LogEntry(RecordFailed(id), Error)]))
  }

  function RecordCaptures(i: nat, id: string, script: RecordScript): seq<Capture>
    requires WellFormed(script.site)
  {
    if NavigationFails(i, script) then [NavigationShot(id)] else RecordShots(id, script.site)
  }

  /**
   * The body of the loop over the records (lines 1089-1117): show the record
   * and the progress, go back to the dashboard unless it is the first, run
   * the application and count a success.  An exception of the navigation is
   * logged with a screenshot and leaves no row.
   */
  method ProcessRecordAt(st: ProcessingState, page: Page, records: seq<string>, i: nat,
                         script: RecordScript, count: nat)
    returns (row: Option<StatusRow>, newCount: nat)
    requires i < |records| && WellFormed(script.site)
    modifies st`logs, st`progress, st`currentAadhaar, st`successfulCount, page`captures
    ensures row == RecordRow(i, records[i], script)
    ensures newCount == count + if row.Some? && row.value.status == "Success" then 1 else 0
    ensures st.successfulCount == if newCount == count then old(st.successfulCount) else newCount
    ensures st.logs == old(st.logs) + RecordEntries(i, |records|, records[i], script)
    ensures page.captures == old(page.captures) + RecordCaptures(i, records[i], script)
    ensures st.progress == ProgressAt(i, |records|)
    ensures st.currentAadhaar == records[i]
  {
    var id := records[i];
    st.currentAadhaar := id;
    st.Log(ProcessingRecord(id, i + 1, |records|), Info);
    st.progress := ProgressAt(i, |records|);
    if i > 0 && !script.dashboardOk {
      st.Log(RecordError(id), Error);
      page.Screenshot(NavigationShot(id));
      return None, count;
    }
    ghost var start := st.logs;
    var success := ProcessSingleApplication(st, page, id, script.site);
    row := Some(StatusRow(id, StatusText(success)));
    var last;
    if success {
      newCount := count + 1;
      st.successfulCount := newCount;
      last := LogEntry(RecordSucceeded(id), Success);
    } else {
      newCount := count;
      last := LogEntry(RecordFailed(id), Error);
    }
    st.Log(last.message, last.tag);
    AppendAssoc4(old(st.logs), [LogEntry(ProcessingRecord(id, i + 1, |records|), Info)],
                 RecordLog(id, script.site), [last]);
  }

  // ------------------------------------------------------------ the loop

  /** The report rows of the first k records. */
  function Rows(records: seq<string>, scripts: seq<RecordScript>, k: nat): seq<StatusRow>
    requires Scripted(records, scripts) && k <= |records|
  {
    if k == 0 then []
    else
      Rows(records, scripts, k - 1) + RowPiece(RecordRow(k - 1, records[k - 1], scripts[k - 1]))
  }

  /** The rows a record adds to the report: none or one. */
  function RowPiece(row: Option<StatusRow>): seq<StatusRow> {
    match row
    case None => []
    case Some(r) => [r]
  }

  function LoopLog(records: seq<string>, scripts: seq<RecordScript>, k: nat): seq<LogEntry>
    requires Scripted(records, scripts) && k <= |records|
  {
    if k == 0 then []
    else LoopLog(records, scripts, k - 1) + RecordEntries(k - 1, |records|, records[k - 1], scripts[k - 1])
  }

  function LoopShots(records: seq<string>, scripts: seq<RecordScript>, k: nat): seq<Capture>
    requires Scripted(records, scripts) && k <= |records|
  {
    if k == 0 then []
    else LoopShots(records, scripts, k - 1) + RecordCaptures(k - 1, records[k - 1], scripts[k - 1])
  }

  /** How many rows read "Success". */
  function CountSuccess(rows: seq<StatusRow>): nat {
    if rows == [] then 0
    else CountSuccess(rows[..|rows| - 1]) + if rows[|rows| - 1].status == "Success" then 1 else 0
  }

  lemma CountSuccessAppend(rows: seq<StatusRow>, r: Option<StatusRow>)
    ensures CountSuccess(rows + RowPiece(r)) ==
            CountSuccess(rows) + if r.Some? && r.value.status == "Success" then 1 else 0
  {
    if r.Some? {
      assert (rows + [r.value])[..|rows|] == rows;
    } else {
      assert rows + [] == rows;
    }
  }

  /**
   * Lines 1088-1117: every record in turn.  The local success counter always
   * equals the number of "Success" rows, and the shared counter follows it
   * once it is positive.
   */
  method ProcessRecords(st: ProcessingState, page: Page, records: seq<string>, scripts: seq<RecordScript>)
    returns (report: seq<StatusRow>, successful: nat)
    requires Scripted(records, scripts)
    modifies st`logs, st`progress, st`currentAadhaar, st`successfulCount, page`captures
    ensures report == Rows(records, scripts, |records|)
    ensures successful == CountSuccess(report)
    ensures st.successfulCount == if successful == 0 then old(st.successfulCount) else successful
    ensures st.logs == old(st.logs) + LoopLog(records, scripts, |records|)
    ensures page.captures == old(page.captures) + LoopShots(records, scripts, |records|)
    ensures st.progress == if records == [] then old(st.progress) else ProgressAt(|records| - 1, |records|)
    ensures st.currentAadhaar == if records == [] then old(st.currentAadhaar) else records[|records| - 1]
  {
    report := [];
    successful := 0;
    for i := 0 to |records|
      invariant report == Rows(records, scripts, i)
      invariant successful == CountSuccess(report)
      invariant st.successfulCount == if successful == 0 then old(st.successfulCount) else successful
      invariant st.logs == old(st.logs) + LoopLog(records, scripts, i)
      invariant page.captures == old(page.captures) + LoopShots(records, scripts, i)
      invariant st.progress == if i == 0 then old(st.progress) else ProgressAt(i - 1, |records|)
      invariant st.currentAadhaar == if i == 0 then old(st.currentAadhaar) else records[i - 1]
    {
      var row;
      row, successful := ProcessRecordAt(st, page, records, i, scripts[i], successful);
      CountSuccessAppend(report, row);
      report := report + RowPiece(row);
      AppendAssoc(old(st.logs), LoopLog(records, scripts, i), RecordEntries(i, |records|, records[i], scripts[i]));
      AppendAssoc(old(page.captures), LoopShots(records, scripts, i), RecordCaptures(i, records[i], scripts[i]));
    }
  }

  // ------------------------------------------------------------ the worker

  /** What the batch logs after the loop: the report and the summary, or the fatal error. */
  function FinishLog(env: BatchEnv, successful: nat, total: nat): seq<LogEntry> {
    if !env.saveOk then [LogEntry(FatalError, Error)]
    else
      [LogEntry(ReportSaved, Success)] + [LogEntry(BatchCompleted(successful, total), Success)] +
      if env.closeOk then [] else [LogEntry(FatalError, Error)]
  }

  /** The run reaches the loop: the browser starts and the operator logs in. */
  predicate ReachesLoop(env: BatchEnv) {
    env.launchOk && env.loginPageOk && env.loggedIn
  }

  /** What the run logs once the operator is logged in: the records, then the finish. */
  function LoggedInLog(records: seq<string>, env: BatchEnv): seq<LogEntry>
    requires Scripted(records, env.scripts)
  {
    LoopLog(records, env.scripts, |records|) +
    FinishLog(env, CountSuccess(Rows(records, env.scripts, |records|)), |records|)
  }

  function RunLog(records: seq<string>, env: BatchEnv): seq<LogEntry>
    requires Scripted(records, env.scripts)
  {
    [LogEntry(PlaywrightStarting, Info)] +
    if !env.launchOk then [LogEntry(FatalError, Error)]
    else
      [LogEntry(OpeningWebsite, Info)] +
      if !env.loginPageOk then [LogEntry(FatalError, Error)]
      else
        env.loginLog +
        if !env.loggedIn then [LogEntry(FatalError, Error)]
        else LoggedInLog(records, env)
  }

  function RunShots(records: seq<string>, env: BatchEnv): seq<Capture>
    requires Scripted(records, env.scripts)
  {
    if ReachesLoop(env) then LoopShots(records, env.scripts, |records|) else []
  }

  /** The status report of a run: empty when the loop is never reached. */
  function RunReport(records: seq<string>, env: BatchEnv): seq<StatusRow>
    requires Scripted(records, env.scripts)
  {
    if ReachesLoop(env) then Rows(records, env.scripts, |records|) else []
  }

  /**
   * Lines 1119-1134: save the report, log the summary, clear the flag and
   * close the browser.  A failure to save or to close lands in the handler,
   * which logs the fatal error and clears the flag (again, after a close).
   */
  method Finish(st: ProcessingState, env: BatchEnv, successful: nat, total: nat)
    modifies st`logs, st`isProcessing
    ensures !st.isProcessing
    ensures st.logs == old(st.logs) + FinishLog(env, successful, total)
  {
    var fatal := LogEntry(FatalError, Error);
    if !env.saveOk {
      st.Log(fatal.message, fatal.tag);
      st.isProcessing := false;
    } else {
      var saved := LogEntry(ReportSaved, Success);
      var summary := LogEntry(BatchCompleted(successful, total), Success);
      st.Log(saved.message, saved.tag);
      st.Log(summary.message, summary.tag);
      st.isProcessing := false;
      ghost var tail: seq<LogEntry> := [];
      if !env.closeOk {
        st.Log(fatal.message, fatal.tag);
        st.isProcessing := false;
        tail := [fatal];
      } else {
        assert st.logs == st.logs + tail;
      }
      AppendAssocTail(old(st.logs), [saved], [summary], tail);
    }
  }

  /** Lines 1088-1134: the records, then the finish. */
  method ProcessAndReport(st: ProcessingState, page: Page, records: seq<string>, env: BatchEnv)
    returns (report: seq<StatusRow>)
    requires Scripted(records, env.scripts)
    modifies st`logs, st`progress, st`currentAadhaar, st`successfulCount, st`isProcessing, page`captures
    ensures !st.isProcessing
    ensures report == Rows(records, env.scripts, |records|)
    ensures st.logs == old(st.logs) + LoggedInLog(records, env)
    ensures page.captures == old(page.captures) + LoopShots(records, env.scripts, |records|)
    ensures st.successfulCount == if CountSuccess(report) == 0 then old(st.successfulCount) else CountSuccess(report)
    ensures st.progress == if records == [] then old(st.progress) else ProgressAt(|records| - 1, |records|)
    ensures st.currentAadhaar == if records == [] then old(st.currentAadhaar) else records[|records| - 1]
  {
    var successful;
    report, successful := ProcessRecords(st, page, records, env.scripts);
    Finish(st, env, successful, |records|);
    AppendAssoc(old(st.logs), LoopLog(records, env.scripts, |records|), FinishLog(env, successful, |records|));
  }

  /**
   * `run_processing`: every way out, the summary or a fatal error, clears
   * the processing flag.  The report rows are returned; whether the
   * workbook is written shows in the log.
   */
  method RunProcessing(st: ProcessingState, page: Page, records: seq<string>, env: BatchEnv)
    returns (report: seq<StatusRow>)
    requires Scripted(records, env.scripts)
    modifies st`logs, st`progress, st`currentAadhaar, st`successfulCount, st`isProcessing, page`captures
    ensures !st.isProcessing
    ensures report == RunReport(records, env)
    ensures st.logs == old(st.logs) + RunLog(records, env)
    ensures page.captures == old(page.captures) + RunShots(records, env)
    ensures st.successfulCount == if CountSuccess(report) == 0 then old(st.successfulCount) else CountSuccess(report)
    ensures ReachesLoop(env) && records != [] ==> st.progress == ProgressAt(|records| - 1, |records|)
    ensures !ReachesLoop(env) || records == [] ==> st.progress == old(st.progress)
    ensures ReachesLoop(env) && records != [] ==> st.currentAadhaar == records[|records| - 1]
    ensures !ReachesLoop(env) || records == [] ==> st.currentAadhaar == old(st.currentAadhaar)
  {
    var started := LogEntry(PlaywrightStarting, Info);
    var opening := LogEntry(OpeningWebsite, Info);
    var fatal := LogEntry(FatalError, Error);
    st.Log(started.message, started.tag);
    report := [];
    if !env.launchOk {
      st.Log(fatal.message, fatal.tag);
      st.isProcessing := false;
      return;
    }
    st.Log(opening.message, opening.tag);
    if !env.loginPageOk {
      st.Log(fatal.message, fatal.tag);
      st.isProcessing := false;
      AppendAssoc4(old(st.logs), [started], [opening], [fatal]);
      return;
    }
    st.logs := st.logs + env.loginLog;
    ghost var rest: seq<LogEntry>;
    if !env.loggedIn {
      st.Log(fatal.message, fatal.tag);
      st.isProcessing := false;
      rest := [fatal];
    } else {
      report := ProcessAndReport(st, page, records, env);
      rest := LoggedInLog(records, env);
    }
    AppendNested5(old(st.logs), [started], [opening], env.loginLog, rest);
  }

  // ------------------------------------------------------------ the trigger

  /** The keys `start_processing` needs in the Flask session. */
  datatype Session = Session(loggedIn: bool, hasRecordsFile: bool)

  /** Where `start_processing` redirects, and with which flash message. */
  datatype StartResult =
    | NotReady          // "Please upload a valid file first"
    | AlreadyRunning    // "Processing already in progress"
    | LoadFailed        // "Failed to load records: ..."
    | Launched(records: seq<string>)

  /**
   * `start_processing`: `loaded` is the content of the temporary records
   * file, `None` when opening or parsing it raises.  Only a started run
   * touches the shared state.
   */
  method StartProcessing(st: ProcessingState, session: Session, loaded: Option<seq<string>>)
    returns (r: StartResult)
    modifies st
    ensures !(session.loggedIn && session.hasRecordsFile) ==> r == NotReady
    ensures session.loggedIn && session.hasRecordsFile && old(st.isProcessing) ==> r == AlreadyRunning
    ensures session.loggedIn && session.hasRecordsFile && !old(st.isProcessing) ==>
              r == if loaded.None? then LoadFailed else Launched(loaded.value)
    ensures !r.Launched? ==> unchanged(st)
    ensures r.Launched? ==>
              && st.isProcessing && st.progress == 0.0 && st.logs == []
              && st.successfulCount == 0 && st.totalRecords == |r.records| && st.currentAadhaar == ""
  {
    if !session.loggedIn || !session.hasRecordsFile {
      return NotReady;
    }
    if st.isProcessing {
      return AlreadyRunning;
    }
    if loaded.None? {
      return LoadFailed;
    }
    var records := loaded.value;
    st.isProcessing := true;
    st.progress := 0.0;
    st.logs := [];
    st.successfulCount := 0;
    st.totalRecords := |records|;
    st.currentAadhaar := "";
    return Launched(records);
  }

  /**
   * A request to start followed by the worker it launches.  The request
   * launches exactly as `start_processing` decides; after the run the flag is
   * clear, the log is exactly the run's, the shared counter is the number of
   * "Success" rows and never exceeds the total, and the progress and current
   * identifier are those of the last record, or still the reset values when
   * the loop never ran.
   */
  method StartAndRun(st: ProcessingState, page: Page, session: Session, loaded: Option<seq<string>>, env: BatchEnv)
    returns (r: StartResult, report: seq<StatusRow>)
    requires loaded.Some? ==> Scripted(loaded.value, env.scripts)
    modifies st, page`captures
    ensures !(session.loggedIn && session.hasRecordsFile) ==> r == NotReady
    ensures session.loggedIn && session.hasRecordsFile && old(st.isProcessing) ==> r == AlreadyRunning
    ensures session.loggedIn && session.hasRecordsFile && !old(st.isProcessing) ==>
              r == if loaded.None? then LoadFailed else Launched(loaded.value)
    ensures r.Launched? ==> loaded == Some(r.records)
    ensures !r.Launched? ==> unchanged(st) && page.captures == old(page.captures) && report == []
    ensures r.Launched? ==>
              && !st.isProcessing
              && st.logs == RunLog(r.records, env)
              && page.captures == old(page.captures) + RunShots(r.records, env)
              && report == RunReport(r.records, env)
              && st.successfulCount == CountSuccess(report)
              && st.totalRecords == |r.records|
              && st.successfulCount <= st.totalRecords
    ensures r.Launched? && ReachesLoop(env) && r.records != [] ==>
              && st.progress == ProgressAt(|r.records| - 1, |r.records|)
              && st.currentAadhaar == r.records[|r.records| - 1]
    ensures r.Launched? && (!ReachesLoop(env) || r.records == []) ==>
              st.progress == 0.0 && st.currentAadhaar == ""
  {
    r := StartProcessing(st, session, loaded);
    report := [];
    if r.Launched? {
      report := RunFromReset(st, page, r.records, env);
    }
  }

  /** The worker started on the state `start_processing` has just reset. */
  method RunFromReset(st: ProcessingState, page: Page, records: seq<string>, env: BatchEnv)
    returns (report: seq<StatusRow>)
    requires Scripted(records, env.scripts)
    requires st.progress == 0.0 && st.logs == [] && st.successfulCount == 0
    requires st.totalRecords == |records| && st.currentAadhaar == ""
    modifies st`logs, st`progress, st`currentAadhaar, st`successfulCount, st`isProcessing, page`captures
    ensures !st.isProcessing
    ensures st.logs == RunLog(records, env)
    ensures page.captures == old(page.captures) + RunShots(records, env)
    ensures report == RunReport(records, env)
    ensures st.successfulCount == CountSuccess(report) <= st.totalRecords == |records|
    ensures ReachesLoop(env) && records != [] ==>
              st.progress == ProgressAt(|records| - 1, |records|) && st.currentAadhaar == records[|records| - 1]
    ensures !ReachesLoop(env) || records == [] ==> st.progress == 0.0 && st.currentAadhaar == ""
  {
    report := RunProcessing(st, page, records, env);
    RowsAtMostRecords(records, env.scripts, |records|);
    CountSuccessAtMostRows(report);
  }

  // ------------------------------------------------------------ properties

  /** The progress never moves backwards from one record to the next. */
  lemma ProgressMonotone(i: nat, j: nat, n: nat)
    requires i <= j < n
    ensures ProgressAt(i, n) <= ProgressAt(j, n)
  {
    var d := n as real;
    assert (i + 1) as real <= (j + 1) as real;
    DivideMonotone((i + 1) as real, (j + 1) as real, d);
  }

  lemma DivideMonotone(a: real, b: real, d: real)
    requires a <= b && d > 0.0
    ensures a / d <= b / d
  {
    assert b / d - a / d == (b - a) / d;
  }

  /** The progress is positive and at most 100, and it is 100 at the last record. */
  lemma ProgressBounds(i: nat, n: nat)
    requires i < n
    ensures 0.0 < ProgressAt(i, n) <= 100.0
    ensures i == n - 1 ==> ProgressAt(i, n) == 100.0
  {
    ProgressMonotone(i, n - 1, n);
    var d := n as real;
    assert d / d == 1.0;
    assert (i + 1) as real / d > 0.0;
  }

  /** At most one row per record. */
  lemma {:induction false} RowsAtMostRecords(records: seq<string>, scripts: seq<RecordScript>, k: nat)
    requires Scripted(records, scripts) && k <= |records|
    ensures |Rows(records, scripts, k)| <= k
  {
    if k > 0 {
      RowsAtMostRecords(records, scripts, k - 1);
      assert |RowPiece(RecordRow(k - 1, records[k - 1], scripts[k - 1]))| <= 1;
    }
  }

  /** No more "Success" rows than rows. */
  lemma {:induction false} CountSuccessAtMostRows(rows: seq<StatusRow>)
    ensures CountSuccess(rows) <= |rows|
  {
    if rows != [] {
      CountSuccessAtMostRows(rows[..|rows| - 1]);
    }
  }

  /** The indices of the records among the first k that leave a row. */
  function RowIndices(records: seq<string>, scripts: seq<RecordScript>, k: nat): seq<nat>
    requires Scripted(records, scripts) && k <= |records|
  {
    if k == 0 then []
    else RowIndices(records, scripts, k - 1) + if NavigationFails(k - 1, scripts[k - 1]) then [] else [k - 1]
  }

  /**
   * Rows follow the input: row j belongs to record `RowIndices[j]`, and its
   * status is that record's outcome.
   */
  lemma {:induction false} RowsFollowInput(records: seq<string>, scripts: seq<RecordScript>, k: nat)
    requires Scripted(records, scripts) && k <= |records|
    ensures |RowIndices(records, scripts, k)| == |Rows(records, scripts, k)|
    ensures forall j :: 0 <= j < |RowIndices(records, scripts, k)| ==>
              && RowIndices(records, scripts, k)[j] < k
              && Rows(records, scripts, k)[j] ==
                 StatusRow(records[RowIndices(records, scripts, k)[j]],
                           StatusText(Outcome(scripts[RowIndices(records, scripts, k)[j]].site) == Completed))
  {
    if k > 0 {
      RowsFollowInput(records, scripts, k - 1);
      var rows := Rows(records, scripts, k - 1);
      var idx := RowIndices(records, scripts, k - 1);
      var row := RecordRow(k - 1, records[k - 1], scripts[k - 1]);
      if NavigationFails(k - 1, scripts[k - 1]) {
        assert Rows(records, scripts, k) == rows + [];
        assert RowIndices(records, scripts, k) == idx + [];
      } else {
        assert Rows(records, scripts, k) == rows + [row.value];
        assert RowIndices(records, scripts, k) == idx + [k - 1];
      }
    }
  }

  /** The rows' record indices strictly increase: rows come in input order. */
  lemma {:induction false} RowIndicesIncrease(records: seq<string>, scripts: seq<RecordScript>, k: nat)
    requires Scripted(records, scripts) && k <= |records|
    ensures forall j :: 0 <= j < |RowIndices(records, scripts, k)| ==> RowIndices(records, scripts, k)[j] < k
    ensures forall j, l :: 0 <= j < l < |RowIndices(records, scripts, k)| ==>
              RowIndices(records, scripts, k)[j] < RowIndices(records, scripts, k)[l]
  {
    if k > 0 {
      RowIndicesIncrease(records, scripts, k - 1);
      var idx := RowIndices(records, scripts, k - 1);
      if NavigationFails(k - 1, scripts[k - 1]) {
        assert RowIndices(records, scripts, k) == idx + [];
      } else {
        assert RowIndices(records, scripts, k) == idx + [k - 1];
      }
    }
  }

  /** A record leaves a row exactly when it is the first or the dashboard opens for it. */
  lemma {:induction false} RowIndicesIff(records: seq<string>, scripts: seq<RecordScript>, k: nat, i: nat)
    requires Scripted(records, scripts) && k <= |records| && i < k
    ensures i in RowIndices(records, scripts, k) <==> i == 0 || scripts[i].dashboardOk
  {
    var idx := RowIndices(records, scripts, k - 1);
    if k - 1 != i {
      RowIndicesIff(records, scripts, k - 1, i);
    } else {
      RowIndicesIncrease(records, scripts, k - 1);
      assert forall j :: 0 <= j < |idx| ==> idx[j] != i;
    }
  }

  /** When every navigation succeeds, there is exactly one row per record, in order. */
  lemma {:induction false} RowsOnePerRecord(records: seq<string>, scripts: seq<RecordScript>, k: nat)
    requires Scripted(records, scripts) && k <= |records|
    requires forall i :: 0 < i < k ==> scripts[i].dashboardOk
    ensures |Rows(records, scripts, k)| == k
    ensures forall i :: 0 <= i < k ==> Rows(records, scripts, k)[i].aadhaar == records[i]
  {
    if k > 0 {
      RowsOnePerRecord(records, scripts, k - 1);
      var rows := Rows(records, scripts, k - 1);
      var row := RecordRow(k - 1, records[k - 1], scripts[k - 1]);
      assert RowPiece(row) == [row.value] && row.value.aadhaar == records[k - 1];
      var rows' := Rows(records, scripts, k);
      assert rows' == rows + [row.value];
      forall i | 0 <= i < k
        ensures rows'[i].aadhaar == records[i]
      {
        if i < k - 1 {
          assert rows'[i] == rows[i];
        }
      }
    }
  }

  /** The run's last entry is the summary exactly when nothing fatal happened. */
  lemma RunLogEnds(records: seq<string>, env: BatchEnv)
    requires Scripted(records, env.scripts)
    ensures var log := RunLog(records, env);
            log[|log| - 1] ==
              if ReachesLoop(env) && env.saveOk && env.closeOk
              then LogEntry(BatchCompleted(CountSuccess(Rows(records, env.scripts, |records|)), |records|), Success)
              else LogEntry(FatalError, Error)
  {
  }
}
