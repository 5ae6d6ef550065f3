/**
 * `process_single_application`: the fixed workflow run for one identifier.
 * Four paced steps open the loan page and fetch the record; a toast saying
 * there is no data ends the record early; the account is picked and OK is
 * clicked; twelve named steps follow, each halting the record when it fails;
 * a last OK chain closes the application without deciding its outcome.
 */
module Sequencer {
  import opened Wrappers
  import opened Chains
  import opened Seqs
  import opened Text
  import opened Progress
  import opened Actions

  const PreSteps: seq<string> := [
    "Opening loan page",
    "Selecting financial year",
    "Entering Aadhaar",
    "Clicking FETCH RECORD"
  ]

  /** The exception each pre-step raises when it fails. */
  const PreStepErrors: seq<string> := [
    "Could not open loan page",
    "Financial year selection failed",
    "Aadhaar entry failed",
    "Fetch record failed"
  ]

  const NamedSteps: seq<string> := [
    "Selecting application type",
    "Clicking page content",
    "UPDATE & CONTINUE (1st time)",
    "UPDATE & CONTINUE (2nd time)",
    "Completing financial details (step 1)",
    "Completing financial details (step 2)",
    "Selecting financial option",
    "SAVE & CONTINUE (1st time)",
    "SAVE & CONTINUE (2nd time)",
    "Clicking Preview",
    "Clicking SUBMIT",
    "Clicking CONFIRM"
  ]

  const AccountError: string := "Account selection failed"
  const OkButtonError: string := "OK button click failed despite multiple attempts"
  const StepErrorPrefix: string := "Process failed at: "

  /** How the remote site answers each browser call made for one record. */
  datatype Site = Site(
    preSteps: seq<bool>,       // the four pre-steps
    toast: Option<string>,     // None: reading the toast raises or yields no text
    dropdown: Dropdown,
    okClicks: seq<bool>,       // the OK chain after account selection
    steps: seq<bool>,          // the twelve named steps
    popups: seq<seq<bool>>,    // the popup scan after each named step
    finalOkClicks: seq<bool>,  // the final OK chain
    scriptClick: bool)         // the JavaScript click tried last

  predicate WellFormed(site: Site) {
    && |site.preSteps| == |PreSteps|
    && |site.okClicks| == OkMethodCount
    && |site.steps| == |NamedSteps|
    && |site.popups| == |NamedSteps|
    && (forall k :: 0 <= k < |site.popups| ==> |site.popups[k]| == PopupProbeCount)
    && |site.finalOkClicks| == OkMethodCount
  }

  /** Line 740: the toast text that marks an identifier without data. */
  predicate ToastReportsError(text: string) {
    Contains(text, "No Records Found") || Contains(Lower(text), "error")
  }

  predicate ToastSaysNoData(toast: Option<string>) {
    toast.Some? && ToastReportsError(toast.value)
  }

  /** How one record ends: `Failed` carries the text of the exception raised. */
  datatype RecordOutcome = Completed | NoData | Failed(reason: string)

  /** The outcome of a record, phase by phase. */
  function Outcome(site: Site): RecordOutcome
    requires WellFormed(site)
  {
    var p := FirstFailure(site.preSteps);
    var s := FirstFailure(site.steps);
    if p < |PreSteps| then Failed(PreStepErrors[p])
    else if ToastSaysNoData(site.toast) then NoData
    else if !AccountSelects(site.dropdown) then Failed(AccountError)
    else if true !in site.okClicks then Failed(OkButtonError)
    else if s < |NamedSteps| then Failed(StepErrorPrefix + NamedSteps[s])
    else Completed
  }

  // ------------------------------------------------------------------- logs

  /** Entries of paced actions that all succeeded, in order. */
  function CompletedActionsLog(descs: seq<string>): seq<LogEntry> {
    if descs == [] then []
    else CompletedActionsLog(descs[..|descs| - 1]) + SlowActionLog(descs[|descs| - 1], true)
  }

  function PreLog(pre: seq<bool>): seq<LogEntry>
    requires |pre| == |PreSteps|
  {
    var p := FirstFailure(pre);
    CompletedActionsLog(PreSteps[..p]) + (if p < |PreSteps| then SlowActionLog(PreSteps[p], false) else [])
  }

  /** Entries of the first k named steps when all of them succeeded. */
  function CompletedStepsLog(site: Site, k: nat): seq<LogEntry>
    requires WellFormed(site) && k <= |NamedSteps|
  {
    if k == 0 then []
    else CompletedStepsLog(site, k - 1) + SlowActionLog(NamedSteps[k - 1], true) + PopupLog(site.popups[k - 1])
  }

  function StepsLog(site: Site): seq<LogEntry>
    requires WellFormed(site)
  {
    var s := FirstFailure(site.steps);
    CompletedStepsLog(site, s) + (if s < |NamedSteps| then SlowActionLog(NamedSteps[s], false) else [])
  }

  function FinalConfirmLog(site: Site): seq<LogEntry>
    requires WellFormed(site)
  {
    [LogEntry(FinalOkAttempt, Info)] + OkClickLog(site.finalOkClicks) +
    (if true in site.finalOkClicks then []
     else if site.scriptClick then [LogEntry(FinalOkAlternative, Info)] + [LogEntry(FinalOkScriptWorked, Success)]
     else [LogEntry(FinalOkAlternative, Info)] + [LogEntry(FinalOkAllFailed, Error)])
  }

  /** Entries after a successful OK click: the named steps and, if all pass, the close. */
  function AfterOkLog(id: string, site: Site): seq<LogEntry>
    requires WellFormed(site)
  {
    StepsLog(site) +
    (if FirstFailure(site.steps) < |NamedSteps| then []
     else FinalConfirmLog(site) + [LogEntry(ApplicationCompleted(id), Success)])
  }

  /** Entries after the record is fetched: the toast check, the account, the OK chain. */
  function AfterFetchLog(id: string, site: Site): seq<LogEntry>
    requires WellFormed(site)
  {
    if ToastSaysNoData(site.toast) then [LogEntry(ToastError(id, site.toast.value), Warning)]
    else if !AccountSelects(site.dropdown) then AccountLog(site.dropdown)
    else if true !in site.okClicks then AccountLog(site.dropdown) + OkClickLog(site.okClicks)
    else AccountLog(site.dropdown) + OkClickLog(site.okClicks) + AfterOkLog(id, site)
  }

  /** Entries written by the protected part of the record, before any handler. */
  function WorkflowLog(id: string, site: Site): seq<LogEntry>
    requires WellFormed(site)
  {
    if FirstFailure(site.preSteps) < |PreSteps| then PreLog(site.preSteps)
    else PreLog(site.preSteps) + AfterFetchLog(id, site)
  }

  /** What the exception handler adds for a failed record. */
  function HandlerLog(id: string, outcome: RecordOutcome): seq<LogEntry> {
    if outcome.Failed? then
      [LogEntry(ProcessingFailed(id, outcome.reason), Error)] + [LogEntry(ScreenshotSaved(id), Info)]
    else []
  }

  function RecordLog(id: string, site: Site): seq<LogEntry>
    requires WellFormed(site)
  {
    WorkflowLog(id, site) + HandlerLog(id, Outcome(site))
  }

  // ------------------------------------------------------------ screenshots

  function AfterOkShots(id: string, site: Site): seq<Capture>
    requires WellFormed(site)
  {
    if FirstFailure(site.steps) == |NamedSteps| && true !in site.finalOkClicks && !site.scriptClick
    then [AfterOkShot(id), FinalOkShot(id)]
    else [AfterOkShot(id)]
  }

  function WorkflowShots(id: string, site: Site): seq<Capture>
    requires WellFormed(site)
  {
    if FirstFailure(site.preSteps) < |PreSteps| then []
    else if ToastSaysNoData(site.toast) then [NoRecordShot(id)]
    else if !AccountSelects(site.dropdown) then [AccountSelectionShot]
    else if true !in site.okClicks then [OkButtonShot(id)]
    else AfterOkShots(id, site)
  }

  function RecordShots(id: string, site: Site): seq<Capture>
    requires WellFormed(site)
  {
    WorkflowShots(id, site) + if Outcome(site).Failed? then [FailureShot(id)] else []
  }

  // ---------------------------------------------------------------- methods

  lemma CompletedActionsExtend(descs: seq<string>, k: nat)
    requires k < |descs|
    ensures CompletedActionsLog(descs[..k + 1]) == CompletedActionsLog(descs[..k]) + SlowActionLog(descs[k], true)
  {
    assert descs[..k + 1][..k] == descs[..k];
  }

  /**
   * One pre-step of lines 707-735: the paced action, and on failure the
   * exception that ends the pre-steps.  `start` is the log before the first.
   */
  method PreStep(st: ProcessingState, pre: seq<bool>, k: nat, ghost start: seq<LogEntry>) returns (ok: bool)
    requires |pre| == |PreSteps| && k < |PreSteps|
    requires k <= FirstFailure(pre)
    requires st.logs == start + CompletedActionsLog(PreSteps[..k])
    modifies st`logs
    ensures ok == pre[k]
    ensures ok ==> st.logs == start + CompletedActionsLog(PreSteps[..k + 1])
    ensures !ok ==> FirstFailure(pre) == k && st.logs == start + PreLog(pre)
  {
    ok := SlowAction(st, PreSteps[k], pre[k]);
    if ok {
      CompletedActionsExtend(PreSteps, k);
      AppendAssoc(start, CompletedActionsLog(PreSteps[..k]), SlowActionLog(PreSteps[k], true));
    } else {
      FirstFailureAt(pre, k);
      AppendAssoc(start, CompletedActionsLog(PreSteps[..k]), SlowActionLog(PreSteps[k], false));
    }
  }

  /** Lines 707-735: the four paced pre-steps; the first failure raises. */
  method OpenAndFetch(st: ProcessingState, pre: seq<bool>) returns (failure: Option<string>)
    requires |pre| == |PreSteps|
    modifies st`logs
    ensures failure.None? <==> false !in pre
    ensures failure.Some? ==> failure.value == PreStepErrors[FirstFailure(pre)]
    ensures st.logs == old(st.logs) + PreLog(pre)
  {
    ghost var start := st.logs;
    assert PreSteps[..0] == [];
    var ok;
    ok := PreStep(st, pre, 0, start);
    if !ok {
      return Some(PreStepErrors[0]);
    }
    ok := PreStep(st, pre, 1, start);
    if !ok {
      return Some(PreStepErrors[1]);
    }
    ok := PreStep(st, pre, 2, start);
    if !ok {
      return Some(PreStepErrors[2]);
    }
    ok := PreStep(st, pre, 3, start);
    if !ok {
      return Some(PreStepErrors[3]);
    }
    SliceAll(PreSteps);
    assert CompletedActionsLog(PreSteps[..4]) + [] == CompletedActionsLog(PreSteps[..4]);
    return None;
  }

  /**
   * One iteration of lines 794-800: the paced step, then on success the popup
   * scan.  `start` is the log before the first named step.
   */
  method NamedStep(st: ProcessingState, site: Site, k: nat, ghost start: seq<LogEntry>) returns (ok: bool)
    requires WellFormed(site) && k < |NamedSteps|
    requires k <= FirstFailure(site.steps)
    requires st.logs == start + CompletedStepsLog(site, k)
    modifies st`logs
    ensures ok == site.steps[k]
    ensures ok ==> st.logs == start + CompletedStepsLog(site, k + 1)
    ensures !ok ==> FirstFailure(site.steps) == k && st.logs == start + StepsLog(site)
  {
    ok := SlowAction(st, NamedSteps[k], site.steps[k]);
    if !ok {
      FirstFailureAt(site.steps, k);
      AppendAssoc(start, CompletedStepsLog(site, k), SlowActionLog(NamedSteps[k], false));
      return;
    }
    var handled := HandlePopups(st, site.popups[k]);
    AppendAssocTail(start, CompletedStepsLog(site, k), SlowActionLog(NamedSteps[k], true), PopupLog(site.popups[k]));
  }

  /** Lines 794-800: the named steps in order, each followed by a popup scan. */
  method NamedStepsPhase(st: ProcessingState, site: Site) returns (failure: Option<string>)
    requires WellFormed(site)
    modifies st`logs
    ensures failure.None? <==> FirstFailure(site.steps) == |NamedSteps|
    ensures failure.Some? ==> failure.value == StepErrorPrefix + NamedSteps[FirstFailure(site.steps)]
    ensures st.logs == old(st.logs) + StepsLog(site)
  {
    for k := 0 to |NamedSteps|
      invariant k <= FirstFailure(site.steps)
      invariant st.logs == old(st.logs) + CompletedStepsLog(site, k)
    {
      var ok := NamedStep(st, site, k, old(st.logs));
      if !ok {
        return Some(StepErrorPrefix + NamedSteps[k]);
      }
    }
    assert CompletedStepsLog(site, |NamedSteps|) + [] == CompletedStepsLog(site, |NamedSteps|);
    return None;
  }

  /** Lines 803-817: the final OK chain, then a script click; neither can fail the record. */
  method FinalConfirmation(st: ProcessingState, page: Page, id: string, site: Site)
    requires WellFormed(site)
    modifies st`logs, page`captures
    ensures st.logs == old(st.logs) + FinalConfirmLog(site)
    ensures page.captures == old(page.captures) +
      if true !in site.finalOkClicks && !site.scriptClick then [FinalOkShot(id)] else []
  {
    ghost var start := st.logs;
    st.Log(FinalOkAttempt, Info);
    var ok := TryDifferentOkClicks(st, site.finalOkClicks);
    ghost var tried := [LogEntry(FinalOkAttempt, Info)] + OkClickLog(site.finalOkClicks);
    AppendAssoc(start, [LogEntry(FinalOkAttempt, Info)], OkClickLog(site.finalOkClicks));
    if !ok {
      st.Log(FinalOkAlternative, Info);
      ghost var last: LogEntry;
      if site.scriptClick {
        st.Log(FinalOkScriptWorked, Success);
        last := LogEntry(FinalOkScriptWorked, Success);
      } else {
        page.Screenshot(FinalOkShot(id));
        st.Log(FinalOkAllFailed, Error);
        last := LogEntry(FinalOkAllFailed, Error);
      }
      AppendAssoc4(start, tried, [LogEntry(FinalOkAlternative, Info)], [last]);
    } else {
      assert tried + [] == tried;
    }
  }

  /** Lines 761-820: the part of the `try` after the OK click. */
  method FillAndSubmit(st: ProcessingState, page: Page, id: string, site: Site) returns (outcome: RecordOutcome)
    requires WellFormed(site)
    modifies st`logs, page`captures
    ensures var s := FirstFailure(site.steps);
            outcome == if s < |NamedSteps| then Failed(StepErrorPrefix + NamedSteps[s]) else Completed
    ensures st.logs == old(st.logs) + AfterOkLog(id, site)
    ensures page.captures == old(page.captures) + AfterOkShots(id, site)
  {
    page.Screenshot(AfterOkShot(id));
    ghost var start := old(st.logs);
    ghost var steps := StepsLog(site);
    var failure := NamedStepsPhase(st, site);
    if failure.Some? {
      assert AfterOkLog(id, site) == steps + [] == steps;
      return Failed(failure.value);
    }
    ghost var mid := st.logs;
    ghost var shot := if true !in site.finalOkClicks && !site.scriptClick then [FinalOkShot(id)] else [];
    FinalConfirmation(st, page, id, site);
    AppendAssoc(old(page.captures), [AfterOkShot(id)], shot);
    ghost var close := FinalConfirmLog(site);
    ghost var done := [LogEntry(ApplicationCompleted(id), Success)];
    st.Log(ApplicationCompleted(id), Success);
    AppendAssoc4(start, steps, close, done);
    return Completed;
  }

  /** Lines 704-820: the body of the `try`, returning how the record ends. */
  method Workflow(st: ProcessingState, page: Page, id: string, site: Site) returns (outcome: RecordOutcome)
    requires WellFormed(site)
    modifies st`logs, page`captures
    ensures outcome == Outcome(site)
    ensures st.logs == old(st.logs) + WorkflowLog(id, site)
    ensures page.captures == old(page.captures) + WorkflowShots(id, site)
  {
    ghost var start := st.logs;
    var failure := OpenAndFetch(st, site.preSteps);
    ghost var pre := PreLog(site.preSteps);
    if failure.Some? {
      return Failed(failure.value);
    }
    if site.toast.Some? && ToastReportsError(site.toast.value) {
      st.Log(ToastError(id, site.toast.value), Warning);
      page.Screenshot(NoRecordShot(id));
      AppendAssoc(start, pre, [LogEntry(ToastError(id, site.toast.value), Warning)]);
      return NoData;
    }
    var ok := SelectAccountNumber(st, page, site.dropdown);
    ghost var account := AccountLog(site.dropdown);
    if !ok {
      AppendAssoc(start, pre, account);
      return Failed(AccountError);
    }
    assert old(page.captures) + [] == old(page.captures);
    ok := TryDifferentOkClicks(st, site.okClicks);
    ghost var clicks := OkClickLog(site.okClicks);
    if !ok {
      page.Screenshot(OkButtonShot(id));
      AppendAssoc4(start, pre, account, clicks);
      return Failed(OkButtonError);
    }
    outcome := FillAndSubmit(st, page, id, site);
    AppendAssoc5(start, pre, account, clicks, AfterOkLog(id, site));
  }

  /**
   * `process_single_application`: record the current identifier, run the
   * workflow, and turn a raised failure into a log entry, a full-page
   * screenshot and `false`.  Nothing escapes it.
   */
  method ProcessSingleApplication(st: ProcessingState, page: Page, id: string, site: Site)
    returns (success: bool)
    requires WellFormed(site)
    modifies st`logs, st`currentAadhaar, page`captures
    ensures success <==> Outcome(site) == Completed
    ensures st.currentAadhaar == id
    ensures st.logs == old(st.logs) + RecordLog(id, site)
    ensures page.captures == old(page.captures) + RecordShots(id, site)
  {
    st.currentAadhaar := id;
    var outcome := Workflow(st, page, id, site);
    ghost var work := WorkflowLog(id, site);
    ghost var shots := WorkflowShots(id, site);
    match outcome
    case Completed =>
      assert work + [] == work && shots + [] == shots;
      success := true;
    case NoData =>
      assert work + [] == work && shots + [] == shots;
      success := false;
    case Failed(reason) =>
      st.Log(ProcessingFailed(id, reason), Error);
      page.Screenshot(FailureShot(id));
      st.Log(ScreenshotSaved(id), Info);
      AppendAssoc4(old(st.logs), work, [LogEntry(ProcessingFailed(id, reason), Error)], [LogEntry(ScreenshotSaved(id), Info)]);
      AppendAssoc(old(page.captures), shots, [FailureShot(id)]);
      success := false;
  }

  // ------------------------------------------------------------- properties

  /**
   * A record succeeds iff every pre-step works, the toast reports no error,
   * an account is selected, some OK method works and all twelve named steps
   * work.  The final OK chain and the script click play no part.
   */
  lemma OutcomeCompletedIff(site: Site)
    requires WellFormed(site)
    ensures Outcome(site) == Completed <==>
      && (forall k :: 0 <= k < |PreSteps| ==> site.preSteps[k])
      && !ToastSaysNoData(site.toast)
      && AccountSelects(site.dropdown)
      && true in site.okClicks
      && (forall k :: 0 <= k < |NamedSteps| ==> site.steps[k])
  {
  }

  /** The no-data outcome is exactly: pre-steps done, then an error toast. */
  lemma OutcomeNoDataIff(site: Site)
    requires WellFormed(site)
    ensures Outcome(site) == NoData <==>
      (forall k :: 0 <= k < |PreSteps| ==> site.preSteps[k]) && ToastSaysNoData(site.toast)
  {
  }

  /** Whatever the final OK chain and the script click do, the outcome is the same. */
  lemma FinalConfirmationIgnored(site: Site, finalOk: seq<bool>, script: bool)
    requires WellFormed(site) && |finalOk| == OkMethodCount
    ensures WellFormed(site.(finalOkClicks := finalOk, scriptClick := script))
    ensures Outcome(site.(finalOkClicks := finalOk, scriptClick := script)) == Outcome(site)
  {
  }

  /** Line 740: the first phrase as written ends the record. */
  lemma ToastNoRecordsFound()
    ensures ToastReportsError("No Records Found")
  {
  }

  /** Line 740: "error" in any letter case, anywhere in the toast, ends the record. */
  lemma ToastErrorAnyCase(text: string, word: string)
    requires Lower(word) == "error" && Contains(text, word)
    ensures ToastReportsError(text)
  {
    LowerKeepsContains(text, word);
  }

  // Projections of the log pieces.

  predicate Quiet(log: seq<LogEntry>) {
    Started(log) == [] && OkAttempts(log) == []
  }

  lemma SlowActionProjections(desc: string, ok: bool)
    ensures Started(SlowActionLog(desc, ok)) == [desc]
    ensures OkAttempts(SlowActionLog(desc, ok)) == []
  {
    var a := [LogEntry(ActionStarted(desc), Info)];
    var b := if ok then [LogEntry(ActionCompleted(desc), Success)] else [LogEntry(ActionFailed(desc), Error)];
    ProjectionsSingle(a[0]);
    ProjectionsSingle(b[0]);
    ProjectionsAppend(a, b);
  }

  lemma QuietSingle(m: Message, t: Tag)
    requires !m.ActionStarted? && !m.OkClickTrying?
    ensures Quiet([LogEntry(m, t)])
  {
    ProjectionsSingle(LogEntry(m, t));
  }

  lemma QuietAppend(a: seq<LogEntry>, b: seq<LogEntry>)
    requires Quiet(a) && Quiet(b)
    ensures Quiet(a + b)
  {
    ProjectionsAppend(a, b);
  }

  lemma {:induction false} CompletedActionsProjections(descs: seq<string>)
    ensures Started(CompletedActionsLog(descs)) == descs
    ensures OkAttempts(CompletedActionsLog(descs)) == []
  {
    if descs != [] {
      var n := |descs|;
      CompletedActionsProjections(descs[..n - 1]);
      SlowActionProjections(descs[n - 1], true);
      ProjectionsAppend(CompletedActionsLog(descs[..n - 1]), SlowActionLog(descs[n - 1], true));
      assert descs[..n - 1] + [descs[n - 1]] == descs;
    }
  }

  lemma {:induction false} CompletedStepsProjections(site: Site, k: nat)
    requires WellFormed(site) && k <= |NamedSteps|
    ensures Started(CompletedStepsLog(site, k)) == NamedSteps[..k]
    ensures OkAttempts(CompletedStepsLog(site, k)) == []
  {
    if k > 0 {
      CompletedStepsProjections(site, k - 1);
      var a := CompletedStepsLog(site, k - 1);
      var b := SlowActionLog(NamedSteps[k - 1], true);
      var c := PopupLog(site.popups[k - 1]);
      SlowActionProjections(NamedSteps[k - 1], true);
      PopupLogIff(site.popups[k - 1]);
      ProjectionsAppend(a, b);
      ProjectionsAppend(a + b, c);
      SliceExtend(NamedSteps, k - 1);
    }
  }

  /** When pre-step p fails, exactly the pre-steps 0..p were started. */
  lemma PreLogProjections(pre: seq<bool>)
    requires |pre| == |PreSteps| && false in pre
    ensures Started(PreLog(pre)) == PreSteps[..FirstFailure(pre) + 1]
    ensures OkAttempts(PreLog(pre)) == []
  {
    var p := FirstFailure(pre);
    var done := CompletedActionsLog(PreSteps[..p]);
    var last := SlowActionLog(PreSteps[p], false);
    assert PreLog(pre) == done + last;
    CompletedActionsProjections(PreSteps[..p]);
    SlowActionProjections(PreSteps[p], false);
    ProjectionsAppend(done, last);
    SliceExtend(PreSteps, p);
  }

  /** When no pre-step fails, all four were started. */
  lemma PreLogComplete(pre: seq<bool>)
    requires |pre| == |PreSteps| && FirstFailure(pre) == |PreSteps|
    ensures Started(PreLog(pre)) == PreSteps
    ensures OkAttempts(PreLog(pre)) == []
  {
    var done := CompletedActionsLog(PreSteps[..|PreSteps|]);
    assert PreLog(pre) == done + [] == done;
    CompletedActionsProjections(PreSteps[..|PreSteps|]);
    SliceAll(PreSteps);
  }

  /** When named step s fails, exactly the named steps 0..s were started. */
  lemma StepsLogProjections(site: Site)
    requires WellFormed(site) && FirstFailure(site.steps) < |NamedSteps|
    ensures Started(StepsLog(site)) == NamedSteps[..FirstFailure(site.steps) + 1]
    ensures OkAttempts(StepsLog(site)) == []
  {
    var s := FirstFailure(site.steps);
    var done := CompletedStepsLog(site, s);
    var last := SlowActionLog(NamedSteps[s], false);
    assert StepsLog(site) == done + last;
    CompletedStepsProjections(site, s);
    SlowActionProjections(NamedSteps[s], false);
    ProjectionsAppend(done, last);
    SliceExtend(NamedSteps, s);
  }

  /** When no named step fails, all twelve were started. */
  lemma StepsLogComplete(site: Site)
    requires WellFormed(site) && FirstFailure(site.steps) == |NamedSteps|
    ensures Started(StepsLog(site)) == NamedSteps
    ensures OkAttempts(StepsLog(site)) == []
  {
    var done := CompletedStepsLog(site, |NamedSteps|);
    assert StepsLog(site) == done + [] == done;
    CompletedStepsProjections(site, |NamedSteps|);
    SliceAll(NamedSteps);
  }

  lemma HandlerQuiet(id: string, outcome: RecordOutcome)
    ensures Quiet(HandlerLog(id, outcome))
  {
    if outcome.Failed? {
      QuietSingle(ProcessingFailed(id, outcome.reason), Error);
      QuietSingle(ScreenshotSaved(id), Info);
      QuietAppend([LogEntry(ProcessingFailed(id, outcome.reason), Error)], [LogEntry(ScreenshotSaved(id), Info)]);
    }
  }

  lemma AccountQuiet(d: Dropdown)
    ensures Quiet(AccountLog(d))
  {
    if AccountSelects(d) {
      QuietSingle(AccountSelected(d.options.value[1]), Success);
    } else {
      QuietSingle(AccountSelectionFailed, Error);
    }
  }

  /** The final close starts no paced step; it tries the OK methods as the chain does. */
  lemma FinalConfirmProjections(site: Site)
    requires WellFormed(site)
    ensures Started(FinalConfirmLog(site)) == []
    ensures OkAttempts(FinalConfirmLog(site)) == OkAttempts(OkClickLog(site.finalOkClicks))
  {
    var a := [LogEntry(FinalOkAttempt, Info)];
    var b := OkClickLog(site.finalOkClicks);
    var c := if true in site.finalOkClicks then []
      else if site.scriptClick then [LogEntry(FinalOkAlternative, Info)] + [LogEntry(FinalOkScriptWorked, Success)]
      else [LogEntry(FinalOkAlternative, Info)] + [LogEntry(FinalOkAllFailed, Error)];
    QuietSingle(FinalOkAttempt, Info);
    QuietSingle(FinalOkAlternative, Info);
    QuietSingle(FinalOkScriptWorked, Success);
    QuietSingle(FinalOkAllFailed, Error);
    QuietAppend([LogEntry(FinalOkAlternative, Info)], [LogEntry(FinalOkScriptWorked, Success)]);
    QuietAppend([LogEntry(FinalOkAlternative, Info)], [LogEntry(FinalOkAllFailed, Error)]);
    assert Quiet(c);
    OkClickAttempts(site.finalOkClicks);
    ProjectionsAppend(a, b);
    ProjectionsAppend(a + b, c);
  }

  // Attempt order and short circuits, stated on the whole record.

  /**
   * When pre-step p fails, exactly the pre-steps 0..p were started, no OK
   * click was tried, and the only screenshot is the handler's full-page one.
   */
  lemma PreStepFailureHalts(id: string, site: Site)
    requires WellFormed(site)
    requires false in site.preSteps
    ensures var p := FirstFailure(site.preSteps);
            && Outcome(site) == Failed(PreStepErrors[p])
            && Started(RecordLog(id, site)) == PreSteps[..p + 1]
            && OkAttempts(RecordLog(id, site)) == []
            && RecordShots(id, site) == [FailureShot(id)]
  {
    PreLogProjections(site.preSteps);
    HandlerQuiet(id, Outcome(site));
    ProjectionsAppend(WorkflowLog(id, site), HandlerLog(id, Outcome(site)));
  }

  /**
   * An error toast ends the record right after the four pre-steps: the log
   * holds nothing after the toast warning, no account entry, no OK attempt,
   * and the only screenshot is the no-record one.
   */
  lemma NoDataShortCircuit(id: string, site: Site)
    requires WellFormed(site)
    requires Outcome(site) == NoData
    ensures RecordLog(id, site) == PreLog(site.preSteps) + [LogEntry(ToastError(id, site.toast.value), Warning)]
    ensures Started(RecordLog(id, site)) == PreSteps
    ensures OkAttempts(RecordLog(id, site)) == []
    ensures RecordShots(id, site) == [NoRecordShot(id)]
  {
    var t := [LogEntry(ToastError(id, site.toast.value), Warning)];
    assert RecordLog(id, site) == PreLog(site.preSteps) + t + [];
    PreLogComplete(site.preSteps);
    QuietSingle(t[0].message, Warning);
    ProjectionsAppend(PreLog(site.preSteps), t);
  }

  /** The log of a record whose named step s is the first to fail, phase by phase. */
  lemma NamedStepFailureLogShape(id: string, site: Site)
    requires WellFormed(site)
    requires FirstFailure(site.preSteps) == |PreSteps| && !ToastSaysNoData(site.toast)
    requires AccountSelects(site.dropdown) && true in site.okClicks
    requires FirstFailure(site.steps) < |NamedSteps|
    ensures RecordLog(id, site) ==
      PreLog(site.preSteps) + (AccountLog(site.dropdown) + OkClickLog(site.okClicks) + StepsLog(site)) +
      HandlerLog(id, Outcome(site))
  {
    assert AfterOkLog(id, site) == StepsLog(site) + [] == StepsLog(site);
    assert AfterFetchLog(id, site) == AccountLog(site.dropdown) + OkClickLog(site.okClicks) + StepsLog(site);
  }

  /**
   * When named step s is the first to fail, the record fails with that
   * step's name, and the screenshots are the one after the OK click and the
   * handler's full-page one.
   */
  lemma NamedStepFailureOutcome(id: string, site: Site)
    requires WellFormed(site)
    requires FirstFailure(site.preSteps) == |PreSteps| && !ToastSaysNoData(site.toast)
    requires AccountSelects(site.dropdown) && true in site.okClicks
    requires FirstFailure(site.steps) < |NamedSteps|
    ensures Outcome(site) == Failed(StepErrorPrefix + NamedSteps[FirstFailure(site.steps)])
    ensures RecordShots(id, site) == [AfterOkShot(id), FailureShot(id)]
  {
  }

  /**
   * When named step s is the first to fail, every pre-step and exactly the
   * named steps 0..s were started.
   */
  lemma NamedStepFailureHalts(id: string, site: Site)
    requires WellFormed(site)
    requires FirstFailure(site.preSteps) == |PreSteps| && !ToastSaysNoData(site.toast)
    requires AccountSelects(site.dropdown) && true in site.okClicks
    requires FirstFailure(site.steps) < |NamedSteps|
    ensures Started(RecordLog(id, site)) == PreSteps + NamedSteps[..FirstFailure(site.steps) + 1]
  {
    var s := FirstFailure(site.steps);
    var pre := PreLog(site.preSteps);
    var acc := AccountLog(site.dropdown);
    var ok := OkClickLog(site.okClicks);
    var steps := StepsLog(site);
    var h := HandlerLog(id, Outcome(site));
    assert Started(RecordLog(id, site)) == Started(pre) + (Started(acc) + Started(ok) + Started(steps)) + Started(h) by {
      NamedStepFailureLogShape(id, site);
      ProjectionsAppend5(pre, acc, ok, steps, h);
    }
    assert Started(pre) == PreSteps by { PreLogComplete(site.preSteps); }
    assert Started(steps) == NamedSteps[..s + 1] by { StepsLogProjections(site); }
    assert Started(acc) == [] by { AccountQuiet(site.dropdown); }
    assert Started(h) == [] by { HandlerQuiet(id, Outcome(site)); }
    assert Started(ok) == [] by { OkClickAttempts(site.okClicks); }
    assert Started(acc) + Started(ok) + Started(steps) == NamedSteps[..s + 1];
  }

  /**
   * When a named step fails, the only OK methods tried are those of the
   * chain before the named steps, up to its first working method.
   */
  lemma NamedStepFailureTries(id: string, site: Site)
    requires WellFormed(site)
    requires FirstFailure(site.preSteps) == |PreSteps| && !ToastSaysNoData(site.toast)
    requires AccountSelects(site.dropdown) && true in site.okClicks
    requires FirstFailure(site.steps) < |NamedSteps|
    ensures OkAttempts(RecordLog(id, site)) == CountUp(Attempted(site.okClicks))
  {
    var pre := PreLog(site.preSteps);
    var acc := AccountLog(site.dropdown);
    var ok := OkClickLog(site.okClicks);
    var steps := StepsLog(site);
    var h := HandlerLog(id, Outcome(site));
    assert OkAttempts(RecordLog(id, site)) == OkAttempts(pre) + (OkAttempts(acc) + OkAttempts(ok) + OkAttempts(steps)) + OkAttempts(h) by {
      NamedStepFailureLogShape(id, site);
      ProjectionsAppend5(pre, acc, ok, steps, h);
    }
    assert OkAttempts(pre) == [] by { PreLogComplete(site.preSteps); }
    assert OkAttempts(steps) == [] by { StepsLogProjections(site); }
    assert OkAttempts(acc) == [] by { AccountQuiet(site.dropdown); }
    assert OkAttempts(h) == [] by { HandlerQuiet(id, Outcome(site)); }
    assert OkAttempts(ok) == CountUp(Attempted(site.okClicks)) by { OkClickAttempts(site.okClicks); }
  }

  /** The log of a completed record, phase by phase. */
  lemma CompletedLogShape(id: string, site: Site)
    requires WellFormed(site)
    requires Outcome(site) == Completed
    ensures RecordLog(id, site) ==
      PreLog(site.preSteps) +
      (AccountLog(site.dropdown) + OkClickLog(site.okClicks) +
       (StepsLog(site) + (FinalConfirmLog(site) + [LogEntry(ApplicationCompleted(id), Success)]))) + []
  {
    var tail := StepsLog(site) + (FinalConfirmLog(site) + [LogEntry(ApplicationCompleted(id), Success)]);
    assert AfterOkLog(id, site) == tail;
    assert AfterFetchLog(id, site) == AccountLog(site.dropdown) + OkClickLog(site.okClicks) + tail;
    assert HandlerLog(id, Outcome(site)) == [];
  }

  /** A completed record started every pre-step and every named step, in order. */
  lemma CompletedStartsEveryStep(id: string, site: Site)
    requires WellFormed(site)
    requires Outcome(site) == Completed
    ensures Started(RecordLog(id, site)) == PreSteps + NamedSteps
  {
    var pre := PreLog(site.preSteps);
    var acc := AccountLog(site.dropdown);
    var ok := OkClickLog(site.okClicks);
    var steps := StepsLog(site);
    var close := FinalConfirmLog(site);
    var done := [LogEntry(ApplicationCompleted(id), Success)];
    var tail := steps + (close + done);
    assert FirstFailure(site.preSteps) == |PreSteps| && FirstFailure(site.steps) == |NamedSteps|;
    assert Started(RecordLog(id, site)) == Started(pre) + (Started(acc) + Started(ok) + Started(tail)) + Started([]) by {
      CompletedLogShape(id, site);
      ProjectionsAppend5(pre, acc, ok, tail, []);
    }
    assert Started(pre) == PreSteps by { PreLogComplete(site.preSteps); }
    assert Started(acc) == [] by { AccountQuiet(site.dropdown); }
    assert Started(ok) == [] by { OkClickAttempts(site.okClicks); }
    assert Started(tail) == NamedSteps by {
      StepsLogComplete(site);
      FinalConfirmProjections(site);
      QuietSingle(ApplicationCompleted(id), Success);
      ProjectionsAppend(close, done);
      ProjectionsAppend(steps, close + done);
    }
    assert Started([]) == [];
    assert Started(acc) + Started(ok) + Started(tail) == NamedSteps;
  }

  /**
   * A completed record tried the OK methods of the chain before the named
   * steps up to its first success, then those of the final close up to its
   * first success or all six.
   */
  lemma CompletedTriesBothChains(id: string, site: Site)
    requires WellFormed(site)
    requires Outcome(site) == Completed
    ensures OkAttempts(RecordLog(id, site)) ==
      CountUp(Attempted(site.okClicks)) + CountUp(Attempted(site.finalOkClicks))
  {
    var pre := PreLog(site.preSteps);
    var acc := AccountLog(site.dropdown);
    var ok := OkClickLog(site.okClicks);
    var steps := StepsLog(site);
    var close := FinalConfirmLog(site);
    var done := [LogEntry(ApplicationCompleted(id), Success)];
    var tail := steps + (close + done);
    assert FirstFailure(site.preSteps) == |PreSteps| && FirstFailure(site.steps) == |NamedSteps|;
    assert OkAttempts(RecordLog(id, site)) == OkAttempts(pre) + (OkAttempts(acc) + OkAttempts(ok) + OkAttempts(tail)) + OkAttempts([]) by {
      CompletedLogShape(id, site);
      ProjectionsAppend5(pre, acc, ok, tail, []);
    }
    assert OkAttempts(pre) == [] by { PreLogComplete(site.preSteps); }
    assert OkAttempts(acc) == [] by { AccountQuiet(site.dropdown); }
    var first := CountUp(Attempted(site.okClicks));
    var last := CountUp(Attempted(site.finalOkClicks));
    assert OkAttempts(ok) == first by { OkClickAttempts(site.okClicks); }
    assert OkAttempts(tail) == last by {
      StepsLogComplete(site);
      FinalConfirmProjections(site);
      QuietSingle(ApplicationCompleted(id), Success);
      ProjectionsAppend(close, done);
      ProjectionsAppend(steps, close + done);
      OkClickAttempts(site.finalOkClicks);
    }
    assert OkAttempts([]) == [];
    DropEmptyEnds(OkAttempts(pre), OkAttempts(acc), OkAttempts(ok), OkAttempts(tail), OkAttempts([]));
  }

  /** The handler's full-page screenshot is taken exactly for failed records. */
  lemma FailureShotIff(id: string, site: Site)
    requires WellFormed(site)
    ensures FailureShot(id) in RecordShots(id, site) <==> Outcome(site).Failed?
  {
  }

  // ------------------------------------------------------------ as written

  /**
   * The OK chain as written: the sixth method (line 684) passes `timeout` to
   * Playwright's `Keyboard.press`, which accepts only `key` and `delay`, so it
   * raises on every page.  The other five methods behave as the page allows.
   */
  function EnterAsWritten(methods: seq<bool>): (w: seq<bool>)
    requires |methods| == OkMethodCount
    ensures |w| == OkMethodCount && !w[OkMethodCount - 1]
    ensures forall k :: 0 <= k < OkMethodCount - 1 ==> w[k] == methods[k]
  {
    methods[..OkMethodCount - 1] + [false]
  }

  /**
   * A site as the code as written meets it: both sixth OK methods raise, and
   * so does the script click of line 810, whose `:has-text` pseudo-class is
   * Playwright's own and makes the browser's `querySelector` throw.
   */
  function AsWritten(site: Site): (w: Site)
    requires WellFormed(site)
    ensures WellFormed(w)
    ensures !w.okClicks[OkMethodCount - 1] && !w.finalOkClicks[OkMethodCount - 1] && !w.scriptClick
  {
    site.(okClicks := EnterAsWritten(site.okClicks),
          finalOkClicks := EnterAsWritten(site.finalOkClicks),
          scriptClick := false)
  }

  /** As written, an OK chain works iff one of its first five methods works, and never by the sixth. */
  lemma EnterNeverWorksAsWritten(methods: seq<bool>)
    requires |methods| == OkMethodCount
    ensures true in EnterAsWritten(methods) <==> exists k :: 0 <= k < OkMethodCount - 1 && methods[k]
    ensures FirstSuccess(EnterAsWritten(methods)) != OkMethodCount - 1
  {
    var w := EnterAsWritten(methods);
    if true in w {
      assert methods[FirstSuccess(w)];
    }
  }

  /**
   * As written, the final-OK screenshot is taken for exactly the completed
   * records whose final chain fails: the script click never saves one.
   */
  lemma FinalOkShotAsWritten(id: string, site: Site)
    requires WellFormed(site)
    ensures FinalOkShot(id) in RecordShots(id, AsWritten(site)) <==>
              Outcome(AsWritten(site)) == Completed && true !in AsWritten(site).finalOkClicks
  {
    var w := AsWritten(site);
    if Outcome(w) == Completed {
      assert WorkflowShots(id, w) == AfterOkShots(id, w);
    }
  }

  /**
   * A record whose OK dialog only the Enter key closes: with the sixth
   * method as evidently intended it completes; as written it fails with the
   * OK-button error and its two screenshots.
   */
  lemma EnterFallbackLost(id: string, site: Site)
    requires WellFormed(site) && Outcome(site) == Completed
    requires site.okClicks == [false, false, false, false, false, true]
    ensures Outcome(AsWritten(site)) == Failed(OkButtonError)
    ensures RecordShots(id, AsWritten(site)) == [OkButtonShot(id), FailureShot(id)]
  {
    var w := AsWritten(site);
    assert w.okClicks == [false, false, false, false, false, false];
    assert true !in w.okClicks;
  }

  /**
   * A completed record whose final chain fails but whose script click would
   * work: as evidently intended only the after-OK screenshot is taken; as
   * written the final-OK failure screenshot follows it.
   */
  lemma ScriptFallbackLost(id: string, site: Site)
    requires WellFormed(site) && Outcome(site) == Completed
    requires site.okClicks[0] && true !in site.finalOkClicks && site.scriptClick
    ensures RecordShots(id, site) == [AfterOkShot(id)]
    ensures RecordShots(id, AsWritten(site)) == [AfterOkShot(id), FinalOkShot(id)]
  {
    var w := AsWritten(site);
    assert w.okClicks[0];
    assert true !in w.finalOkClicks by {
      forall k | 0 <= k < OkMethodCount
        ensures !w.finalOkClicks[k]
      {
        if k < OkMethodCount - 1 {
          assert !site.finalOkClicks[k];
        }
      }
    }
    assert Outcome(w) == Completed;
  }
}
