/**
 * The browser-facing helpers: one paced action (`slow_action`), the popup
 * dismisser (`handle_popups`), the account pick (`select_account_number`) and
 * the OK-button fallback chain (`try_different_ok_clicks`).  Every browser
 * call is an input saying whether it would succeed; what the helpers leave
 * behind is what the model observes: the log and the screenshots.
 */
module Actions {
  import opened Wrappers
  import opened Chains
  import opened Seqs
  import opened Progress

  /** Screenshot files, by the purpose their names encode (timestamps left out). */
  datatype Capture =
    | AccountSelectionShot            // account_selection_error_{time}.png
    | NoRecordShot(aadhaar: string)   // no_record_{aadhaar}_{time}.png
    | OkButtonShot(aadhaar: string)   // ok_button_error_{aadhaar}_{time}.png
    | AfterOkShot(aadhaar: string)    // after_ok_click_{aadhaar}_{time}.png
    | FinalOkShot(aadhaar: string)    // final_ok_error_{aadhaar}_{time}.png
    | FailureShot(aadhaar: string)    // error_{aadhaar}_{time}.png, full page
    | NavigationShot(aadhaar: string) // error_{aadhaar}.png, from the batch loop

  /** The browser page; the model keeps the screenshots written from it. */
  class Page {
    var captures: seq<Capture>

    constructor ()
      ensures captures == []
    {
      captures := [];
    }

    /** `page.screenshot(...)`: one more file, nothing else changes. */
    method Screenshot(c: Capture)
      modifies this`captures
      ensures captures == old(captures) + [c]
    {
      captures := captures + [c];
    }
  }

  // ---------------------------------------------------------------- slow_action

  function SlowActionLog(desc: string, ok: bool): seq<LogEntry> {
    [LogEntry(ActionStarted(desc), Info)] +
    (if ok then [LogEntry(ActionCompleted(desc), Success)] else [LogEntry(ActionFailed(desc), Error)])
  }

  /**
   * `slow_action`: log the start, run the action once, log its outcome and
   * report it; an exception of the action never leaves this method.
   */
  method SlowAction(st: ProcessingState, desc: string, actionOk: bool) returns (success: bool)
    modifies st`logs
    ensures success == actionOk
    ensures st.logs == old(st.logs) + SlowActionLog(desc, actionOk)
  {
    st.Log(ActionStarted(desc), Info);
    if actionOk {
      st.Log(ActionCompleted(desc), Success);
      success := true;
    } else {
      st.Log(ActionFailed(desc), Error);
      success := false;
    }
  }

  // -------------------------------------------------------------- handle_popups

  const PopupSelectors: seq<string> := [
    "button:has-text('OK')",
    "button.btn-primary:has-text('OK')",
    "button.modal-btn:has-text('OK')",
    ".modal-footer button:has-text('OK')",
    "[role='button']:has-text('OK')"
  ]

  /** One probe per selector (five), then one for the role-based fallback. */
  const PopupProbeCount: nat := 6

  function PopupLog(probes: seq<bool>): seq<LogEntry>
    requires |probes| == PopupProbeCount
  {
    var f := FirstSuccess(probes);
    if f < |PopupSelectors| then [LogEntry(PopupHandled(PopupSelectors[f]), Info)]
    else if f == |PopupSelectors| then [LogEntry(PopupHandledByRole, Info)]
    else []
  }

  /**
   * `handle_popups`: `probes[k]` says whether the k-th way of finding a
   * visible OK button finds one and clicks it.  The first that does ends the
   * scan; a popup that is absent is not an error.
   */
  method HandlePopups(st: ProcessingState, probes: seq<bool>) returns (handled: bool)
    requires |probes| == PopupProbeCount
    modifies st`logs
    ensures handled <==> true in probes
    ensures st.logs == old(st.logs) + PopupLog(probes)
  {
    var i := 0;
    while i < |PopupSelectors|
      invariant 0 <= i <= |PopupSelectors|
      invariant forall j :: 0 <= j < i ==> !probes[j]
      invariant st.logs == old(st.logs)
    {
      if probes[i] {
        st.Log(PopupHandled(PopupSelectors[i]), Info);
        return true;
      }
      i := i + 1;
    }
    if probes[|PopupSelectors|] {
      st.Log(PopupHandledByRole, Info);
      return true;
    }
    return false;
  }

  /** The popup scan logs at most one entry, and one exactly when it clicked. */
  lemma PopupLogIff(probes: seq<bool>)
    requires |probes| == PopupProbeCount
    ensures |PopupLog(probes)| == if true in probes then 1 else 0
    ensures Started(PopupLog(probes)) == [] && OkAttempts(PopupLog(probes)) == []
  {
    ProjectionsSingle(LogEntry(PopupHandledByRole, Info));
    var f := FirstSuccess(probes);
    if f < |PopupSelectors| {
      ProjectionsSingle(LogEntry(PopupHandled(PopupSelectors[f]), Info));
    }
  }

  // ------------------------------------------------------ select_account_number

  /**
   * The account dropdown: `options` is `None` when waiting for the dropdown
   * or listing its options raises, else the option values; `selectOk` says
   * whether `select_option` accepts the chosen value.
   */
  datatype Dropdown = Dropdown(options: Option<seq<string>>, selectOk: bool)

  /** The first option is a disabled placeholder, so a real account needs two. */
  predicate AccountSelects(d: Dropdown) {
    d.options.Some? && |d.options.value| >= 2 && d.selectOk
  }

  function AccountLog(d: Dropdown): seq<LogEntry> {
    if AccountSelects(d) then [LogEntry(AccountSelected(d.options.value[1]), Success)]
    else [LogEntry(AccountSelectionFailed, Error)]
  }

  function AccountShots(d: Dropdown): seq<Capture> {
    if AccountSelects(d) then [] else [AccountSelectionShot]
  }

  /**
   * `select_account_number`: fails, with a screenshot, unless at least two
   * options exist; otherwise it always picks the option at index 1.
   */
  method SelectAccountNumber(st: ProcessingState, page: Page, d: Dropdown) returns (ok: bool)
    modifies st`logs, page`captures
    ensures ok <==> d.options.Some? && |d.options.value| >= 2 && d.selectOk
    ensures st.logs == old(st.logs) + AccountLog(d)
    ensures page.captures == old(page.captures) + AccountShots(d)
  {
    if d.options.None? || |d.options.value| < 2 || !d.selectOk {
      st.Log(AccountSelectionFailed, Error);
      page.Screenshot(AccountSelectionShot);
      return false;
    }
    var account := d.options.value[1];
    st.Log(AccountSelected(account), Success);
    return true;
  }

  // ---------------------------------------------------- try_different_ok_clicks

  /** Role, text, modal footer, primary class, role attribute, Enter key. */
  const OkMethodCount: nat := 6

  /** The entries of the first k methods, all of which failed. */
  function FailedTriesLog(k: nat): seq<LogEntry> {
    if k == 0 then []
    else FailedTriesLog(k - 1) + [LogEntry(OkClickTrying(k), Info)] + [LogEntry(OkClickFailed(k), Error)]
  }

  /** What follows the failed tries: the working method's two entries, or the give-up entry. */
  function OkClickTail(methods: seq<bool>): seq<LogEntry> {
    var f := FirstSuccess(methods);
    if f < |methods| then [LogEntry(OkClickTrying(f + 1), Info)] + [LogEntry(OkClickWorked(f + 1), Success)]
    else [LogEntry(OkClicksExhausted, Error)]
  }

  function OkClickLog(methods: seq<bool>): seq<LogEntry> {
    FailedTriesLog(FirstSuccess(methods)) + OkClickTail(methods)
  }

  /**
   * `try_different_ok_clicks`: `methods[k]` says whether the (k+1)-th way of
   * clicking OK would succeed.  They are tried in order until one does.
   */
  method TryDifferentOkClicks(st: ProcessingState, methods: seq<bool>) returns (ok: bool)
    requires |methods| == OkMethodCount
    modifies st`logs
    ensures ok <==> true in methods
    ensures st.logs == old(st.logs) + OkClickLog(methods)
  {
    for i := 0 to |methods|
      invariant forall j :: 0 <= j < i ==> !methods[j]
      invariant st.logs == old(st.logs) + FailedTriesLog(i)
    {
      st.Log(OkClickTrying(i + 1), Info);
      if methods[i] {
        st.Log(OkClickWorked(i + 1), Success);
        FirstSuccessAt(methods, i);
        AppendAssoc4(old(st.logs), FailedTriesLog(i), [LogEntry(OkClickTrying(i + 1), Info)], [LogEntry(OkClickWorked(i + 1), Success)]);
        return true;
      }
      st.Log(OkClickFailed(i + 1), Error);
      AppendAssoc4(old(st.logs), FailedTriesLog(i), [LogEntry(OkClickTrying(i + 1), Info)], [LogEntry(OkClickFailed(i + 1), Error)]);
      assert FailedTriesLog(i + 1) == FailedTriesLog(i) + [LogEntry(OkClickTrying(i + 1), Info)] + [LogEntry(OkClickFailed(i + 1), Error)];
      AppendAssoc(FailedTriesLog(i), [LogEntry(OkClickTrying(i + 1), Info)], [LogEntry(OkClickFailed(i + 1), Error)]);
    }
    st.Log(OkClicksExhausted, Error);
    FirstSuccessAt(methods, |methods|);
    return false;
  }

  lemma ProjectionsSingle(e: LogEntry)
    ensures Started([e]) == if e.message.ActionStarted? then [e.message.desc] else []
    ensures OkAttempts([e]) == if e.message.OkClickTrying? then [e.message.number] else []
  {
    assert [e][..0] == [];
  }

  lemma {:induction false} FailedTriesProjections(k: nat)
    ensures OkAttempts(FailedTriesLog(k)) == CountUp(k)
    ensures Started(FailedTriesLog(k)) == []
  {
    if k > 0 {
      FailedTriesProjections(k - 1);
      var a := FailedTriesLog(k - 1);
      var t := [LogEntry(OkClickTrying(k), Info)];
      var x := [LogEntry(OkClickFailed(k), Error)];
      ProjectionsSingle(t[0]);
      ProjectionsSingle(x[0]);
      ProjectionsAppend(a, t);
      ProjectionsAppend(a + t, x);
      assert FailedTriesLog(k) == a + t + x;
    }
  }

  lemma {:induction false} FailedTriesNeverExhausted(k: nat)
    ensures LogEntry(OkClicksExhausted, Error) !in FailedTriesLog(k)
  {
    if k > 0 {
      FailedTriesNeverExhausted(k - 1);
    }
  }

  lemma OkClickTailProjections(methods: seq<bool>)
    ensures OkAttempts(OkClickTail(methods)) == if true in methods then [FirstSuccess(methods) + 1] else []
    ensures Started(OkClickTail(methods)) == []
  {
    var f := FirstSuccess(methods);
    if f < |methods| {
      var t := [LogEntry(OkClickTrying(f + 1), Info)];
      var w := [LogEntry(OkClickWorked(f + 1), Success)];
      assert OkClickTail(methods) == t + w;
      ProjectionsSingle(t[0]);
      ProjectionsSingle(w[0]);
      ProjectionsAppend(t, w);
    } else {
      assert OkClickTail(methods) == [LogEntry(OkClicksExhausted, Error)];
      ProjectionsSingle(LogEntry(OkClicksExhausted, Error));
    }
  }

  lemma CountUpAttempted(methods: seq<bool>)
    ensures CountUp(Attempted(methods)) ==
            CountUp(FirstSuccess(methods)) + if true in methods then [FirstSuccess(methods) + 1] else []
  {
    if true !in methods {
      assert CountUp(|methods|) + [] == CountUp(|methods|);
    }
  }

  /**
   * The chain tries methods 1, 2, ... up to and including the first that
   * works, or all of them; none after the first success is tried.
   */
  lemma OkClickAttempts(methods: seq<bool>)
    ensures OkAttempts(OkClickLog(methods)) == CountUp(Attempted(methods))
    ensures Started(OkClickLog(methods)) == []
  {
    var f := FirstSuccess(methods);
    FailedTriesProjections(f);
    OkClickTailProjections(methods);
    ProjectionsAppend(FailedTriesLog(f), OkClickTail(methods));
    CountUpAttempted(methods);
  }

  /** "All OK click methods failed" is logged exactly when every method fails. */
  lemma OkClicksExhaustedIff(methods: seq<bool>)
    ensures LogEntry(OkClicksExhausted, Error) in OkClickLog(methods) <==> true !in methods
  {
    FailedTriesNeverExhausted(FirstSuccess(methods));
  }
}
