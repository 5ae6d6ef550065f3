/**
 * The process-wide `processing_state` record and its append-only log.
 * One `Message` constructor stands for each `log_message` call site; the
 * formatted text (and the text of caught exceptions) is not kept.
 */
module Progress {

  /** The `tag` argument of `log_message`. */
  datatype Tag = Info | Success | Error | Warning

  datatype Message =
    // slow_action
    | ActionStarted(desc: string)          // "⏳ {desc}..."
    | ActionCompleted(desc: string)        // "✅ {desc} completed"
    | ActionFailed(desc: string)           // "❌ Failed: {desc} - {error}"
    // handle_popups
    | PopupHandled(selector: string)
    | PopupHandledByRole
    // select_account_number
    | AccountSelected(account: string)
    | AccountSelectionFailed
    // try_different_ok_clicks; methods are numbered from 1
    | OkClickTrying(number: nat)
    | OkClickWorked(number: nat)
    | OkClickFailed(number: nat)
    | OkClicksExhausted
    // process_single_application
    | ToastError(aadhaar: string, text: string)
    | FinalOkAttempt
    | FinalOkAlternative
    | FinalOkScriptWorked
    | FinalOkAllFailed
    | ApplicationCompleted(aadhaar: string)
    | ProcessingFailed(aadhaar: string, reason: string)
    | ScreenshotSaved(aadhaar: string)
    // run_processing
    | PlaywrightStarting
    | OpeningWebsite
    | ProcessingRecord(aadhaar: string, position: nat, total: nat)
    | RecordSucceeded(aadhaar: string)
    | RecordFailed(aadhaar: string)
    | RecordError(aadhaar: string)
    | ReportSaved
    | BatchCompleted(successful: nat, total: nat)
    | FatalError

  datatype LogEntry = LogEntry(message: Message, tag: Tag)

  /** Descriptions of the `slow_action` steps a log shows as started, in order. */
  function Started(log: seq<LogEntry>): seq<string> {
    if log == [] then []
    else
      var last := log[|log| - 1];
      Started(log[..|log| - 1]) + (if last.message.ActionStarted? then [last.message.desc] else [])
  }

  /** Numbers of the OK-click methods a log shows as tried, in order. */
  function OkAttempts(log: seq<LogEntry>): seq<nat> {
    if log == [] then []
    else
      var last := log[|log| - 1];
      OkAttempts(log[..|log| - 1]) + (if last.message.OkClickTrying? then [last.message.number] else [])
  }

  /** Both projections distribute over appending to the log. */
  lemma {:induction false} ProjectionsAppend(a: seq<LogEntry>, b: seq<LogEntry>)
    ensures Started(a + b) == Started(a) + Started(b)
    ensures OkAttempts(a + b) == OkAttempts(a) + OkAttempts(b)
    decreases |b|
  {
    if b == [] {
      assert a + b == a;
    } else {
      var n := |b|;
      assert (a + b)[..|a + b| - 1] == a + b[..n - 1];
      ProjectionsAppend(a, b[..n - 1]);
    }
  }

  /** The projections of a log assembled from five pieces. */
  lemma ProjectionsAppend5(a: seq<LogEntry>, b: seq<LogEntry>, c: seq<LogEntry>, d: seq<LogEntry>, e: seq<LogEntry>)
    ensures Started(a + (b + c + d) + e) == Started(a) + (Started(b) + Started(c) + Started(d)) + Started(e)
    ensures OkAttempts(a + (b + c + d) + e) == OkAttempts(a) + (OkAttempts(b) + OkAttempts(c) + OkAttempts(d)) + OkAttempts(e)
  {
    ProjectionsAppend(b, c);
    ProjectionsAppend(b + c, d);
    ProjectionsAppend(a, b + c + d);
    ProjectionsAppend(a + (b + c + d), e);
  }

  /** The global `processing_state` dictionary (lines 538-545). */
  class ProcessingState {
    var isProcessing: bool
    var progress: real
    var logs: seq<LogEntry>
    var successfulCount: nat
    var totalRecords: nat
    var currentAadhaar: string

    /** The idle state the module starts in. */
    constructor ()
      ensures !isProcessing && progress == 0.0 && logs == []
      ensures successfulCount == 0 && totalRecords == 0 && currentAadhaar == ""
    {
      isProcessing := false;
      progress := 0.0;
      logs := [];
      successfulCount := 0;
      totalRecords := 0;
      currentAadhaar := "";
    }

    /** `log_message`: append one entry; nothing else changes. */
    method Log(message: Message, tag: Tag)
      modifies this`logs
      ensures logs == old(logs) + [LogEntry(message, tag)]
    {
      logs := logs + [LogEntry(message, tag)];
    }
  }
}
