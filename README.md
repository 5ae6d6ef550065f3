# Aadhaar loan-application automation: a Dafny model of its core

The application takes a spreadsheet of Aadhaar identifiers and drives a web
browser through the loan-application pages of the agricultural-loan portal
once per identifier. This project models the parts of `app.py` that decide
what happens:

- **Upload checks.** `clean_aadhar`, the row filters that follow it, and `allowed_file`.
- **Browser helpers.** The paced action `slow_action`, the popup dismisser
  `handle_popups`, the account pick `select_account_number` and the OK-button
  fallback chain `try_different_ok_clicks`.
- **One record.** `process_single_application`, which opens the loan page,
  fetches the record, checks the toast, selects the account, clicks OK, runs
  the twelve named steps and makes the final confirmation.
- **The batch.** The shared `processing_state`, `log_message`,
  `start_processing` and the `run_processing` worker.

Every browser call is an input that says whether the call would succeed.
Two calls cannot succeed as written: the sixth OK-click method and the
script click of the final confirmation. The model takes their outcomes as
inputs, as the evidently intended calls would have them; the as-written
behaviour and its consequences are stated separately under "Findings".
What the model observes is what the program leaves behind: the log, the
screenshots, the status rows and the shared state. Log entries are a
`Message` datatype with one constructor per `log_message` call site, paired
with the call's tag. Two views of a log state what was attempted:

- `Started` lists, in order, the paced actions a log shows as started.
- `OkAttempts` lists the OK-click methods it shows as tried.

The files follow the program's structure:

| file | contents |
|---|---|
| `wrappers.dfy` | `Option` |
| `chains.dfy` | first-success and first-failure indices of ordered fallback chains |
| `seqs.dfy` | regrouping lemmas for logs and screenshot lists built piece by piece |
| `text.dfy` | ASCII digits, ASCII lower-casing, substring search |
| `upload.dfy` | `clean_aadhar`, the row filters, `allowed_file` |
| `progress.dfy` | `processing_state` as a class, `log_message`, the two log views |
| `actions.dfy` | the page and its screenshots, `slow_action`, `handle_popups`, `select_account_number`, `try_different_ok_clicks` |
| `sequencer.dfy` | `process_single_application`: how the per-record outcome, log and screenshots are specified, the methods, and the properties of one record |
| `batch.dfy` | `start_processing` and `run_processing` |

Where the design description and the code differ, the model follows the
code:

- **Failure screenshots.** A record that fails on account selection or on
  the OK chain gets two screenshots: the helper's own and the handler's
  full-page one. A record without data gets only the `no_record_` one, and
  no handler screenshot.
- **Progress.** Progress is the unrounded `((i + 1) / n) * 100`, set before
  record `i` is processed. It is not an integer percentage.

## Model

| member | source | states |
|---|---|---|
| Upload.CleanAadhar | app.py:964-974 | A missing cell becomes the empty string; a present cell always becomes exactly twelve ASCII digits |
| Upload.CleanAadharKeepsLeadingDigits | app.py:967-973 | With twelve or more digits before the first dot the result is the first twelve of them; with fewer it is those digits right-aligned behind '0' padding |
| Upload.CleanAadharIgnoresFraction | app.py:968 | Nothing after the first dot reaches the identifier (`123.9` cleans like `123`) |
| Upload.CleanAadharFixesIdentifiers | app.py:964-974 | A well-formed twelve-digit identifier comes back unchanged |
| Upload.CleanAadharIdempotent | app.py:964-974 | Cleaning a cleaned identifier changes nothing |
| Upload.CleanAadharOfNoDigits | app.py:969-973 | A present cell without digits becomes twelve zeros, not an empty value, so the filters keep it |
| Upload.ValidRecordsArePresentCells | app.py:976-978 | The two filters drop exactly the missing cells: the kept rows are the cleaned present cells in order, each a twelve-digit identifier |
| Upload.NoValidRecordsIff | app.py:976-982 | The upload is refused for lack of valid identifiers exactly when every cell of the column is missing |
| Upload.BeforeFirstDot | app.py:968 | `split('.')[0]` is a dot-free prefix that is the whole text or stops at the first dot |
| Upload.AfterLastDot | app.py:1067 | `rsplit('.', 1)[1]` is the dot-free suffix that follows the last dot |
| Upload.AllowedFileIff | app.py:1066-1067 | A file name is accepted iff it has a dot and the text after its last dot is `xlsx` or `xls` in any ASCII letter case |
| Upload.AllowedFileUpperCase | app.py:1067 | `loans.XLSX` is accepted |
| Upload.AllowedFileLastSuffix | app.py:1067 | `a.xlsx.txt` is refused: only the last suffix counts |
| Upload.AllowedFileNeedsDot | app.py:1067 | `xlsx` with no dot is refused |
| Text.Digits | app.py:969 | Removing the non-digits keeps only ASCII digits, never lengthens the text and leaves an all-digit text unchanged |
| Text.DigitsAppend | app.py:969 | Removing the non-digits distributes over concatenation |
| Text.ContainsIff | app.py:740 | Python's `sub in s` holds iff `sub` occurs at some position of `s` |
| Text.LowerKeepsContains | app.py:740 | An occurrence of a word survives lower-casing of both texts |
| Chains.FirstSuccess | app.py:687-699 | The index of the first strategy that works: every earlier one fails, it works, and it is within range iff some strategy works |
| Chains.FirstFailure | app.py:707-735 | The index of the first step that fails: every earlier one works, it fails, and it is within range iff some step fails |
| Chains.Attempted | app.py:687-699 | How many strategies a chain tries: the last one tried works iff any works, all before it fail, and all of them are tried when none works |
| Progress.ProcessingState.constructor | app.py:538-545 | The shared state starts idle: not processing, progress 0, empty log, zero counts, no current identifier |
| Progress.ProcessingState.Log | app.py:550-554 | `log_message` appends exactly one entry (message and tag) and changes nothing else |
| Progress.ProjectionsAppend | app.py:550-554 | Both views of the append-only log distribute over appending, so entries keep their order |
| Actions.SlowAction | app.py:563-574 | A paced action logs its start, then its completion or its failure, and reports whether it succeeded; its exception never escapes |
| Actions.HandlePopups | app.py:576-612 | The scan succeeds iff some selector (or the role fallback) finds a visible OK button; only the first such is clicked and logged |
| Actions.PopupLogIff | app.py:576-612 | The scan writes at most one entry, and exactly one when it clicks; it never starts a step or an OK attempt |
| Actions.SelectAccountNumber | app.py:647-674 | Selection succeeds iff the dropdown has at least two options and accepts the choice; the account chosen is always option index 1; on failure the log has the failure entry and one screenshot is taken |
| Actions.TryDifferentOkClicks | app.py:676-699 | The chain succeeds iff some method works; the log holds a trying and a failure entry for each method before the first working one, then that method's trying and success entries, or the give-up entry after all six fail |
| Actions.FailedTriesProjections | app.py:686-696 | k failing methods show as tried in the order 1, ..., k |
| Actions.OkClickAttempts | app.py:676-699 | The methods tried are exactly 1, ..., n, where n is the first working method, or all six when none works; no method after the first success is tried |
| Actions.OkClicksExhaustedIff | app.py:698 | "All OK click methods failed" is logged iff every method fails |
| Sequencer.PreStep | app.py:707-735 | One pre-step: on success the completed entries grow by this step; on failure it is the first failing pre-step and the log is the pre-step log |
| Sequencer.OpenAndFetch | app.py:707-735 | The four pre-steps run in order; the phase fails iff some pre-step fails, with the first failing step's error text; the log holds the steps up to and including that failure |
| Sequencer.NamedStep | app.py:794-799 | One named step and its popup scan; a failure is the first failing named step and ends the phase |
| Sequencer.NamedStepsPhase | app.py:794-800 | The twelve named steps run in order, each followed by a popup scan; the first failure ends the phase with "Process failed at: " and that step's name |
| Sequencer.FinalConfirmation | app.py:802-818 | The final OK chain, then the script click if the chain fails; only when both fail is the final-OK screenshot taken |
| Sequencer.FillAndSubmit | app.py:761-820 | After the after-OK screenshot, the named steps decide the outcome: the first failing step's name, or completion |
| Sequencer.Workflow | app.py:703-820 | The protected part of a record yields the outcome that the record specification assigns it, with the specified log and screenshots |
| Sequencer.ProcessSingleApplication | app.py:701-828 | A record returns true iff its outcome is completion; it sets the current identifier; a failure adds the handler's entries and its full-page screenshot |
| Sequencer.OutcomeCompletedIff | app.py:701-828 | A record completes iff every pre-step succeeds, the toast reports no error, the account is selected, some OK method works and every named step succeeds |
| Sequencer.OutcomeNoDataIff | app.py:737-747 | A record ends without data iff every pre-step succeeds and the toast reports an error |
| Sequencer.FinalConfirmationIgnored | app.py:802-820 | Neither the final OK chain nor the script click can change a record's outcome |
| Sequencer.ToastNoRecordsFound | app.py:740 | The toast text "No Records Found" stops the record |
| Sequencer.ToastErrorAnyCase | app.py:740 | A toast containing "error" in any letter case stops the record |
| Sequencer.PreLogProjections | app.py:707-735 | When a pre-step fails, exactly the pre-steps up to and including it were started, and no OK method was tried |
| Sequencer.PreLogComplete | app.py:707-735 | When no pre-step fails, all four were started, in order |
| Sequencer.StepsLogProjections | app.py:794-800 | When a named step fails, exactly the named steps up to and including it were started |
| Sequencer.StepsLogComplete | app.py:794-800 | When no named step fails, all twelve were started, in order |
| Sequencer.FinalConfirmProjections | app.py:802-818 | The final confirmation starts no paced step; its OK attempts are those of its chain |
| Sequencer.PreStepFailureHalts | app.py:707-735 | A failing pre-step ends the record with its error, after starting only the pre-steps up to it, with no OK attempt and only the handler's screenshot |
| Sequencer.NoDataShortCircuit | app.py:737-747 | An error toast ends the record right after the pre-steps: one warning entry, no account, no OK attempt, only the no-record screenshot and no handler |
| Sequencer.NamedStepFailureOutcome | app.py:794-797 | A failing named step fails the record with "Process failed at: " and that step's name; the screenshots are the after-OK one and the handler's |
| Sequencer.NamedStepFailureHalts | app.py:794-800 | A failing named step halts the record: all pre-steps and exactly the named steps up to the failing one were started |
| Sequencer.NamedStepFailureTries | app.py:753-800 | When a named step fails, the only OK methods tried are those of the first chain, up to its first working method |
| Sequencer.CompletedStartsEveryStep | app.py:707-820 | A completed record started the four pre-steps and then the twelve named steps, in order |
| Sequencer.CompletedTriesBothChains | app.py:753-820 | A completed record tried the first chain up to its working method, then the final chain up to its working method or to its end |
| Sequencer.FailureShotIff | app.py:822-828 | The handler's full-page screenshot is taken iff the record fails |
| Sequencer.EnterAsWritten | app.py:684 | As written, the sixth OK method always raises; the first five behave as the page allows |
| Sequencer.AsWritten | app.py:802-817 | The site the code as written meets: both sixth OK methods (line 684) and the script click (line 810) always raise |
| Sequencer.EnterNeverWorksAsWritten | app.py:676-699 | As written, an OK chain works iff one of its first five methods works, and the working method is never the sixth |
| Sequencer.FinalOkShotAsWritten | app.py:802-817 | As written, the final-OK screenshot is taken exactly for the completed records whose final chain fails |
| Sequencer.EnterFallbackLost | app.py:684 | A record whose dialog only Enter closes completes with a working Enter fallback, but as written fails with the OK-button error and two screenshots |
| Sequencer.ScriptFallbackLost | app.py:808-817 | A completed record whose final chain fails but whose script click would work gets only the after-OK screenshot; as written it also gets the final-OK failure screenshot |
| Batch.ProcessRecordAt | app.py:1089-1117 | One record sets the current identifier, logs its position and sets the progress to `(i+1)/n*100`. If the dashboard navigation raises, it logs an error, takes a screenshot and adds no row. Otherwise it adds one "Success"/"Failure" row and increments the shared counter only on success |
| Batch.ProcessRecords | app.py:1088-1117 | The loop yields the rows of all records in order. The local counter equals the number of "Success" rows. Progress and the current identifier end at the last record |
| Batch.Finish | app.py:1119-1134 | After the loop the flag is cleared; the log gets the report and summary entries, or a fatal error when saving fails, and a fatal error after the summary when closing fails |
| Batch.ProcessAndReport | app.py:1088-1134 | The loop followed by the finish, with the flag cleared; progress and the current identifier end at the last record, or are untouched when there are no records |
| Batch.RunProcessing | app.py:1069-1134 | On every path (launch failure, login page failure, login refused, save or close failure, or success) the flag ends cleared. The log and the report are the ones the run specification gives for that path. Progress and the current identifier end at the last record once the loop has run, and are otherwise untouched |
| Batch.StartProcessing | app.py:1018-1052 | Nothing changes unless the session has the login and the records file, no run is in progress and the file loads. Otherwise the state is reset and the total is the number of records |
| Batch.RunFromReset | app.py:1043-1050 | The worker started on the reset state ends with the flag cleared, the run's log, a shared counter equal to the "Success" rows and at most the total, and the last record's progress and identifier, or the reset values when the loop never ran |
| Batch.StartAndRun | app.py:1018-1052 | The request launches exactly when the session is ready, no run is in progress and the file loads; nothing changes otherwise. A started run ends as RunFromReset states |
| Batch.ProgressMonotone | app.py:1094 | The progress never moves backwards from one record to a later one |
| Batch.ProgressBounds | app.py:1094 | The progress is positive, at most 100, and exactly 100 at the last record |
| Batch.RowsAtMostRecords | app.py:1096-1117 | There is at most one status row per record |
| Batch.CountSuccessAtMostRows | app.py:1103-1107 | There are no more successes than rows |
| Batch.RowsFollowInput | app.py:1102-1104 | Row j belongs to record `RowIndices[j]` and carries that record's outcome |
| Batch.RowIndicesIncrease | app.py:1089-1104 | The rows' record indices strictly increase: rows appear in input order |
| Batch.RowIndicesIff | app.py:1096-1117 | A record leaves a row iff it is the first one or the dashboard opens for it |
| Batch.RowsOnePerRecord | app.py:1089-1104 | When every navigation succeeds, there is exactly one row per record, in input order |
| Batch.RunLogEnds | app.py:1119-1134 | The run's last log entry is the summary iff the browser starts, the login succeeds, and both the save and the close succeed; otherwise it is the fatal error |

## Findings

| source | as written | input that shows it | evidently intended | confidence | as-written member | corrected member |
|---|---|---|---|---|---|---|
| app.py:684 | `page.keyboard.press("Enter", timeout=5000)`: Playwright's `Keyboard.press` accepts only `key` and `delay`, so the sixth OK method raises on every page | an OK dialog that none of the five locators closes but the Enter key would | press Enter as the last fallback | not executed; follows from the library's documented signature | Sequencer.EnterFallbackLost | Actions.OkClicksExhaustedIff |
| app.py:810 | `document.querySelector('button:has-text("OK")')`: `:has-text` is a Playwright selector, not CSS, so the browser's `querySelector` throws and the script click never works | a completed record whose final OK chain fails and whose OK button a script click would press | click the dialog's OK button by script | not executed; follows from the CSS selector grammar | Sequencer.ScriptFallbackLost | Sequencer.FinalConfirmation |

## Left out

- **The two failing calls (see Findings).** The model takes the sixth OK method
  and the script click as inputs, so it also covers runs in which they work,
  which the code as written cannot produce. `Sequencer.AsWritten` restricts
  a site to the as-written behaviour. Every property proved for all sites
  also holds for those restricted sites.
- **Browser calls.** Playwright is a foreign library: every locator, click,
  `goto`, `evaluate`, `select_option` and `text_content` is reduced to an
  input saying whether it succeeds. Screenshots are assumed never to raise.
- **Timing.** `time.sleep`, `random.uniform` delays and `slow_typing` only
  affect timing and are not modelled.
- **`manual_login` (app.py:614-645).** It waits on the wall clock and on a
  human solving the CAPTCHA. It is not part of this model: its log entries
  and whether it returns True are inputs to the run. A CAPTCHA timeout and a
  False return have the same effect on the run, a fatal error.
- **Message text.** Log messages are structured values. Their formatted
  text, the text of caught exceptions and the `print`/`logging` output are
  not modelled.
- **Progress value.** Progress is modelled as an exact real, not as a
  floating-point number.
- **Concurrency.** The worker thread and the `/logs` polling
  (`get_logs`, app.py:1054-1064) are left out. The worker is modelled as a
  call that runs to completion after `start_processing`.
- **Spreadsheet and file I/O.** pandas reading and writing, the JSON
  temporary file and credential loading are left out. Cells reach
  `clean_aadhar` as text or as missing: the text pandas would produce for
  numeric cells (for instance, scientific notation) is not modelled. Whether
  the records file loads, and whether the report workbook is written, are
  inputs.
- **Screenshot file names.** Captures are values naming their purpose. The
  timestamps and folders in their file names are not modelled.
- **Lower-casing.** It is ASCII-only. No non-ASCII character lower-cases to
  one of the letters of "xlsx", "xls" or "error", so both comparisons come
  out as in Python.
- **Flask routes and templates.** The upload form, the session handling
  beyond the two keys `start_processing` reads, and flash messages beyond
  the four outcomes of `start_processing` are left out.
