# Run-control engine of the AutoGluon training backend

This project models, in Dafny, the run-control engine of the backend of a small AutoGluon
front end (keeganasmith/ood_automl) and proves properties of the model:

- **JobRunner**, a single-flight training runner, in both of its versions: the current one in
  `backend/Run_Session.py` (module `RunSession`) and the older one in `backend/sessions.py`
  (module `Sessions`). It covers validation, `start`, the worker thread's terminal transition,
  the `status` snapshot, the unsupported control operations, the queue drain that stops at the
  internal `eof` sentinel and, for the current runner, the log-file tail thread. The runner is a
  `class` whose fields are the Python object's fields. The event queue is a `seq<Event>`. The
  threads become steps the caller interleaves:
  - `Start`;
  - `WorkerBegin` (or `WorkerImport`/`Imported` for the old runner);
  - `WorkerFinish`, which computes the worker's run with a pure function and then applies it
    with `Conclude`;
  - `BeginStream`, `Drain` and `LogStream`.
  The class invariant is stated over field values in module `RunnerRules`. It says:
  - the worker, the logging bridge and `_active` agree;
  - a result path or an error is set only by the terminal transition;
  - the queue holds items of the current run only, at most one `eof`, and no `eof` while the
    run is active;
  - every run id was freshly minted.
- **RunControlSession** in both versions. `dispatch` routes on `action_type` and resolves the run
  id. A start is gated (busy check, then validation). Queued events are translated into the
  client envelope. `curr_run_id` is cleared only if it still names the run whose stream ended.
  The pure routing is shared by both versions in module `Control`.
- **BaseSession** (`backend/Base_Session.py`; `backend/sessions.py` has an identical copy). It
  models `recv_json`, `send_error` and `run_loop`, which isolates errors message by message.
  The transport is a finite sequence of frames. `Serve` is the loop's specification as a
  function, and `Session.RunLoop` is the `while` loop proved against it.
- **The log parser's decision logic** (`backend/autogluon_log_parser.py`):
  - `format_models`, as a loop proved against `Formatted`, and the sorted, line-per-model
    version its docstring describes (see Findings);
  - `one_is_none`;
  - the filter that decides which model blocks are recorded;
  - the best-model fallback;
  - the stable, descending top-5 list;
  - the shape of the summary.
  What the regular expressions capture is an input (`LogFacts`, `Block`). Scores are `real`.
  Number formatting is a parameter (`Formats`).
- **load_table** (`backend/helper.py`): how the source and its lower-cased suffix select a
  reader or an error. The pandas readers are abstract reader kinds, and what they do is an input.

Where the source's own documentation and its code differ, the model follows the code:
- `format_models` keeps its input order, only truncates, and joins its lines with no
  separator. Its docstring (`backend/autogluon_log_parser.py:12-17`) and the comment on
  line 24 say it sorts by score and returns a multiline string; see Findings.
- The old session's envelope keeps the payload's own `type`; see Findings.

Python values are `Common.Value` (None, bool, int, str, dict, list, and an opaque "other"
value with its type name, `str()` text and truthiness). A Python exception is `Common.PyError`. Run
ids come from a fresh-token parameter, with `token !in issued`, in place of `uuid4`.

## Model

| member | source | states |
|---|---|---|
| Common.EscapeChar | backend/helper.py:67 | inside repr's quotes a printable character other than the backslash and the quote is copied as is, and an ASCII character is always written with printable characters only: the backslash, the quote, \n, \r and \t behind a backslash, the other controls and DEL as \xNN |
| Common.Escaped | backend/helper.py:67 | a text of printable characters without backslash or quote is copied unchanged; an ASCII text is escaped into printable characters only |
| Common.PyRepr | backend/helper.py:67 | `repr()` of a str is enclosed in matching quotes chosen by the text (single unless it holds a single quote and no double quote); a plain text without backslash or single quote is shown between single quotes unchanged; the repr of an ASCII text holds no raw control character |
| Common.Lower | backend/helper.py:34 | lower-casing keeps the length and maps every character by itself |
| Common.LowerIdempotent | backend/helper.py:34 | lower-casing twice is lower-casing once |
| JobModel.Payload | backend/Run_Session.py:105-177 | every payload the runner queues carries its kind under `type` and its run id under `run_id`, and never a `subtype` |
| JobModel.PayloadRoundTrip | backend/Run_Session.py:244 | the event a queued payload came from can be read back from the payload, so the drain's test on `type` sees the event's kind |
| JobModel.PayloadInjective | backend/Run_Session.py:105-177 | two events with the same payload are the same event |
| JobModel.BridgeEvent | backend/Run_Session.py:29-42 | the logging bridge turns a record into a log event iff its level is at least INFO; the payload has exactly the keys run_id, type, logger, level, msg; level is the lower-cased level name; msg is the formatted text, or the raw message when formatting fails |
| JobModel.BridgeEvents | backend/Run_Session.py:29-42 | the records logged during fit yield at most as many log events, all of the run |
| JobModel.Validate | backend/Run_Session.py:66-72 | validation returns a verdict iff cfg is a dict, list or str (the values `in` works on), and otherwise raises "argument of type '…' is not iterable"; "cfg.label is required" iff "label" is not in cfg (a dict key, a list item or a substring); the data-source message iff label is in cfg and none of train_df/train_data/train_path is; accepted iff label and a data source are in cfg; a reason is given iff the cfg is rejected |
| JobModel.Snapshot | backend/Run_Session.py:218-225 | status has exactly the keys run_id, state, result_path, error, active; run_id is the requested id, state the state's name and active the flag; result_path and error are None exactly when unset and otherwise the stored strings |
| JobModel.FirstEof | backend/Run_Session.py:240-251 | the index of the first `eof` in the queue (or its length): nothing before it is an `eof` |
| JobModel.DrainSplit | backend/Run_Session.py:240-251 | a queue is what the drain forwards, then the `eof` it stops at, then what it leaves; without an `eof` it forwards everything |
| JobModel.DrainStep | backend/Run_Session.py:240-251 | popping a non-`eof` item forwards it first and leaves the rest of the drain unchanged |
| JobModel.EofCountAppend | backend/Run_Session.py:177 | `eof` counts add up over appended pushes |
| JobModel.EofCountZero | backend/Run_Session.py:244-247 | a queue has no `eof` iff its `eof` count is zero |
| JobModel.DrainLeavesNoEof | backend/Run_Session.py:240-251 | on a queue with at most one `eof`, what the drain leaves behind holds no `eof` |
| Control.ErrorReply | backend/Run_Session.py:292 | an error reply has exactly the keys status ("error") and error (the message) |
| Control.OpReply | backend/Run_Session.py:335-362 | pause, resume, cancel and restart always reply with status "error" and the NotImplementedError text, never with the success message |
| Control.ResolveRunId | backend/Run_Session.py:290-297 | the run id is the message's run_id when truthy, else curr_run_id when non-empty, else none; a resolved id is always truthy |
| Control.RouteMessage | backend/Run_Session.py:284-300 | start with cfg goes to the start handler, and start without cfg raises KeyError('cfg'); status and cancel go to their handlers iff a run id resolves, else they reply "no active run"; any other action replies "unknown action_type=" and the action |
| Control.RunIdResolution | backend/Run_Session.py:289-293 | a truthy run_id in the message wins whatever curr_run_id is; otherwise curr_run_id is used |
| Control.StartGate | backend/Run_Session.py:302-307 | a busy runner refuses with "a run is already in progress" before validation; otherwise the validator's reason (or "invalid cfg") refuses; the run starts iff the runner is idle and the cfg is accepted |
| Control.StartGateOnContainer | backend/Run_Session.py:302-307 | for a dict, list or str cfg the fallback "invalid cfg" never appears; the gate opens iff the runner is idle and label and a data source are in cfg |
| Helper.LastSegment | backend/helper.py:33-34 | the final path segment is all of the text after the path's last separator: a suffix with no separator, preceded by a separator unless it is the whole path |
| Helper.Name | backend/helper.py:33-34 | `Path.name` holds no separator |
| Helper.LastSegmentOf | backend/helper.py:33-34 | the final segment of `d/s` is s, for any s without a separator |
| Helper.NameOfSegment | backend/helper.py:33-34 | the name of `d/s`, and of `d/s/`, is the last component s (any s other than "" and "." without a separator) |
| Helper.NameOfBare | backend/helper.py:33-34 | a bare file name s (no separator, not "" or ".") is its own name, with or without a trailing slash |
| Helper.BareExtension | backend/helper.py:33-34 | the extension of a bare file name is its own lower-cased suffix |
| Helper.TrainCsvSuffix | backend/helper.py:33-34 | "train.CSV" has the suffix ".CSV", lower-cased to ".csv" |
| Helper.BareCsvSniffed | backend/helper.py:32-52 | a bare file name whose final suffix lower-cases to ".csv" (such as "train.CSV") is read by the sniffing CSV reader |
| Helper.LastDot | backend/helper.py:33-34 | the index of the last dot of a name, or -1 when there is none |
| Helper.Suffix | backend/helper.py:33-34 | `Path.suffix` is non-empty iff the name's last dot is neither its first nor its last character, and is then the name from that dot on: a dot followed by at least one character and no further dot |
| Helper.Classify | backend/helper.py:32-67 | no extension or .csv/.txt selects the sniffing CSV reader; .tsv selects the tab reader; .xlsx/.xlsm/.xltx/.xltm select openpyxl with the sheet; .xls selects xlrd with the sheet; any other extension raises ValueError "Unsupported file type: " with the extension's repr (each an if-and-only-if) |
| Helper.LoadTable | backend/helper.py:46-67 | a classification error is raised as is; a reader that succeeds returns its table; an ImportError from the xlrd reader becomes the RuntimeError hint; any other reader error propagates |
| Helper.LastSegmentLower | backend/helper.py:33-34 | lower-casing commutes with taking the last segment |
| Helper.NameLower | backend/helper.py:33-34 | lower-casing commutes with `Path.name` |
| Helper.LastDotLower | backend/helper.py:33-34 | lower-casing does not move the last dot |
| Helper.SuffixLower | backend/helper.py:33-34 | lower-casing commutes with `Path.suffix` |
| Helper.ExtensionIgnoresCase | backend/helper.py:32-34 | two str paths equal up to case have the same extension and select the same reader (".CSV" behaves as ".csv") |
| Helper.LastSegmentChars | backend/helper.py:33 | the last segment uses only characters of the path |
| Helper.NameChars | backend/helper.py:33 | `Path.name` uses only characters of the path |
| Helper.DotlessPathRejected | backend/helper.py:47-67 | a str path without a dot has the empty extension, not None, and is rejected with "Unsupported file type: ''" |
| Worker.Subscript | backend/Run_Session.py:116 | `cfg["label"]` succeeds iff cfg is a dict holding the key, and returns its value; a dict without it raises KeyError; a list raises "list indices must be integers or slices, not str"; a str raises "string indices must be integers, not 'str'"; any other value raises "'…' object is not subscriptable" |
| Worker.AroundFitBegin | backend/Run_Session.py:137-160 | log lines, the fit_begin milestone, then log lines: only progress of the run, with fit_begin its one milestone |
| Worker.Work | backend/Run_Session.py:116-169 | before its terminal event the worker pushes only milestones and log lines of its run; fit_begin is the only milestone, pushed at most once, and always pushed when fit is called; the records logged while the predictor is built come before it |
| Worker.ListCfgPassesValidation | backend/Run_Session.py:66-72 | a list cfg ["label", "train_df"] passes validation, and the worker then fails on `cfg["label"]` with the list-index TypeError, pushing nothing |
| Worker.WorkSucceedsOnlyByFit | backend/Run_Session.py:137-169 | a run succeeds iff fit was called and returned; then cfg had a label and a tabular or mm data_type, and the result path is the predictor's |
| Worker.UnknownDataTypeFails | backend/Run_Session.py:137-156 | a cfg validate accepts, with a data_type other than "tabular" or "mm", never reaches fit and ends in error, the attribute error of calling fit on None when nothing fails earlier |
| Worker.TrainDataChoice | backend/Run_Session.py:124-126 | fit gets the table loaded from train_path when that is truthy, else cfg.get("train_df") |
| Worker.TrainDataKeyIgnored | backend/Run_Session.py:124-126 | the current worker never reads train_data, so setting that key changes nothing about the run |
| Worker.TabularHappyPath | backend/Run_Session.py:116-165 | a tabular cfg with label and train_df whose fit returns finishes with the predictor's path, after the bridged records of the predictor's construction, then fit_begin, then the bridged records of fit |
| Worker.TailEvents | backend/Run_Session.py:211-215 | the tail thread queues one log item per diff, in order, each carrying that diff |
| Worker.TailDiffsNonEmpty | backend/Run_Session.py:209-214 | a diff is queued only when the file grew, so no diff is empty, and the seen contents never shrink |
| Worker.TailSeenSource | backend/Run_Session.py:203-214 | what the tail thread last saw is its starting text or one of the snapshots it read |
| Worker.TailReassembles | backend/Run_Session.py:199-216 | under append-only growth, the seen text followed by every diff is exactly the last contents read |
| RunnerRules.Launched | backend/Run_Session.py:74-106 | a start on an inactive runner leaves the invariant holding, with a fresh id and a queue holding only the "running" state event |
| RunnerRules.Began | backend/Run_Session.py:112-114 | the imported_autogluon milestone keeps the queue free of `eof` and within its run |
| RunnerRules.Concluded | backend/Run_Session.py:163-177 | the terminal transition and finally block leave the runner inactive and finished or errored, with exactly one `eof`, last on the queue |
| RunnerRules.Drained | backend/Run_Session.py:240-251 | taking items off the front keeps the queue within its run with no more `eof` |
| RunnerRules.Tailed | backend/Run_Session.py:211-215 | log items of the current run appended to its queue add no `eof` |
| RunnerRules.EofCountSuffix | backend/Run_Session.py:240-251 | a suffix of the queue has no more `eof` than the queue |
| RunnerRules.FinishedQueue | backend/Run_Session.py:163-177 | a worker's pushes, its terminal event and its `eof`, appended to an `eof`-free queue of its run, give exactly one `eof`, all of the run |
| RunnerRules.DrainedQueue | backend/Run_Session.py:240-251 | a drained suffix keeps the queue's order, holds no more `eof` and none if the queue had none |
| RunSession.JobRunner.constructor | backend/Run_Session.py:49-60 | a new runner is idle and inactive, with no run, queue, result, error or log path |
| RunSession.JobRunner.Start | backend/Run_Session.py:74-106 | on an active runner raises RuntimeError "An AutoGluon run is already active" and changes nothing; otherwise returns the fresh id, becomes active and starting, clears result and error, and queues only the "running" event; a new id always differs from the previous run's |
| RunSession.JobRunner.Launch | backend/Run_Session.py:77-106 | the state an inactive runner's start leaves, field by field, keeping the invariant |
| RunSession.JobRunner.WorkerBegin | backend/Run_Session.py:112-114 | the worker sets state running and queues the imported_autogluon milestone; nothing else changes |
| RunSession.JobRunner.WorkerFinish | backend/Run_Session.py:116-177 | the worker's run, as `Worker.Work` gives it, is applied: inactive, bridge removed, and the queue ends with the terminal event and `eof` |
| RunSession.JobRunner.Conclude | backend/Run_Session.py:163-177 | queue gets the pushed events, exactly one terminal event and `eof` last; success sets finished and the result path; failure sets error and str(e); active becomes false and the handler is removed |
| RunSession.JobRunner.Status | backend/Run_Session.py:218-225 | status is the snapshot of the current fields under the requested id, and changes nothing |
| RunSession.JobRunner.Pause | backend/Run_Session.py:184-186 | always raises NotImplementedError("pause not supported") |
| RunSession.JobRunner.Resume | backend/Run_Session.py:188-189 | always raises NotImplementedError("resume not supported") |
| RunSession.JobRunner.Cancel | backend/Run_Session.py:191-194 | always raises NotImplementedError("cancel not supported in-thread") |
| RunSession.JobRunner.Restart | backend/Run_Session.py:196-197 | always raises NotImplementedError("restart not supported") |
| RunSession.JobRunner.BeginStream | backend/Run_Session.py:233-239 | clears the stop flag, starts the tail from empty, and reports whether a queue exists |
| RunSession.JobRunner.Drain | backend/Run_Session.py:240-257 | forwards the queue up to its first `eof`, in order, never the `eof`; at the `eof` sets the stop flag and leaves the rest; on an empty queue waits, or on cancellation sets the stop flag |
| RunSession.JobRunner.LogStream | backend/Run_Session.py:199-216 | once stopped or with no log path it changes nothing; otherwise it queues one log item per growth of the file, each the new suffix |
| RunSession.TakeUntilEof | backend/Run_Session.py:241-251 | the loop forwards exactly the items before the first `eof`, reports whether it saw one, and leaves exactly what follows it |
| RunSession.Envelope | backend/Run_Session.py:315-319 | a payload without `type` raises KeyError; otherwise the envelope has type "event", subtype the payload's type, every other payload field unchanged, and no other key |
| RunSession.EnvelopeRoundTrip | backend/Run_Session.py:315-319 | removing the envelope gives back the payload exactly |
| RunSession.EventEnvelopeFaithful | backend/Run_Session.py:315-319 | every event reaches the client with type "event", subtype its kind and its run id, and the event can be read back from the envelope |
| RunSession.EventEnvelopes | backend/Run_Session.py:315-319 | the forwarded events are sent one envelope each, in order |
| RunSession.RunControlSession.constructor | backend/Run_Session.py:272-277 | a new session is unconnected, with no current run, no task and nothing sent |
| RunSession.RunControlSession.OnConnect | backend/Base_Session.py:66-68 | connecting records the socket and changes nothing else |
| RunSession.RunControlSession.Dispatch | backend/Run_Session.py:284-329 | start with an open gate starts the run, sets curr_run_id and schedules its stream task, replying success with the id; a refused gate replies the reason and changes nothing; status replies the runner's snapshot; cancel replies the unsupported error; other replies and faults are the routing's |
| RunSession.RunControlSession.Pause | backend/Run_Session.py:335-340 | replies with the "pause not supported" error |
| RunSession.RunControlSession.Resume | backend/Run_Session.py:342-347 | replies with the "resume not supported" error |
| RunSession.RunControlSession.Restart | backend/Run_Session.py:349-355 | replies with the "restart not supported" error and leaves curr_run_id alone |
| RunSession.RunControlSession.PumpStream | backend/Run_Session.py:321-326 | sends the envelopes of the queue's events up to `eof`, in order; when the stream ends at `eof` or without a queue, the task ends and curr_run_id is cleared only if it still names this run; a cancelled stream ends without clearing |
| Sessions.LegacyWork | backend/sessions.py:224-260 | the old worker pushes only progress events of its run, fit_begin its only milestone, at most once and always when fit is called, and records no log path |
| Sessions.LegacyWorkOutcome | backend/sessions.py:224-260 | the old worker succeeds iff cfg has a label, the predictor is built and fit returns; it then returns fit's path; fit gets train_data, or train_df when train_data is None; a missing label fails with its KeyError text before anything is pushed; a constructor that raises fails with its text after the records logged while it ran |
| Sessions.TrainDataKeyHonoured | backend/sessions.py:231-234 | a non-None train_data is what the old worker passes to fit |
| Sessions.LegacyHappyPath | backend/sessions.py:224-255 | a cfg with label and train_df whose fit returns finishes with the predictor's path, after the bridged records of the predictor's construction, then fit_begin, then the bridged records of fit |
| Sessions.JobRunner.constructor | backend/sessions.py:152-162 | a new old-style runner is idle and inactive, with no run, queue, result or error |
| Sessions.JobRunner.Start | backend/sessions.py:176-207 | on an active runner raises RuntimeError and changes nothing; otherwise returns a fresh id, becomes active and starting, clears result and error, and queues only the "running" event |
| Sessions.JobRunner.Launch | backend/sessions.py:179-207 | the state an inactive runner's start leaves, field by field, keeping the invariant |
| Sessions.JobRunner.WorkerImport | backend/sessions.py:209-222 | a failed import ends the run in error with no milestone; otherwise the worker runs on as `Imported` |
| Sessions.JobRunner.Imported | backend/sessions.py:220-222 | the worker sets state running and queues the imported_autogluon milestone |
| Sessions.JobRunner.WorkerFinish | backend/sessions.py:224-267 | the old worker's run, as `Sessions.LegacyWork` gives it, is applied, ending inactive with the terminal event and `eof` last |
| Sessions.JobRunner.Conclude | backend/sessions.py:253-267 | queue gets the pushed events, exactly one terminal event and `eof` last; success sets finished and the result path, failure sets error and str(e); active becomes false and the handler is removed |
| Sessions.JobRunner.Status | backend/sessions.py:289-296 | status is the snapshot of the current fields |
| Sessions.JobRunner.Pause | backend/sessions.py:274-276 | always raises NotImplementedError("pause not supported") |
| Sessions.JobRunner.Resume | backend/sessions.py:278-279 | always raises NotImplementedError("resume not supported") |
| Sessions.JobRunner.Cancel | backend/sessions.py:281-284 | always raises NotImplementedError("cancel not supported in-thread") |
| Sessions.JobRunner.Restart | backend/sessions.py:286-287 | always raises NotImplementedError("restart not supported") |
| Sessions.JobRunner.Drain | backend/sessions.py:298-314 | without a queue returns at once and changes nothing; otherwise forwards the queue up to its first `eof`, in order, never the `eof`, and leaves the rest; on an empty queue blocks or is cancelled |
| Sessions.LegacyEnvelope | backend/sessions.py:373-375 | the old envelope has the payload's keys plus type and subtype; every payload value overrides, so subtype is the payload's type and type is "event" only when the payload has none |
| Sessions.LegacyEnvelopeKeepsPayloadType | backend/sessions.py:375 | every event reaches the client under its own kind as `type`, never "event", unlike the current envelope |
| Sessions.LegacyEnvelopes | backend/sessions.py:373-379 | the forwarded events are sent one old-style envelope each, in order |
| Sessions.RunControlSession.constructor | backend/sessions.py:330-335 | a new session is unconnected, with no current run, no task and nothing sent |
| Sessions.RunControlSession.OnConnect | backend/sessions.py:63-65 | connecting records the socket and changes nothing else |
| Sessions.RunControlSession.Dispatch | backend/sessions.py:342-385 | the same routing and start gate as the current session: an open gate starts the run and sets curr_run_id; a refusal replies the reason; status, cancel and unknown actions as routed |
| Sessions.RunControlSession.Pause | backend/sessions.py:391-396 | replies with the "pause not supported" error |
| Sessions.RunControlSession.Resume | backend/sessions.py:398-403 | replies with the "resume not supported" error |
| Sessions.RunControlSession.Restart | backend/sessions.py:405-411 | replies with the "restart not supported" error |
| Sessions.RunControlSession.PumpStream | backend/sessions.py:377-382 | sends the old envelopes of the queue's events up to `eof`; at `eof` or without a queue the task ends and curr_run_id is cleared only if it still names this run |
| BaseSession.RecvJson | backend/Base_Session.py:73-81 | undecodable text raises ValueError "Invalid JSON from client: " with the decoder's message; a non-object raises TypeError; an object is returned unchanged; disconnect or cancel propagate (each an if-and-only-if) |
| BaseSession.ErrorPayload | backend/Base_Session.py:90-95 | the error payload has exactly the keys type ("error"), code and detail |
| BaseSession.ErrorPayloadSerializable | backend/Base_Session.py:90-96 | an error payload always serialises, so send_error never fails to encode |
| BaseSession.Emit | backend/Base_Session.py:83-88 | a serialisable payload is sent as is; otherwise sending raises and nothing is sent |
| BaseSession.Handle | backend/Base_Session.py:37-62 | one received frame, with what dispatch does for it at that point, yields at most one sent payload; ending the loop sends nothing more; a message whose dispatch returns None sends nothing and the loop goes on |
| BaseSession.Run | backend/Base_Session.py:36-62 | with no more frames, nothing more is sent and the loop is still waiting |
| BaseSession.ServeAt | backend/Base_Session.py:36-62 | the loop from frame i is frame i's step followed by the loop from frame i+1, unless that step ends it |
| BaseSession.ServeBound | backend/Base_Session.py:36-62 | the loop never sends more payloads than it receives frames |
| BaseSession.ServeFirst | backend/Base_Session.py:36-62 | the loop is its first frame's step, then the rest unless that step ends it |
| BaseSession.RunAppend | backend/Base_Session.py:36-62 | once the loop has ended, later frames change nothing; while it waits, frames that arrive later continue it |
| BaseSession.ServeAppend | backend/Base_Session.py:36-62 | the same for the run loop itself: frames after the end are never read |
| BaseSession.BadFrameContinues | backend/Base_Session.py:45-47 | a bad frame sends exactly one "bad message: " error with code bad_message, and the loop goes on with the next frame |
| BaseSession.DispatchFaultContinues | backend/Base_Session.py:57-59 | a dispatch fault sends exactly one "server error: " error with code server_error, and the loop goes on |
| BaseSession.NoReplyContinues | backend/Base_Session.py:61-62 | a message whose dispatch returns None is answered with nothing, and the loop continues with the next frame exactly as if that frame had not come |
| BaseSession.SignalEndsLoop | backend/Base_Session.py:39-44 | a disconnect or cancellation from receive or dispatch ends the loop at once, recording that signal and sending nothing |
| BaseSession.OneResponsePerMessage | backend/Base_Session.py:61-62 | when every frame decodes to an object and dispatch answers each with a serialisable reply, exactly that reply is sent for each message, in order, and the loop waits for more |
| BaseSession.Session.constructor | backend/Base_Session.py:23-24 | a new session has no socket, has sent nothing and has not closed |
| BaseSession.Session.OnConnect | backend/Base_Session.py:66-68 | records the socket and accepts it |
| BaseSession.Session.OnClose | backend/Base_Session.py:63-64 | records one close with the exception that ended the loop |
| BaseSession.Session.SendError | backend/Base_Session.py:90-96 | sends exactly one error payload, with code bad_request unless another is given |
| BaseSession.Session.RunLoop | backend/Base_Session.py:26-64 | connects, sends exactly what the loop's specification sends for the frames and the replies dispatch gave each when it arrived, and when the loop ends closes exactly once with the disconnect or cancellation that ended it (none when a send failed) |
| LogParser.Join | backend/autogluon_log_parser.py:53 | joining no parts gives ""; otherwise the result starts with the first part |
| LogParser.RuntimeParts | backend/autogluon_log_parser.py:48-53 | one part per runtime present: "train …s" first, "val …s" last |
| LogParser.ResourceParts | backend/autogluon_log_parser.py:55-62 | one part per present cpus and gpus, and a last "mem=" part iff both memory fields are present |
| LogParser.Line | backend/autogluon_log_parser.py:71-77 | every model line starts with "• ", the name and ": " |
| LogParser.LineList | backend/autogluon_log_parser.py:35-79 | one line per kept model, in order |
| LogParser.LineListSnoc | backend/autogluon_log_parser.py:35-79 | the lines of one more model are the previous lines plus that model's line |
| LogParser.Kept | backend/autogluon_log_parser.py:28-31 | a positive top keeps exactly the first min(top, n) models; otherwise all; always a prefix, never reordered |
| LogParser.FormatModels | backend/autogluon_log_parser.py:11-81 | the loop computes `Formatted`: "" iff there are no models; otherwise the header followed by the kept models' lines, joined with no separator |
| LogParser.ConcatAppend | backend/autogluon_log_parser.py:81 | joining with "" distributes over concatenation |
| LogParser.FormattedKeepsOrder | backend/autogluon_log_parser.py:28-35 | formatting more models appends their lines after the others' in input order; nothing is sorted |
| LogParser.FormattedTruncates | backend/autogluon_log_parser.py:30-31 | formatting with 0 < top < n is formatting the first top models |
| LogParser.FormattedUnsortedOneLine | backend/autogluon_log_parser.py:28-81 | as written, a model scoring 1.0 followed by one scoring 2.0 is rendered lower score first, and header and lines run together with no line break |
| LogParser.Unscored | backend/autogluon_log_parser.py:24-27 | the unscored models, each without a score; with the scored ones they make up exactly the models |
| LogParser.ByScore | backend/autogluon_log_parser.py:24-27 | the docstring's order is a permutation of the models |
| LogParser.ByScoreOrdered | backend/autogluon_log_parser.py:24-27 | in the docstring's order every scored model is preceded only by scored models of no lower score, so unscored ones come last |
| LogParser.PrefixScoreOrdered | backend/autogluon_log_parser.py:17 | taking the first models keeps that order and draws them from the list |
| LogParser.KeptByScore | backend/autogluon_log_parser.py:17 | `top` applied after sorting keeps score order, takes only models from the input, and keeps at least one when there are models |
| LogParser.SortedFormattedIntended | backend/autogluon_log_parser.py:12-17 | the corrected format_models returns "" iff there are no models; otherwise the header is a line of its own; the models listed are in score order, drawn from the input, and all of them without a positive top |
| LogParser.SortedFormattedSorts | backend/autogluon_log_parser.py:12-17 | corrected, the same two models come out highest score first, header and each model on its own line |
| LogParser.OneIsNone | backend/autogluon_log_parser.py:83-87 | true iff some element is None |
| LogParser.FloatValue | backend/autogluon_log_parser.py:210-216 | a capture is None iff it was not found |
| LogParser.RecordOf | backend/autogluon_log_parser.py:225-233 | a recorded block keeps its name, score, metric and runtimes, and has cpus and gpus |
| LogParser.Records | backend/autogluon_log_parser.py:191-233 | every recorded model has a score, a metric and a train runtime, and no more models are recorded than blocks |
| LogParser.RecordsAppend | backend/autogluon_log_parser.py:191-233 | blocks are recorded independently and in order |
| LogParser.RecordsOfOne | backend/autogluon_log_parser.py:224-233 | a block is recorded iff train runtime, score and metric were all found and resources is non-empty |
| LogParser.RecordBlock | backend/autogluon_log_parser.py:224-233 | appends the block's record exactly when it is recorded |
| LogParser.Scored | backend/autogluon_log_parser.py:245 | the scored models are a sub-multiset of the models, each with a score |
| LogParser.FirstMax | backend/autogluon_log_parser.py:247 | `max` returns the first model of maximal score |
| LogParser.Insert | backend/autogluon_log_parser.py:279 | inserting keeps every model and adds one |
| LogParser.SortDesc | backend/autogluon_log_parser.py:279 | sorting is a permutation |
| LogParser.InsertDescending | backend/autogluon_log_parser.py:279 | inserting into a descending list keeps it descending |
| LogParser.SortDescDescending | backend/autogluon_log_parser.py:279 | the sorted list is in descending score order |
| LogParser.InsertKeepsTies | backend/autogluon_log_parser.py:279 | inserting keeps the relative order of models with equal scores |
| LogParser.SortDescStable | backend/autogluon_log_parser.py:279 | the reverse sort is stable: models of equal score keep their input order |
| LogParser.TopModels | backend/autogluon_log_parser.py:278-280 | the top list has min(5, scored) models, all scored |
| LogParser.TopModelsOrdered | backend/autogluon_log_parser.py:278-280 | the top list is descending and drawn from the scored models, all of them when there are at most 5; every scored model left off scores no higher than the last one listed |
| LogParser.PrefixOfSorted | backend/autogluon_log_parser.py:280 | a prefix of a descending list is descending and drawn from it |
| LogParser.PrefixKeepsHighest | backend/autogluon_log_parser.py:278-280 | what a prefix of a descending list leaves off scores no higher than the prefix's last element |
| LogParser.TopLines | backend/autogluon_log_parser.py:280-284 | one summary line per top model, in order |
| LogParser.Bulleted | backend/autogluon_log_parser.py:317 | one bullet per note |
| LogParser.ParseLog | backend/autogluon_log_parser.py:187-320 | the loop over blocks and the summary build compute `Parsed`, whose models field is the formatted string, not the list |
| LogParser.BestModelFallback | backend/autogluon_log_parser.py:243-249 | without the completion line, a best model exists iff some model is scored; it is then the first of maximal score, marked inferred, and the inferred note is the first note |
| LogParser.BestModelReported | backend/autogluon_log_parser.py:236-242 | with the completion line, the best model is the one it names and no inferred note is added |
| LogParser.SummaryShape | backend/autogluon_log_parser.py:286-319 | the summary always starts with "AutoGluon Tabular run summary"; when scored models exist it holds the top part, with at most 5 lines |

## Left out

- Threads and the event loop are not modelled as concurrency. The worker thread, the tail thread, `run_coroutine_threadsafe`, `create_task` and `to_thread` are steps that a caller interleaves. A blocking `Queue.get` on an empty queue is a `Waiting`/`Blocked` return. Consequences:
  - each worker finish is one atomic step, so the window in which `_active` is already false but `eof` is not yet queued is not modelled;
  - a second tail thread started by a second `stream_progress` call is not modelled;
  - `task_done` has no effect here.
- The logging module is reduced to a "handler installed" flag and the INFO threshold: handler installation and removal, root levels, the formatter's text and `removeHandler` raising. A record's formatted text is an input.
- AutoGluon: the predictors' constructors and `fit` are outcomes given as inputs, as are the import in the old worker and the predictor's path. `presets`, `time_limit`, `hyperparameters`, `problem_type`, `tuning_data` and `verbosity` only reach `fit` and are not modelled.
- The filesystem: `makedirs`, truncating the log file and reading it. Preparing the log directory is a possible error given as an input. The tail thread reads a sequence of file snapshots, and an unreadable read is `None`.
- The old worker's environment-variable defaults are not modelled.
- `uuid4` is replaced by a fresh-token parameter.
- JSON encoding and decoding are abstract. A frame is already decoded, or a decode error with its message. Whether a payload serialises is a property of its values. `ws.send_text` failing is not modelled: a send either serialises or fails on encoding.
- Common.Show: `str()` of a non-empty dict or list is shown as "{...}" or "[...]", not with its items. This covers `str(run_id)` and the action in "unknown action_type=" (`Control.RouteMessage`) when the client sends a dict or list there. Other unmodelled types are the opaque "other" value, with their `str()` text as a field.
- Common.PyRepr: characters above U+007E are copied as they are. Python's repr also escapes the non-printable ones among them (U+0080 to U+00A0, other Unicode control, format and separator characters) as \xNN, \uNNNN or \UNNNNNNNN, and that printability table is not modelled.
- `str.lower()` is modelled for ASCII letters only. Unicode case mapping is left out.
- pathlib is modelled for `/`-separated paths. Windows separators and drive letters are left out.
- pandas: what each reader does is an input.
- Log parser: the regular expressions, `float()`/`int()` parsing of the captures and number formatting are left out. Captures are inputs. Formatting is the `Formats` parameter.
- Log parser: the result dict's `system`, `presets`, `paths`, `dataset`, `split` and `featuregen` fields are inputs of the summary only. The dict itself is not rebuilt field by field.
- `backend/app.py`, `backend/Modify_Session.py` and `ModifyDatasetSession` are not part of this model. They are declared stubs with no behaviour.
- The sessions' unused `runs` dict and `start` wrapper are not modelled. The single `_progress_task` slot is a map (or set) of stream tasks keyed by run id.
- The old runner's `_stop_evt` is not modelled: its `start` clears it and nothing reads it.
- BaseSession.Session.RunLoop: a finite sequence of frames that ends without a disconnect leaves the loop `Waiting` and does not call `on_close`. The real loop would block on the next receive.
- Worker.Work: the first milestone (imported_autogluon) and the state change to running are pushed by `RunSession.JobRunner.WorkerBegin`, not by `Work`.
- Worker.Work and Sessions.LegacyWork: the logging bridge is on the root logger, so records logged by other threads while it is installed also reach the queue. Only the records of the worker's own construction and fit are inputs here.
- BaseSession.Session.RunLoop: what dispatch does with a message is given with its frame, as it turns out when the message arrives. The link between a message and the session state that decides the reply is proved for `RunSession.RunControlSession.Dispatch`, not carried through the loop.

## Findings

| source | as written | input that shows it | evidently intended | confidence | as-written member | corrected member |
|---|---|---|---|---|---|---|
| backend/sessions.py:375 | the envelope `{"type": "event", "subtype": payload.get("type"), **payload}` spreads the payload last, so the payload's own `type` overwrites `"event"` | any queued event, e.g. the state event `{"run_id": id, "type": "state", "state": "running"}`, is sent with `"type": "state"` | every client message carries `"type": "event"`, with the kind under `subtype`, as backend/tests/test_run_control.py:118 expects and `backend/Run_Session.py:317-319` does | not executed | Sessions.LegacyEnvelopeKeepsPayloadType | RunSession.EventEnvelopeFaithful |
| backend/autogluon_log_parser.py:28-81 | `sorted_models = models` never applies the `_score_key` defined just above it, and the lines are joined with `"".join` | two models scoring 1.0 then 2.0 are listed lower score first, and the header and both lines form one line | sort by score, highest first, before `top` applies, and return one line per model, as the docstring (lines 12-17) and the comment on line 24 say | not executed | LogParser.FormattedUnsortedOneLine | LogParser.SortedFormattedIntended |
