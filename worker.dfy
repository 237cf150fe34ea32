/** The training thread of backend/Run_Session.py (JobRunner._train_entry) and its log-tail
    thread, as functions of the run's configuration and of what the outside world does. */
module Worker {
  import opened Common
  import opened JobModel
  import opened Helper

  const LogFileSuffix := "/logs/predictor_log.txt"
  const NoPredictorFit := "'NoneType' object has no attribute 'fit'"

  /** The configuration and run id a worker thread is started with. */
  datatype Job = Job(cfg: Value, runId: string)

  /** What the outside world does during a worker's run, after its first milestone. */
  datatype WorkerEnv = WorkerEnv(
    read: ReaderOutcome,              // what load_table's reader does, when train_path is set
    prepareError: Option<PyError>,    // makedirs or truncating the log file raising
    constructLogs: seq<LogRecord>,    // records logged while the predictor is built
    constructError: Option<PyError>,  // the predictor's constructor raising
    fitLogs: seq<LogRecord>,          // records logged while fit runs
    fit: FitOutcome)                  // how fit ends

  datatype Predictor = TabularPredictor | MultiModalPredictor

  /** The train_data handed to fit: a cfg value as given, or the table load_table read. */
  datatype TrainData = FromCfg(value: Value) | Loaded(source: Source, reader: ReaderKind)

  /** What a worker does after its first milestone: the events it pushes before its terminal
      event, how its try block ends, the log path it records (None when it failed before
      that), and the data fit was called with (None when fit was not called). */
  datatype WorkerRun = WorkerRun(pushed: seq<Event>, outcome: Result<string, string>,
                                 logPath: Option<string>, fitData: Option<TrainData>)

  function DefaultRunPath(runId: string): string {
    "./autogluon_runs/" + runId
  }

  /** cfg[key], with a str key, on whatever value cfg is. */
  function Subscript(cfg: Value, key: string): (r: Result<Value, PyError>)
    ensures r.Ok? <==> cfg.Obj? && key in cfg.fields
    ensures r.Ok? ==> r.value == cfg.fields[key]
    ensures cfg.Obj? && key !in cfg.fields ==> r == Err(KeyError(key))
    ensures cfg.List? ==> r == Err(Raised("TypeError", "list indices must be integers or slices, not str"))
    ensures cfg.Str? ==> r == Err(Raised("TypeError", "string indices must be integers, not 'str'"))
    ensures !(cfg.Obj? || cfg.List? || cfg.Str?) ==>
              r == Err(Raised("TypeError", "'" + TypeName(cfg) + "' object is not subscriptable"))
  {
    match cfg
    case Obj(m) => if key in m then Ok(m[key]) else Err(KeyError(key))
    case List(_) => Err(Raised("TypeError", "list indices must be integers or slices, not str"))
    case Str(_) => Err(Raised("TypeError", "string indices must be integers, not 'str'"))
    case _ => Err(Raised("TypeError", "'" + TypeName(cfg) + "' object is not subscriptable"))
  }

  /** `cfg.get("path") or f"./autogluon_runs/{run_id}"`. */
  function RunPath(m: Json, runId: string): Value {
    var p := Get(m, "path");
    if Truthy(p) then p else Str(DefaultRunPath(runId))
  }

  /** `path + "/logs/predictor_log.txt"`. */
  function LogPathOf(path: Value): Result<string, PyError> {
    match path
    case Str(s) => Ok(s + LogFileSuffix)
    case List(_) => Err(Raised("TypeError", "can only concatenate list (not \"str\") to list"))
    case _ => Err(Raised("TypeError", "unsupported operand type(s) for +: '" + TypeName(path) + "' and 'str'"))
  }

  /** How load_table sees a cfg value: a str is a path; any other value has no `name`. */
  function SourceOf(v: Value): Source {
    match v
    case Str(s) => PathText(s)
    case _ => FileLike("")
  }

  /** The predictor chosen by cfg.get("data_type"). */
  function PredictorFor(dataType: Value): Option<Predictor> {
    if dataType == Str("tabular") then Some(TabularPredictor)
    else if dataType == Str("mm") then Some(MultiModalPredictor)
    else None
  }

  predicate OnlyProgress(runId: string, es: seq<Event>) {
    forall i | 0 <= i < |es| :: es[i].runId == runId && (es[i].Milestone? || es[i].LogLine?)
  }

  /** The only milestone among the events is fit_begin, announced at most once. */
  predicate OneFitBegin(runId: string, es: seq<Event>) {
    (forall i | 0 <= i < |es| :: es[i].Milestone? ==> es[i] == Milestone(runId, "fit_begin")) &&
    (forall i, j | 0 <= i < j < |es| :: !(es[i].Milestone? && es[j].Milestone?))
  }

  /** Progress lines, then the fit_begin milestone, then more progress lines. */
  function AroundFitBegin(runId: string, before: seq<Event>, after: seq<Event>): (r: seq<Event>)
    requires forall i | 0 <= i < |before| :: before[i].LogLine? && before[i].runId == runId
    requires forall i | 0 <= i < |after| :: after[i].LogLine? && after[i].runId == runId
    ensures OnlyProgress(runId, r) && OneFitBegin(runId, r)
    ensures Milestone(runId, "fit_begin") in r
  {
    var r := before + [Milestone(runId, "fit_begin")] + after;
    assert r[|before|] == Milestone(runId, "fit_begin");
    assert forall i | 0 <= i < |r| && i != |before| :: r[i].LogLine?;
    r
  }

  /** _train_entry from reading the label to the end of its try block. */
  function Work(job: Job, env: WorkerEnv): (w: WorkerRun)
    ensures OnlyProgress(job.runId, w.pushed)
    ensures OneFitBegin(job.runId, w.pushed)
    ensures w.fitData.Some? ==> Milestone(job.runId, "fit_begin") in w.pushed
  {
    match Subscript(job.cfg, "label")
    case Err(e) => WorkerRun([], Err(ErrorText(e)), None, None)
    case Ok(_) =>
      var m := job.cfg.fields;
      var trainPath := Get(m, "train_path");
      var loaded := if Truthy(trainPath) then LoadTable(SourceOf(trainPath), Int(0), env.read) else Ok(CsvSniff);
      match loaded
      case Err(e) => WorkerRun([], Err(ErrorText(e)), None, None)
      case Ok(kind) =>
        var data := if Truthy(trainPath) then Loaded(SourceOf(trainPath), kind) else FromCfg(Get(m, "train_df"));
        match LogPathOf(RunPath(m, job.runId))
        case Err(e) => WorkerRun([], Err(ErrorText(e)), None, None)
        case Ok(logPath) =>
          if env.prepareError.Some? then WorkerRun([], Err(ErrorText(env.prepareError.value)), Some(logPath), None)
          else
            var predictor := PredictorFor(Get(m, "data_type"));
            var built := if predictor.Some? then BridgeEvents(job.runId, env.constructLogs) else [];
            if predictor.Some? && env.constructError.Some? then
              WorkerRun(built, Err(ErrorText(env.constructError.value)), Some(logPath), None)
            else
              if predictor.None? then WorkerRun(AroundFitBegin(job.runId, [], []), Err(NoPredictorFit), Some(logPath), None)
              else
                var logs := BridgeEvents(job.runId, env.fitLogs);
                var outcome := match env.fit case Trained(p) => Ok(p) case FitRaises(e) => Err(ErrorText(e));
                WorkerRun(AroundFitBegin(job.runId, built, logs), outcome, Some(logPath), Some(data))
  }

  /** A run finishes only when fit was called on a tabular or multimodal predictor and
      returned; its result path is the predictor's. */
  lemma {:induction false} WorkSucceedsOnlyByFit(job: Job, env: WorkerEnv)
    ensures Work(job, env).outcome.Ok? <==> Work(job, env).fitData.Some? && env.fit.Trained?
    ensures Work(job, env).outcome.Ok? ==>
              job.cfg.Obj? && "label" in job.cfg.fields &&
              PredictorFor(Get(job.cfg.fields, "data_type")).Some? &&
              Work(job, env).outcome.value == env.fit.path
  {
  }

  /** validate does not look at data_type: a cfg it accepts whose data_type is neither
      "tabular" nor "mm" leaves the predictor None, and the run ends in error; when nothing
      fails earlier, that error is the attribute error of calling fit on None. */
  lemma UnknownDataTypeFails(job: Job, env: WorkerEnv)
    requires job.cfg.Obj? && "label" in job.cfg.fields
    requires Get(job.cfg.fields, "data_type") !in {Str("tabular"), Str("mm")}
    ensures Work(job, env).outcome.Err? && Work(job, env).fitData.None?
    ensures !Truthy(Get(job.cfg.fields, "train_path")) && RunPath(job.cfg.fields, job.runId).Str? &&
            env.prepareError.None? ==>
              Work(job, env).outcome == Err(NoPredictorFit) &&
              Work(job, env).pushed == [Milestone(job.runId, "fit_begin")]
  {
    assert PredictorFor(Get(job.cfg.fields, "data_type")).None?;
  }

  /** validate only tests membership, so a list naming the keys passes it; the worker's
      `cfg["label"]` then fails on the list before anything is pushed. */
  lemma ListCfgPassesValidation(runId: string, env: WorkerEnv)
    ensures var cfg := List([Str("label"), Str("train_df")]);
            Validate(cfg) == Ok(Verdict(true, None)) &&
            Work(Job(cfg, runId), env) ==
              WorkerRun([], Err(ErrorText(Raised("TypeError", "list indices must be integers or slices, not str"))), None, None)
  {
    var cfg := List([Str("label"), Str("train_df")]);
    assert Holds(cfg, "label") && Holds(cfg, "train_df");
  }

  /** fit receives cfg.train_df, unless train_path is truthy, in which case it receives the
      table load_table read from that path. */
  lemma TrainDataChoice(job: Job, env: WorkerEnv)
    requires Work(job, env).fitData.Some?
    ensures job.cfg.Obj?
    ensures var tp := Get(job.cfg.fields, "train_path");
            Truthy(tp) ==>
              Classify(SourceOf(tp), Int(0)).Ok? && env.read == ReadOk &&
              Work(job, env).fitData == Some(Loaded(SourceOf(tp), Classify(SourceOf(tp), Int(0)).value))
    ensures !Truthy(Get(job.cfg.fields, "train_path")) ==>
              Work(job, env).fitData == Some(FromCfg(Get(job.cfg.fields, "train_df")))
  {
  }

  /** The "train_data" key is accepted by validate but never read by the worker. */
  lemma {:induction false} TrainDataKeyIgnored(m: Json, runId: string, env: WorkerEnv, v: Value)
    ensures Work(Job(Obj(m), runId), env) == Work(Job(Obj(m["train_data" := v]), runId), env)
  {
    var m' := m["train_data" := v];
    assert Get(m', "label") == Get(m, "label") && ("label" in m' <==> "label" in m);
    assert Get(m', "train_path") == Get(m, "train_path");
    assert Get(m', "train_df") == Get(m, "train_df");
    assert Get(m', "path") == Get(m, "path");
    assert Get(m', "data_type") == Get(m, "data_type");
  }

  /** A well-formed tabular run whose fit returns finishes with fit's path, after pushing the
      records at INFO or above logged while the predictor was built, fit_begin, and those
      logged during fit. */
  lemma TabularHappyPath(runId: string, lbl: Value, trainDf: Value, built: seq<LogRecord>, recs: seq<LogRecord>,
                         resultPath: string, read: ReaderOutcome)
    ensures var m := map["label" := lbl, "train_df" := trainDf, "data_type" := Str("tabular")];
            var w := Work(Job(Obj(m), runId), WorkerEnv(read, None, built, None, recs, Trained(resultPath)));
            w.outcome == Ok(resultPath) &&
            w.pushed == BridgeEvents(runId, built) + [Milestone(runId, "fit_begin")] + BridgeEvents(runId, recs) &&
            w.logPath == Some(DefaultRunPath(runId) + LogFileSuffix) &&
            w.fitData == Some(FromCfg(trainDf))
  {
    var m := map["label" := lbl, "train_df" := trainDf, "data_type" := Str("tabular")];
    assert Get(m, "train_path") == Null && Get(m, "path") == Null;
    assert Get(m, "data_type") == Str("tabular");
  }

  // ---------------------------------------------------------------------------------------
  // The log-file tail

  /** current_log_file after the tail has read each snapshot in turn (None: the read failed).
      It moves only when the file grew. */
  function TailSeen(seen: string, snaps: seq<Option<string>>): string {
    if snaps == [] then seen
    else
      var before := TailSeen(seen, snaps[..|snaps| - 1]);
      match snaps[|snaps| - 1]
      case Some(c) => if |c| > |before| then c else before
      case None => before
  }

  /** The diffs the tail emits for each snapshot in turn: the contents past the length seen
      so far, when the file grew. */
  function TailDiffs(seen: string, snaps: seq<Option<string>>): seq<string> {
    if snaps == [] then []
    else
      var init := snaps[..|snaps| - 1];
      var before := TailSeen(seen, init);
      match snaps[|snaps| - 1]
      case Some(c) => if |c| > |before| then TailDiffs(seen, init) + [c[|before|..]] else TailDiffs(seen, init)
      case None => TailDiffs(seen, init)
  }

  function TailEvents(runId: string, diffs: seq<string>): (r: seq<Event>)
    ensures |r| == |diffs|
    ensures forall i | 0 <= i < |r| :: r[i] == LogTail(runId, diffs[i])
  {
    seq(|diffs|, i requires 0 <= i < |diffs| => LogTail(runId, diffs[i]))
  }

  function Concat(ds: seq<string>): string {
    if ds == [] then [] else Concat(ds[..|ds| - 1]) + ds[|ds| - 1]
  }

  /** The contents of the last successful read, or `seen` when there was none. */
  function LastRead(seen: string, snaps: seq<Option<string>>): string {
    if snaps == [] then seen
    else
      match snaps[|snaps| - 1]
      case Some(c) => c
      case None => LastRead(seen, snaps[..|snaps| - 1])
  }

  /** The file only grows: every read extends `seen` and every earlier read. */
  predicate AppendOnly(seen: string, snaps: seq<Option<string>>) {
    (forall i | 0 <= i < |snaps| && snaps[i].Some? :: seen <= snaps[i].value) &&
    (forall i, j | 0 <= i < j < |snaps| && snaps[i].Some? && snaps[j].Some? :: snaps[i].value <= snaps[j].value)
  }

  /** The tail never emits an empty diff: it emits only when the file grew. */
  lemma {:induction false} TailDiffsNonEmpty(seen: string, snaps: seq<Option<string>>)
    ensures forall i | 0 <= i < |TailDiffs(seen, snaps)| :: TailDiffs(seen, snaps)[i] != []
    ensures |TailSeen(seen, snaps)| >= |seen|
  {
    if snaps != [] {
      TailDiffsNonEmpty(seen, snaps[..|snaps| - 1]);
    }
  }

  /** Where current_log_file came from: `seen` itself, or one of the reads. */
  lemma {:induction false} TailSeenSource(seen: string, snaps: seq<Option<string>>) returns (k: int)
    ensures -1 <= k < |snaps|
    ensures k == -1 ==> TailSeen(seen, snaps) == seen
    ensures k >= 0 ==> snaps[k] == Some(TailSeen(seen, snaps))
  {
    if snaps == [] {
      k := -1;
    } else {
      var init := snaps[..|snaps| - 1];
      var j := TailSeenSource(seen, init);
      var before := TailSeen(seen, init);
      match snaps[|snaps| - 1]
      case Some(c) =>
        if |c| > |before| { k := |snaps| - 1; } else { k := j; }
      case None =>
        k := j;
    }
  }

  /** While the file only grows, the diffs the tail emits are exactly the new text: appended to
      what was seen before, they rebuild the last contents read. */
  lemma {:induction false} TailReassembles(seen: string, snaps: seq<Option<string>>)
    requires AppendOnly(seen, snaps)
    ensures seen + Concat(TailDiffs(seen, snaps)) == TailSeen(seen, snaps) == LastRead(seen, snaps)
  {
    if snaps != [] {
      var init := snaps[..|snaps| - 1];
      assert AppendOnly(seen, init);
      TailReassembles(seen, init);
      var before := TailSeen(seen, init);
      match snaps[|snaps| - 1]
      case None =>
      case Some(c) =>
        var k := TailSeenSource(seen, init);
        assert before <= c by {
          if k >= 0 {
            assert snaps[k] == init[k];
          }
        }
        if |c| > |before| {
          var d := c[|before|..];
          calc {
            seen + Concat(TailDiffs(seen, snaps));
            seen + Concat(TailDiffs(seen, init) + [d]);
            { assert (TailDiffs(seen, init) + [d])[..|TailDiffs(seen, init)|] == TailDiffs(seen, init); }
            seen + (Concat(TailDiffs(seen, init)) + d);
            before + d;
            c;
          }
        } else {
          assert c == before;
        }
    }
  }
}
