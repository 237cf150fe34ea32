/** What both versions of JobRunner share: the run states, the internal events and the dicts
    they are pushed as, the logging bridge's payload, configuration validation, the status
    snapshot, the operations that are never supported, and the specification of draining an
    event queue up to its end-of-stream sentinel. */
module JobModel {
  import opened Common

  /** `_state`: "idle" before the first start, "starting" from start until the worker runs,
      "running" while it trains, then "finished" or "error". */
  datatype RunState = Idle | Starting | Running | Finished | Errored

  function StateName(s: RunState): string {
    match s
    case Idle => "idle"
    case Starting => "starting"
    case Running => "running"
    case Finished => "finished"
    case Errored => "error"
  }

  /** An item pushed on a run's queue. Eof is the internal end-of-stream sentinel. */
  datatype Event =
    | StateChanged(runId: string, state: string)
    | Milestone(runId: string, stage: string)
    | LogLine(runId: string, logger: string, level: string, msg: string)  // from the logging bridge
    | LogTail(runId: string, msg: string)                                 // from the log-file tail
    | RunFinished(runId: string, resultPath: string)
    | RunFailed(runId: string, error: string)
    | Eof(runId: string)

  /** The "type" field of the event's dict. */
  function TypeTag(e: Event): string {
    match e
    case StateChanged(_, _) => "state"
    case Milestone(_, _) => "milestone"
    case LogLine(_, _, _, _) => "log"
    case LogTail(_, _) => "log"
    case RunFinished(_, _) => "finished"
    case RunFailed(_, _) => "error"
    case Eof(_) => "eof"
  }

  /** The dict pushed on the queue for an event. */
  function Payload(e: Event): (p: Json)
    ensures "type" in p && p["type"] == Str(TypeTag(e))
    ensures "run_id" in p && p["run_id"] == Str(e.runId)
    ensures "subtype" !in p
  {
    var base := map["run_id" := Str(e.runId), "type" := Str(TypeTag(e))];
    match e
    case StateChanged(_, st) => base["state" := Str(st)]
    case Milestone(_, stage) => base["stage" := Str(stage)]
    case LogLine(_, logger, level, msg) => base["logger" := Str(logger)]["level" := Str(level)]["msg" := Str(msg)]
    case LogTail(_, msg) => base["msg" := Str(msg)]
    case RunFinished(_, path) => base["result_path" := Str(path)]
    case RunFailed(_, err) => base["error" := Str(err)]
    case Eof(_) => base
  }

  /** Reads an event back from its dict, as a consumer of the queue would. */
  function EventOf(p: Json): Option<Event> {
    if "type" !in p || "run_id" !in p || !p["type"].Str? || !p["run_id"].Str? then None
    else
      var t := p["type"].s;
      var id := p["run_id"].s;
      if t == "state" && "state" in p && p["state"].Str? then Some(StateChanged(id, p["state"].s))
      else if t == "milestone" && "stage" in p && p["stage"].Str? then Some(Milestone(id, p["stage"].s))
      else if t == "log" && "logger" in p && "level" in p && "msg" in p
              && p["logger"].Str? && p["level"].Str? && p["msg"].Str? then
        Some(LogLine(id, p["logger"].s, p["level"].s, p["msg"].s))
      else if t == "log" && "msg" in p && p["msg"].Str? then Some(LogTail(id, p["msg"].s))
      else if t == "finished" && "result_path" in p && p["result_path"].Str? then
        Some(RunFinished(id, p["result_path"].s))
      else if t == "error" && "error" in p && p["error"].Str? then Some(RunFailed(id, p["error"].s))
      else if t == "eof" then Some(Eof(id))
      else None
  }

  /** Every event's dict reads back as that event. */
  lemma PayloadRoundTrip(e: Event)
    ensures EventOf(Payload(e)) == Some(e)
  {
    var p := Payload(e);
    if e.LogTail? {
      assert "logger" !in p;
    }
  }

  /** Two different events never share a dict. */
  lemma PayloadInjective(a: Event, b: Event)
    requires Payload(a) == Payload(b)
    ensures a == b
  {
    PayloadRoundTrip(a);
    PayloadRoundTrip(b);
  }

  /** A record as the logging module hands it to a handler. `formatted` is what the handler's
      formatter produced, None when formatting raised. */
  datatype LogRecord = LogRecord(name: string, levelName: string, levelNo: int, formatted: Option<string>, message: string)

  /** Level of the bridge handler (logging.INFO). */
  const InfoLevel := 20

  /** _AsyncQueueLogHandler: a record at INFO or above becomes a log event of its run, with
      the logger name, the lowercased level name, and the formatted text, or the raw message
      when formatting failed. */
  function BridgeEvent(runId: string, rec: LogRecord): (r: Option<Event>)
    ensures r.Some? <==> rec.levelNo >= InfoLevel
    ensures r.Some? ==> r.value.LogLine? && r.value.runId == runId && r.value.logger == rec.name
    ensures r.Some? ==> r.value.level == Lower(rec.levelName)
    ensures r.Some? && rec.formatted.Some? ==> r.value.msg == rec.formatted.value
    ensures r.Some? && rec.formatted.None? ==> r.value.msg == rec.message
    ensures r.Some? ==> Payload(r.value).Keys == {"run_id", "type", "logger", "level", "msg"}
  {
    if rec.levelNo < InfoLevel then None
    else
      var msg := match rec.formatted case Some(f) => f case None => rec.message;
      Some(LogLine(runId, rec.name, Lower(rec.levelName), msg))
  }

  /** The events the bridge pushes for a sequence of records, in order. */
  function BridgeEvents(runId: string, recs: seq<LogRecord>): (r: seq<Event>)
    ensures |r| <= |recs|
    ensures forall i | 0 <= i < |r| :: r[i].LogLine? && r[i].runId == runId
  {
    if recs == [] then []
    else
      var head := match BridgeEvent(runId, recs[0]) case Some(e) => [e] case None => [];
      head + BridgeEvents(runId, recs[1..])
  }

  /** What training did: returned the predictor's path, or raised. */
  datatype FitOutcome = Trained(path: string) | FitRaises(err: PyError)

  /** The event a worker pushes for how its try block ended. */
  function Terminal(runId: string, outcome: Result<string, string>): Event {
    match outcome
    case Ok(path) => RunFinished(runId, path)
    case Err(msg) => RunFailed(runId, msg)
  }

  // ---------------------------------------------------------------------------------------
  // Configuration validation

  const LabelRequired := "cfg.label is required"
  const DataRequired := "Provide training data via cfg.train_df/cfg.train_data/cfg.train_path"

  /** `key in cfg` for whatever value the client sent as cfg: a dict tests its keys, a list
      its items, a str tests for a substring, and a value that is not a container raises
      TypeError. */
  function Contains(cfg: Value, key: string): Result<bool, PyError> {
    match cfg
    case Obj(m) => Ok(key in m)
    case List(xs) => Ok(Str(key) in xs)
    case Str(s) => Ok(IsSubstring(key, s))
    case _ => Err(Raised("TypeError", "argument of type '" + TypeName(cfg) + "' is not iterable"))
  }

  /** A value `in` can test. */
  predicate Container(cfg: Value) {
    cfg.Obj? || cfg.List? || cfg.Str?
  }

  /** What `key in cfg` answers for a container. */
  predicate Holds(cfg: Value, key: string) {
    match cfg
    case Obj(m) => key in m
    case List(xs) => Str(key) in xs
    case Str(s) => IsSubstring(key, s)
    case _ => false
  }

  datatype Verdict = Verdict(ok: bool, reason: Option<string>)

  predicate HoldsData(cfg: Value) {
    Holds(cfg, "train_df") || Holds(cfg, "train_data") || Holds(cfg, "train_path")
  }

  /** validate: the label check comes first, then the data-source check. */
  function Validate(cfg: Value): (r: Result<Verdict, PyError>)
    ensures r.Ok? <==> Container(cfg)
    ensures r.Err? ==> r.error == Raised("TypeError", "argument of type '" + TypeName(cfg) + "' is not iterable")
    ensures r.Ok? ==> (r.value == Verdict(false, Some(LabelRequired)) <==> !Holds(cfg, "label"))
    ensures r.Ok? ==>
              (r.value == Verdict(false, Some(DataRequired)) <==> Holds(cfg, "label") && !HoldsData(cfg))
    ensures r.Ok? ==> (r.value == Verdict(true, None) <==> Holds(cfg, "label") && HoldsData(cfg))
    ensures r.Ok? ==> (r.value.ok <==> r.value.reason.None?)
  {
    match Contains(cfg, "label")
    case Err(e) => Err(e)
    case Ok(hasLabel) =>
      if !hasLabel then Ok(Verdict(false, Some(LabelRequired)))
      else
        match Contains(cfg, "train_df")
        case Err(e) => Err(e)
        case Ok(df) =>
          if df then Ok(Verdict(true, None))
          else
            match Contains(cfg, "train_data")
            case Err(e) => Err(e)
            case Ok(td) =>
              if td then Ok(Verdict(true, None))
              else
                match Contains(cfg, "train_path")
                case Err(e) => Err(e)
                case Ok(tp) => if tp then Ok(Verdict(true, None)) else Ok(Verdict(false, Some(DataRequired)))
  }

  // ---------------------------------------------------------------------------------------
  // Status snapshot and unsupported operations

  function OptStr(o: Option<string>): Value {
    match o
    case Some(s) => Str(s)
    case None => Null
  }

  /** status(run_id): the run id asked about, next to the runner's current fields. */
  function Snapshot(runId: Value, state: RunState, resultPath: Option<string>, lastError: Option<string>, active: bool): (j: Json)
    ensures j.Keys == {"run_id", "state", "result_path", "error", "active"}
    ensures j["run_id"] == runId && j["state"] == Str(StateName(state)) && j["active"] == Bool(active)
    ensures j["result_path"].Null? <==> resultPath.None?
    ensures resultPath.Some? ==> j["result_path"] == Str(resultPath.value)
    ensures j["error"].Null? <==> lastError.None?
    ensures lastError.Some? ==> j["error"] == Str(lastError.value)
  {
    map["run_id" := runId, "state" := Str(StateName(state)), "result_path" := OptStr(resultPath),
        "error" := OptStr(lastError), "active" := Bool(active)]
  }

  datatype ControlOp = Pause | Resume | Cancel | Restart

  /** pause, resume, cancel and restart always raise NotImplementedError. */
  function Unsupported(op: ControlOp): PyError {
    match op
    case Pause => NotImplemented("pause not supported")
    case Resume => NotImplemented("resume not supported")
    case Cancel => NotImplemented("cancel not supported in-thread")
    case Restart => NotImplemented("restart not supported")
  }

  // ---------------------------------------------------------------------------------------
  // Draining a queue up to its sentinel

  predicate NoEof(q: seq<Event>) {
    forall i | 0 <= i < |q| :: !q[i].Eof?
  }

  /** The position of the first Eof, or |q| when there is none. */
  function FirstEof(q: seq<Event>): (k: nat)
    ensures k <= |q|
    ensures NoEof(q[..k])
    ensures k < |q| ==> q[k].Eof?
  {
    if q == [] then 0
    else if q[0].Eof? then 0
    else
      var k := FirstEof(q[1..]);
      assert q[..k + 1] == [q[0]] + q[1..][..k];
      k + 1
  }

  /** What a drain forwards: every item before the first Eof, in order. */
  function BeforeEof(q: seq<Event>): seq<Event> {
    q[..FirstEof(q)]
  }

  /** What a drain leaves on the queue: the items after the first Eof, or nothing. */
  function AfterEof(q: seq<Event>): seq<Event> {
    if FirstEof(q) < |q| then q[FirstEof(q) + 1..] else []
  }

  predicate HasEof(q: seq<Event>) {
    FirstEof(q) < |q|
  }

  /** Draining never forwards the sentinel, loses no item before it, and keeps their order. */
  lemma DrainSplit(q: seq<Event>)
    ensures NoEof(BeforeEof(q))
    ensures HasEof(q) ==> q == BeforeEof(q) + [q[FirstEof(q)]] + AfterEof(q) && q[FirstEof(q)].Eof?
    ensures !HasEof(q) ==> q == BeforeEof(q) && AfterEof(q) == [] && NoEof(q)
  {
    if HasEof(q) {
      assert q == q[..FirstEof(q)] + [q[FirstEof(q)]] + q[FirstEof(q) + 1..];
    }
  }

  /** Taking one non-sentinel item off the front of a queue moves it from the queue to the
      forwarded part of the drain. */
  lemma {:induction false} DrainStep(q: seq<Event>)
    requires q != [] && !q[0].Eof?
    ensures BeforeEof(q) == [q[0]] + BeforeEof(q[1..])
    ensures AfterEof(q) == AfterEof(q[1..])
    ensures HasEof(q) == HasEof(q[1..])
  {
    assert FirstEof(q) == FirstEof(q[1..]) + 1;
    assert q[1..][..FirstEof(q[1..])] == q[1..FirstEof(q)];
  }

  function EofCount(q: seq<Event>): nat {
    if q == [] then 0 else (if q[0].Eof? then 1 else 0) + EofCount(q[1..])
  }

  lemma {:induction false} EofCountAppend(a: seq<Event>, b: seq<Event>)
    ensures EofCount(a + b) == EofCount(a) + EofCount(b)
    decreases |a|
  {
    if a != [] {
      assert (a + b)[0] == a[0];
      assert (a + b)[1..] == a[1..] + b;
      EofCountAppend(a[1..], b);
    } else {
      assert a + b == b;
    }
  }

  lemma {:induction false} EofCountZero(q: seq<Event>)
    ensures EofCount(q) == 0 <==> NoEof(q)
    decreases |q|
  {
    if q != [] {
      EofCountZero(q[1..]);
      assert NoEof(q) <==> !q[0].Eof? && NoEof(q[1..]);
    }
  }

  /** A drain of a queue holding at most one sentinel leaves a queue without one. */
  lemma {:induction false} DrainLeavesNoEof(q: seq<Event>)
    requires EofCount(q) <= 1
    ensures NoEof(AfterEof(q))
  {
    DrainSplit(q);
    if HasEof(q) {
      EofCountAppend(BeforeEof(q) + [q[FirstEof(q)]], AfterEof(q));
      EofCountAppend(BeforeEof(q), [q[FirstEof(q)]]);
      assert EofCount([q[FirstEof(q)]]) == 1;
      EofCountZero(AfterEof(q));
    }
  }
}
